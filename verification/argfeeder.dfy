/** The argument feeder: binds a token list, left to right, to an ordered list of named
    checkers, falls back to defaults for the checkers left unbound, and renders the
    usage line of the whole list. */
module ArgFeeders {
  import opened Wrappers
  import opened ArgCheckers
  import opened Seqs

  type Entry = (string, Checker)

  /** A conversion of what a checker is handed. */
  type Conv = (Checker, Value) -> Result<Value, ArgError>

  /** The `argTypeList` handed to the constructor. */
  datatype ArgTypeList =
    | OrderedDict(entries: seq<Entry>)
    | PlainDict(entries: seq<Entry>)
    | NotADict

  /** What `checkArgs` may be called with. */
  datatype ArgInput = ListArg(items: seq<Value>) | StrArg(s: string) | OtherArg

  datatype Feeder = Feeder(entries: seq<Entry>)

  /** The argument names, in order. */
  function NamesOf(entries: seq<Entry>): (r: seq<string>)
    ensures |r| == |entries| && forall k | 0 <= k < |r| :: r[k] == entries[k].0
  {
    seq(|entries|, k requires 0 <= k < |entries| => entries[k].0)
  }

  /** Every checker is one its constructor built. */
  predicate AllValid(entries: seq<Entry>) {
    forall i | 0 <= i < |entries| :: Valid(entries[i].1)
  }

  /** Dictionary keys are distinct, and every checker is one its constructor built. */
  predicate WellFormedEntries(entries: seq<Entry>) {
    Distinct(NamesOf(entries)) && AllValid(entries)
  }

  predicate WellFormed(f: Feeder) {
    WellFormedEntries(f.entries)
  }

  /** `ArgFeeder(argTypeList)`: only an ordered dictionary, or an empty plain one. */
  function NewFeeder(a: ArgTypeList): (r: Result<Feeder, ArgError>)
    ensures r.Ok? <==> a.OrderedDict? || (a.PlainDict? && |a.entries| == 0)
    ensures r.Ok? ==> r.value.entries == a.entries
    ensures r.Err? ==> r == Err(InitError)
  {
    if a.OrderedDict? || (a.PlainDict? && |a.entries| == 0) then Ok(Feeder(a.entries)) else Err(InitError)
  }

  /** `s[i:]` with Python's clamping. */
  function Drop<T>(s: seq<T>, i: nat): seq<T> {
    if i < |s| then s[i..] else []
  }

  /** `s[:n]` with Python's clamping. */
  function Take<T>(s: seq<T>, n: nat): seq<T> {
    if n < |s| then s[..n] else s
  }

  /** The tokens of a call: a list as is, a lone string as a one-token list. */
  function InputTokens(input: ArgInput): (r: Result<seq<Value>, ArgError>)
    ensures input.OtherArg? <==> r.Err?
    ensures input.StrArg? ==> r == Ok([StrV(input.s)])
    ensures input.ListArg? ==> r == Ok(input.items)
  {
    match input
    case ListArg(items) => Ok(items)
    case StrArg(s) => Ok([StrV(s)])
    case OtherArg => Err(ValueError)
  }

  /** The value handed to a bounded checker: the bare token for a one-token checker,
      else the (clamped) slice of `maximumSize` tokens. */
  function BoundedValue(c: Checker, rest: seq<Value>): Value
    requires c.maxSize.Some?
    requires c.minSize == Some(1) ==> |rest| >= 1
  {
    var slice := Take(rest, c.maxSize.value);
    if c.minSize == Some(1) && c.maxSize.value == 1 then slice[0] else ListV(slice)
  }

  /** The second loop of `checkArgs`: every checker from `i` on takes its default, or
      the call fails. */
  function Defaults(entries: seq<Entry>, i: nat, acc: map<string, Value>): (r: Result<map<string, Value>, ArgError>)
    requires i <= |entries|
    decreases |entries| - i
    ensures r.Ok? <==> forall j | i <= j < |entries| :: HasDefaultValue(entries[j].1)
    ensures r.Err? ==> r == Err(ValueError)
  {
    if i == |entries| then Ok(acc)
    else
      var (name, c) := entries[i];
      if !HasDefaultValue(c) then Err(ValueError)
      else Defaults(entries, i + 1, acc[name := GetDefaultValue(c).value])
  }

  /** The second loop binds every name from `i` on. */
  lemma {:induction false} DefaultsKeys(entries: seq<Entry>, i: nat, acc: map<string, Value>)
    requires i <= |entries|
    decreases |entries| - i
    ensures var r := Defaults(entries, i, acc);
            r.Ok? ==> r.value.Keys == acc.Keys + set j | i <= j < |entries| :: entries[j].0
  {
    if i < |entries| && HasDefaultValue(entries[i].1) {
      var (name, c) := entries[i];
      DefaultsKeys(entries, i + 1, acc[name := GetDefaultValue(c).value]);
      assert (set j | i <= j < |entries| :: entries[j].0) == {name} + set j | i + 1 <= j < |entries| :: entries[j].0;
    }
  }

  /** The second loop keeps what the map held for a name it does not bind. */
  lemma {:induction false} DefaultsKeeps(entries: seq<Entry>, i: nat, acc: map<string, Value>, k: string)
    requires i <= |entries| && k in acc && k !in NamesOf(entries)[i..]
    decreases |entries| - i
    ensures var r := Defaults(entries, i, acc);
            r.Ok? ==> k in r.value && r.value[k] == acc[k]
  {
    if i < |entries| && HasDefaultValue(entries[i].1) {
      var (name, c) := entries[i];
      assert NamesOf(entries)[i..][0] == name;
      assert NamesOf(entries)[i + 1..] == NamesOf(entries)[i..][1..];
      DefaultsKeeps(entries, i + 1, acc[name := GetDefaultValue(c).value], k);
    }
  }

  /** With distinct names, no later checker rebinds the `i`-th name. */
  lemma LaterNamesDiffer(entries: seq<Entry>, i: nat)
    requires Distinct(NamesOf(entries)) && i < |entries|
    ensures entries[i].0 !in NamesOf(entries)[i + 1..]
  {
    var names := NamesOf(entries);
    var later := names[i + 1..];
    forall m | 0 <= m < |later| ensures later[m] != names[i] {
      assert later[m] == names[i + 1 + m];
      DistinctAt(names, i + 1 + m, i);
    }
  }

  /** With distinct names, the second loop binds the `j`-th name to its checker's
      default. */
  lemma {:induction false} DefaultsValue(entries: seq<Entry>, i: nat, acc: map<string, Value>, j: nat)
    requires Distinct(NamesOf(entries)) && i <= j < |entries|
    decreases |entries| - i
    ensures var r := Defaults(entries, i, acc);
            r.Ok? ==> entries[j].0 in r.value && Ok(r.value[entries[j].0]) == GetDefaultValue(entries[j].1)
  {
    if HasDefaultValue(entries[i].1) {
      var (name, c) := entries[i];
      var acc' := acc[name := GetDefaultValue(c).value];
      if i == j {
        LaterNamesDiffer(entries, i);
        DefaultsKeeps(entries, i + 1, acc', name);
      } else {
        DefaultsValue(entries, i + 1, acc', j);
      }
    }
  }

  /** How a checker converts what it is handed: its `getValue`, which every checker
      the feeder holds accepts. */
  function Convert(c: Checker, v: Value): (r: Result<Value, ArgError>)
    ensures Valid(c) ==> r == GetValue(c, v)
  {
    if Valid(c) then GetValue(c, v) else Err(ValueError)
  }

  /** The first loop of `checkArgs`, from checker `i` with `rest` the tokens not yet
      consumed (`argsList[dataIndex:]`), each checker converting with `conv`: a checker
      with a minimum stops the loop when no token remains and fails when some but too
      few remain; a checker without a maximum takes every remaining token; any other
      takes `maximumSize` tokens. */
  function Bind(conv: Conv, entries: seq<Entry>, rest: seq<Value>, i: nat, acc: map<string, Value>)
    : (r: Result<map<string, Value>, ArgError>)
    requires i <= |entries|
    decreases |entries| - i
  {
    if i == |entries| then Ok(acc)
    else
      var (name, c) := entries[i];
      if c.minSize.Some? && |rest| < c.minSize.value then
        if |rest| == 0 then Defaults(entries, i, acc) else Err(ValueError)
      else if c.maxSize.None? then
        match conv(c, ListV(rest))
        case Err(x) => Err(x)
        case Ok(v) => Bind(conv, entries, [], i + 1, acc[name := v])
      else
        match conv(c, BoundedValue(c, rest))
        case Err(x) => Err(x)
        case Ok(v) => Bind(conv, entries, Drop(rest, c.maxSize.value), i + 1, acc[name := v])
  }

  /** A successful binding names every checker from `i` on. */
  lemma {:induction false} BindKeys(conv: Conv, entries: seq<Entry>, rest: seq<Value>, i: nat, acc: map<string, Value>)
    requires i <= |entries|
    decreases |entries| - i
    ensures var r := Bind(conv, entries, rest, i, acc);
            r.Ok? ==> r.value.Keys == acc.Keys + set j | i <= j < |entries| :: entries[j].0
  {
    if i < |entries| {
      var (name, c) := entries[i];
      assert (set j | i <= j < |entries| :: entries[j].0) == {name} + set j | i + 1 <= j < |entries| :: entries[j].0;
      if c.minSize.Some? && |rest| < c.minSize.value {
        DefaultsKeys(entries, i, acc);
      } else if c.maxSize.None? {
        var g := conv(c, ListV(rest));
        if g.Ok? {
          BindKeys(conv, entries, [], i + 1, acc[name := g.value]);
        }
      } else {
        var g := conv(c, BoundedValue(c, rest));
        if g.Ok? {
          BindKeys(conv, entries, Drop(rest, c.maxSize.value), i + 1, acc[name := g.value]);
        }
      }
    }
  }

  /** A successful binding keeps what the map held for a name it does not bind. */
  lemma {:induction false} BindKeeps(conv: Conv, entries: seq<Entry>, rest: seq<Value>, i: nat,
                                     acc: map<string, Value>, k: string)
    requires i <= |entries| && k in acc && k !in NamesOf(entries)[i..]
    decreases |entries| - i
    ensures var r := Bind(conv, entries, rest, i, acc);
            r.Ok? ==> k in r.value && r.value[k] == acc[k]
  {
    if i < |entries| {
      var (name, c) := entries[i];
      assert NamesOf(entries)[i..][0] == name;
      assert NamesOf(entries)[i + 1..] == NamesOf(entries)[i..][1..];
      if c.minSize.Some? && |rest| < c.minSize.value {
        DefaultsKeeps(entries, i, acc, k);
      } else if c.maxSize.None? {
        var g := conv(c, ListV(rest));
        if g.Ok? {
          BindKeeps(conv, entries, [], i + 1, acc[name := g.value], k);
        }
      } else {
        var g := conv(c, BoundedValue(c, rest));
        if g.Ok? {
          BindKeeps(conv, entries, Drop(rest, c.maxSize.value), i + 1, acc[name := g.value], k);
        }
      }
    }
  }

  /** `checkArgs(argsList)`: the binding of every argument name, or the first failure. */
  function CheckArgs(f: Feeder, input: ArgInput): (r: Result<map<string, Value>, ArgError>)
    requires WellFormed(f)
    ensures input.OtherArg? ==> r == Err(ValueError)
    ensures r.Ok? ==> r.value.Keys == set j | 0 <= j < |f.entries| :: f.entries[j].0
  {
    match InputTokens(input)
    case Err(x) => Err(x)
    case Ok(args) =>
      BindKeys(Convert, f.entries, args, 0, map[]);
      Bind(Convert, f.entries, args, 0, map[])
  }

  // ---------------------------------------------------------------------------
  // Usage (argfeeder.py:105-126)
  // ---------------------------------------------------------------------------

  predicate IsSpace(ch: char) {
    ch == ' ' || ch == '\t' || ch == '\n' || ch == '\r' || ch == '\U{000B}' || ch == '\U{000C}'
  }

  function StripEnd(s: string): (r: string)
    ensures |r| <= |s| && r == s[..|r|]
    ensures |r| == 0 || !IsSpace(r[|r| - 1])
  {
    if |s| > 0 && IsSpace(s[|s| - 1]) then StripEnd(s[..|s| - 1]) else s
  }

  function StripStart(s: string): (r: string)
    ensures |r| <= |s| && r == s[|s| - |r|..]
    ensures |r| == 0 || !IsSpace(r[0])
  {
    if |s| > 0 && IsSpace(s[0]) then StripStart(s[1..]) else s
  }

  /** Python's `str.strip()`. */
  function Strip(s: string): string {
    StripStart(StripEnd(s))
  }

  /** The usage piece of one argument: `name:<usage> `. */
  function UsagePiece(e: Entry): string
    requires Valid(e.1)
  {
    e.0 + ":" + Usage(e.1) + " "
  }

  /** The text built so far, and whether `[` has been bracketOpen. */
  datatype UsageText = UsageText(text: string, bracketOpen: bool)

  /** The loop of `usage`: hidden checkers are skipped, and `[` opens before the first
      shown checker that has a default. */
  function UsageLoop(entries: seq<Entry>, bracketOpen: bool): (r: UsageText)
    requires AllValid(entries)
    ensures r.bracketOpen <==> bracketOpen || exists j | 0 <= j < |entries| :: entries[j].1.showInUsage && HasDefaultValue(entries[j].1)
  {
    if |entries| == 0 then UsageText("", bracketOpen)
    else
      var (name, c) := entries[0];
      assert AllValid(entries[1..]);
      if !c.showInUsage then
        var rest := UsageLoop(entries[1..], bracketOpen);
        assert forall j | 1 <= j < |entries| :: entries[j] == entries[1..][j - 1];
        rest
      else
        var open := HasDefaultValue(c) && !bracketOpen;
        var rest := UsageLoop(entries[1..], bracketOpen || open);
        assert forall j | 1 <= j < |entries| :: entries[j] == entries[1..][j - 1];
        UsageText((if open then "[" else "") + UsagePiece(entries[0]) + rest.text, rest.bracketOpen)
  }

  /** `usage()`. */
  function FeederUsage(f: Feeder): (r: string)
    requires WellFormed(f)
    ensures |f.entries| == 0 ==> r == "no args needed"
    ensures (exists j | 0 <= j < |f.entries| :: f.entries[j].1.showInUsage && HasDefaultValue(f.entries[j].1)) ==>
              |r| > 0 && r[|r| - 1] == ']'
  {
    if |f.entries| == 0 then "no args needed"
    else
      var u := UsageLoop(f.entries, false);
      var t := Strip(u.text);
      if u.bracketOpen then
        assert (t + "]")[|t|] == ']';
        t + "]"
      else t
  }

  // ---------------------------------------------------------------------------
  // A reference definition of the usage line
  // ---------------------------------------------------------------------------

  /** The checkers `usage` shows, in order. */
  function Shown(entries: seq<Entry>): (r: seq<Entry>)
    requires AllValid(entries)
    ensures forall j | 0 <= j < |r| :: r[j].1.showInUsage && Valid(r[j].1)
    ensures forall e | e in r :: e in entries
  {
    if |entries| == 0 then []
    else
      assert AllValid(entries[1..]);
      (if entries[0].1.showInUsage then [entries[0]] else []) + Shown(entries[1..])
  }

  function Pieces(entries: seq<Entry>): string
    requires AllValid(entries)
  {
    if |entries| == 0 then "" else UsagePiece(entries[0]) + Pieces(entries[1..])
  }

  /** The position of the first entry that has a default, if any. */
  function FirstDefault(entries: seq<Entry>): (r: Option<nat>)
    ensures r.Some? ==> r.value < |entries| && HasDefaultValue(entries[r.value].1)
                        && forall j | 0 <= j < r.value :: !HasDefaultValue(entries[j].1)
    ensures r.None? ==> forall j | 0 <= j < |entries| :: !HasDefaultValue(entries[j].1)
  {
    if |entries| == 0 then None
    else if HasDefaultValue(entries[0].1) then Some(0)
    else match FirstDefault(entries[1..]) case None => None case Some(k) => Some(k + 1)
  }

  /** The usage line as a reader would describe it: the pieces of the shown checkers,
      with `[` inserted before the first one that has a default and `]` closing the
      line. */
  function ReferenceUsage(entries: seq<Entry>): string
    requires AllValid(entries)
  {
    var shown := Shown(entries);
    match FirstDefault(shown)
    case None => Strip(Pieces(shown))
    case Some(k) => Strip(Pieces(shown[..k]) + "[" + Pieces(shown[k..])) + "]"
  }
}
