/** The argument checkers: each converts the tokens bound to one argument into a value,
    checks it, supplies a default, and renders a usage fragment. */
module ArgCheckers {
  import opened Wrappers
  import Arith

  /** The Python values a checker sees: tokens are strings, defaults and converted values
      may be of the other kinds. */
  datatype Value = NoneV | StrV(s: string) | IntV(i: int) | ListV(items: seq<Value>)

  /** `argInitializationException` (a checker built wrongly) and `argException` (a value
      refused). */
  datatype ArgError = InitError | ValueError

  datatype Kind =
    | AnyKind
    | StringKind(minLen: nat, maxLen: Option<nat>)
    | IntegerKind(bases: seq<nat>, shortType: string, minimum: Option<int>, maximum: Option<int>)
    | DefaultKind
    | ListKind(inner: Checker)

  /** An `ArgChecker` with the state its base class keeps: the token count it takes
      (`None` for unbounded), whether it shows in usage, and the default. */
  datatype Checker = Checker(kind: Kind, minSize: Option<nat>, maxSize: Option<nat>, showInUsage: bool,
                             defaultEnabled: bool, hasDefault: bool, default: Value)

  // ---------------------------------------------------------------------------
  // Sizes (argchecker.py:150-216)
  // ---------------------------------------------------------------------------

  /** `checkSize`: neither bound may be negative, and the maximum may not be below the
      minimum. */
  function CheckSize(minSize: Option<int>, maxSize: Option<int>): (r: Result<(), ArgError>)
    ensures minSize.Some? && minSize.value < 0 ==> r == Err(InitError)
    ensures maxSize.Some? && maxSize.value < 0 ==> r == Err(InitError)
    ensures minSize.Some? && maxSize.Some? && maxSize.value < minSize.value ==> r == Err(InitError)
    ensures r.Err? ==> (minSize.Some? && minSize.value < 0) || (maxSize.Some? && maxSize.value < 0)
                       || (minSize.Some? && maxSize.Some? && maxSize.value < minSize.value)
  {
    if minSize.Some? && minSize.value < 0 then Err(InitError)
    else if maxSize.Some? && maxSize.value < 0 then Err(InitError)
    else if minSize.Some? && maxSize.Some? && maxSize.value < minSize.value then Err(InitError)
    else Ok(())
  }

  function AsNat(o: Option<int>): Option<nat>
    requires o.None? || o.value >= 0
  {
    if o.None? then None else Some(o.value)
  }

  /** `ArgChecker(minimumSize, maximumSize, showInUsage)`: stores the checked sizes, with
      defaults enabled and no default set. */
  function NewAny(minSize: Option<int>, maxSize: Option<int>, showInUsage: bool): (r: Result<Checker, ArgError>)
    ensures r.Ok? <==> CheckSize(minSize, maxSize).Ok?
    ensures r.Ok? ==> r.value.minSize == AsNat(minSize) && r.value.maxSize == AsNat(maxSize)
                      && r.value.showInUsage == showInUsage && !HasDefaultValue(r.value)
                      && Valid(r.value)
  {
    if CheckSize(minSize, maxSize).Err? then Err(InitError)
    else Ok(Checker(AnyKind, AsNat(minSize), AsNat(maxSize), showInUsage, true, false, NoneV))
  }

  /** `isVariableSize`: the checker is fixed-size exactly when both bounds are set and
      equal. */
  function IsVariableSize(c: Checker): (r: bool)
    ensures !r <==> c.minSize.Some? && c.maxSize.Some? && c.minSize.value == c.maxSize.value
  {
    (c.minSize == c.maxSize && c.maxSize.None?) || c.minSize != c.maxSize
  }

  /** `needData`: at least one token is required. */
  function NeedData(c: Checker): (r: bool)
    ensures r ==> c.minSize.Some? && c.minSize.value >= 1
    ensures c.minSize.Some? && c.minSize.value >= 1 ==> r
  {
    c.minSize.Some? && c.minSize.value > 0
  }

  /** The state the constructors establish and the other operations keep. */
  predicate Valid(c: Checker)
    decreases c
  {
    && (c.minSize.Some? && c.maxSize.Some? ==> c.minSize.value <= c.maxSize.value)
    && match c.kind
       case AnyKind => true
       case DefaultKind => true
       case StringKind(lo, hi) => hi.Some? ==> 1 <= hi.value && lo <= hi.value
       case IntegerKind(bases, _, lo, hi) =>
         && (lo.Some? && hi.Some? ==> lo.value <= hi.value)
         && (forall i | 0 <= i < |bases| :: 2 <= bases[i] <= 36)
       case ListKind(inner) =>
         && !inner.kind.ListKind?
         && inner.minSize.Some? && inner.minSize == inner.maxSize && inner.minSize.value > 0
         && Valid(inner)
         && (c.minSize.Some? ==> c.minSize.value % inner.minSize.value == 0)
         && (c.maxSize.Some? ==> c.maxSize.value % inner.minSize.value == 0)
  }

  /** `setSize`, with the list checker's additional rule that both bounds be multiples of
      the inner checker's size (argchecker.py:963-978). */
  function SetSize(c: Checker, minSize: Option<int>, maxSize: Option<int>): (r: Result<Checker, ArgError>)
    requires Valid(c)
    ensures CheckSize(minSize, maxSize).Err? ==> r == Err(InitError)
    ensures r.Ok? ==> r.value == c.(minSize := AsNat(minSize), maxSize := AsNat(maxSize)) && Valid(r.value)
    ensures c.kind.ListKind? && CheckSize(minSize, maxSize).Ok? ==>
              (r.Ok? <==> (minSize.None? || minSize.value % c.kind.inner.minSize.value == 0)
                          && (maxSize.None? || maxSize.value % c.kind.inner.minSize.value == 0))
    ensures !c.kind.ListKind? ==> (r.Ok? <==> CheckSize(minSize, maxSize).Ok?)
  {
    if CheckSize(minSize, maxSize).Err? then Err(InitError)
    else if c.kind.ListKind? && minSize.Some? && minSize.value % c.kind.inner.minSize.value != 0 then Err(InitError)
    else if c.kind.ListKind? && maxSize.Some? && maxSize.value % c.kind.inner.minSize.value != 0 then Err(InitError)
    else Ok(c.(minSize := AsNat(minSize), maxSize := AsNat(maxSize)))
  }

  // ---------------------------------------------------------------------------
  // Defaults (argchecker.py:224-258, 916-927, 1047-1064)
  // ---------------------------------------------------------------------------

  /** `hasDefaultValue`: the base checker needs defaults enabled and one set; a list
      checker also has one when it has no minimum or its inner checker has a default. */
  predicate HasDefaultValue(c: Checker)
    decreases c
  {
    match c.kind
    case ListKind(inner) => c.hasDefault || c.minSize.None? || HasDefaultValue(inner)
    case _ => c.defaultEnabled && c.hasDefault
  }

  /** `getDefaultValue`: raises when there is no default; a list checker without its own
      default yields `[]` without a minimum, else `minimumSize` copies of the inner default. */
  function GetDefaultValue(c: Checker): (r: Result<Value, ArgError>)
    decreases c
    ensures r.Ok? <==> HasDefaultValue(c)
    ensures r.Err? ==> r == Err(ValueError)
    ensures !c.kind.ListKind? && r.Ok? ==> r.value == c.default
    ensures c.kind.ListKind? && r.Ok? && !c.hasDefault && c.minSize.Some? ==>
              r.value.ListV? && |r.value.items| == c.minSize.value
              && forall i | 0 <= i < |r.value.items| :: Ok(r.value.items[i]) == GetDefaultValue(c.kind.inner)
  {
    match c.kind
    case ListKind(inner) =>
      if c.hasDefault then Ok(c.default)
      else if c.minSize.None? then Ok(ListV([]))
      else if HasDefaultValue(inner) then
        var d := GetDefaultValue(inner).value;
        Ok(ListV(seq(c.minSize.value, _ => d)))
      else Err(ValueError)
    case _ => if c.defaultEnabled && c.hasDefault then Ok(c.default) else Err(ValueError)
  }

  /** `setDefaultValue`: refused while defaults are disabled; `None` is stored as is,
      anything else is converted by the checker first. The default-value checker stores
      any value unconverted and ignores the switch. */
  function SetDefaultValue(c: Checker, v: Value): (r: Result<Checker, ArgError>)
    requires Valid(c)
    ensures !c.kind.DefaultKind? && !c.defaultEnabled ==> r == Err(InitError)
    ensures c.kind.DefaultKind? ==> r == Ok(c.(hasDefault := true, default := v))
    ensures r.Ok? ==> r.value.hasDefault && Valid(r.value)
    ensures r.Ok? && c.defaultEnabled ==> HasDefaultValue(r.value)
    ensures r.Ok? ==> r.value == c.(hasDefault := true, default := r.value.default)
    ensures !c.kind.DefaultKind? && c.defaultEnabled ==>
              (v.NoneV? ==> r == Ok(c.(hasDefault := true, default := NoneV)))
              && (!v.NoneV? ==> (r.Ok? <==> GetValue(c, v).Ok?)
                                && (r.Ok? ==> r.value.default == GetValue(c, v).value))
  {
    if c.kind.DefaultKind? then Ok(c.(hasDefault := true, default := v))
    else if !c.defaultEnabled then Err(InitError)
    else if v.NoneV? then Ok(c.(hasDefault := true, default := NoneV))
    else
      match GetValue(c, v)
      case Err(x) => Err(x)
      case Ok(w) => Ok(c.(hasDefault := true, default := w))
  }

  /** `erraseDefaultValue`. */
  function EraseDefaultValue(c: Checker): (r: Checker)
    ensures !r.hasDefault && r.default == NoneV
    ensures !c.kind.ListKind? ==> !HasDefaultValue(r)
    ensures r.kind == c.kind && r.minSize == c.minSize && r.maxSize == c.maxSize && r.defaultEnabled == c.defaultEnabled
  {
    c.(hasDefault := false, default := NoneV)
  }

  /** The shared instances of `defaultInstanceArgChecker` have defaults switched off
      (argchecker.py:100). */
  function DefaultInstance(c: Checker): (r: Checker)
    ensures !c.kind.ListKind? ==> !HasDefaultValue(r)
    ensures Valid(c) ==> Valid(r)
    ensures !c.kind.DefaultKind? && Valid(c) ==> forall v :: SetDefaultValue(r, v) == Err(InitError)
  {
    c.(defaultEnabled := false)
  }

  /** `defaultValueChecker(value)`: takes no token and always yields its value. */
  function NewDefaultValue(v: Value): (r: Checker)
    ensures Valid(r) && !IsVariableSize(r) && !NeedData(r) && !r.showInUsage
    ensures GetDefaultValue(r) == Ok(v)
    ensures forall w :: GetValue(r, w) == Ok(v)
  {
    Checker(DefaultKind, Some(0), Some(0), false, true, true, v)
  }

  // ---------------------------------------------------------------------------
  // Numbers as text
  // ---------------------------------------------------------------------------

  /** The value of a digit in bases up to 36, letters in either case. */
  function DigitValue(ch: char): Option<nat> {
    if '0' <= ch <= '9' then Some(ch as int - '0' as int)
    else if 'a' <= ch <= 'z' then Some(ch as int - 'a' as int + 10)
    else if 'A' <= ch <= 'Z' then Some(ch as int - 'A' as int + 10)
    else None
  }

  function DigitChar(d: nat): char
    requires d < 36
  {
    if d < 10 then ('0' as int + d) as char else ('a' as int + d - 10) as char
  }

  /** The digits of `s` read in base `b`; `None` for an empty string or a character that
      is not a digit of that base. */
  function ParseDigits(s: string, b: nat): Option<nat>
  {
    if |s| == 0 then None
    else
      var d := DigitValue(Last(s));
      if d.None? || d.value >= b then None
      else if |s| == 1 then Some(d.value)
      else
        match ParseDigits(DropLast(s), b)
        case None => None
        case Some(v) => Some(v * b + d.value)
  }

  /** The digits of `n` in base `b`, most significant first, no leading zero. */
  function RenderDigits(n: nat, b: nat): (r: string)
    requires 2 <= b <= 36
    ensures |r| > 0
    decreases n
  {
    if n < b then [DigitChar(n)] else RenderDigits(n / b, b) + [DigitChar(n % b)]
  }

  lemma DigitRoundTrip(d: nat, b: nat)
    requires d < b <= 36
    ensures DigitValue(DigitChar(d)) == Some(d)
  {
  }

  /** Appending a digit to a numeral multiplies its value by the base and adds the digit. */
  lemma ParseDigitsSnoc(front: string, ch: char, b: nat, v: nat, d: nat)
    requires |front| > 0 && ParseDigits(front, b) == Some(v)
    requires DigitValue(ch) == Some(d) && d < b
    ensures ParseDigits(front + [ch], b) == Some(v * b + d)
  {
    var s := front + [ch];
    assert DropLast(s) == front;
    assert Last(s) == ch;
  }

  /** Rendering a natural number and reading it back in the same base yields it. */
  lemma {:induction false} ParseRenderDigits(n: nat, b: nat)
    requires 2 <= b <= 36
    ensures ParseDigits(RenderDigits(n, b), b) == Some(n)
    decreases n
  {
    if n < b {
      DigitRoundTrip(n, b);
    } else {
      var q, d := n / b, n % b;
      Arith.DivModIdentity(n, b);
      Arith.DivShrinks(n, b);
      DigitRoundTrip(d, b);
      ParseRenderDigits(q, b);
      ParseDigitsSnoc(RenderDigits(q, b), DigitChar(d), b, q, d);
      assert RenderDigits(n, b) == RenderDigits(q, b) + [DigitChar(d)];
    }
  }

  /** `int(s, b)` for the strings the model accepts: an optional sign, the base's
      optional `0x`/`0o`/`0b` prefix, then digits of the base. */
  function ParseInt(s: string, b: nat): (r: Option<int>)
  {
    var neg := |s| > 0 && s[0] == '-';
    var body := if |s| > 0 && (s[0] == '-' || s[0] == '+') then s[1..] else s;
    var prefixed := |body| > 2 && body[0] == '0'
                    && ((b == 16 && body[1] in "xX") || (b == 8 && body[1] in "oO") || (b == 2 && body[1] in "bB"));
    var digits := if prefixed then body[2..] else body;
    match ParseDigits(digits, b)
    case None => None
    case Some(v) =>
      var n: int := if neg then -(v as int) else v;
      Some(n)
  }

  /** `str(n)` for an integer. */
  function IntToString(n: int): (r: string)
    ensures |r| > 0
  {
    if n < 0 then "-" + RenderDigits(-n, 10) else RenderDigits(n, 10)
  }

  /** Python's `str(n)` is read back by `int(_, 10)`. */
  lemma IntToStringRoundTrip(n: int)
    ensures ParseInt(IntToString(n), 10) == Some(n)
  {
    if n < 0 {
      ParseRenderDigits(-n, 10);
      assert ("-" + RenderDigits(-n, 10))[1..] == RenderDigits(-n, 10);
    } else {
      ParseRenderDigits(n, 10);
      var r := RenderDigits(n, 10);
      assert r[0] != '-' && r[0] != '+' by {
        FirstDigitIsDigit(n, 10);
      }
    }
  }

  lemma {:induction false} FirstDigitIsDigit(n: nat, b: nat)
    requires 2 <= b <= 36
    ensures DigitValue(RenderDigits(n, b)[0]).Some?
    decreases n
  {
    if n < b {
      DigitRoundTrip(n, b);
    } else {
      FirstDigitIsDigit(n / b, b);
      assert RenderDigits(n, b)[0] == RenderDigits(n / b, b)[0];
    }
  }

  // ---------------------------------------------------------------------------
  // Value conversion (argchecker.py:222, 360-397, 430-492, 925-927, 980-1045)
  // ---------------------------------------------------------------------------

  /** Python's `repr` of a value inside a list (string escapes are not modelled). */
  function Repr(v: Value): string
    decreases v, 1
  {
    match v
    case NoneV => "None"
    case StrV(s) => "'" + s + "'"
    case IntV(i) => IntToString(i)
    case ListV(items) => "[" + JoinRepr(items) + "]"
  }

  function JoinRepr(items: seq<Value>): string
    decreases items, 0
  {
    if |items| == 0 then ""
    else if |items| == 1 then Repr(items[0])
    else Repr(items[0]) + ", " + JoinRepr(items[1..])
  }

  /** Python's `str` of a value. */
  function PyStr(v: Value): string {
    match v
    case StrV(s) => s
    case _ => Repr(v)
  }

  /** The first base of `bases` in which `s` parses, with the value read. */
  function FirstParse(s: string, bases: seq<nat>): (r: Option<(nat, int)>)
    ensures r.Some? ==> r.value.0 < |bases| && ParseInt(s, bases[r.value.0]) == Some(r.value.1)
                        && forall j | 0 <= j < r.value.0 :: ParseInt(s, bases[j]).None?
    ensures r.None? <==> forall j | 0 <= j < |bases| :: ParseInt(s, bases[j]).None?
  {
    if |bases| == 0 then None
    else if ParseInt(s, bases[0]).Some? then Some((0, ParseInt(s, bases[0]).value))
    else
      match FirstParse(s, bases[1..])
      case None => None
      case Some(p) => Some((p.0 + 1, p.1))
  }

  /** `stringArgChecker.getValue`: refuses None, converts anything else with `str`, and
      bounds the length. */
  function StringValue(minLen: nat, maxLen: Option<nat>, v: Value): (r: Result<Value, ArgError>)
    ensures r.Ok? <==> !v.NoneV? && minLen <= |PyStr(v)| && (maxLen.None? || |PyStr(v)| <= maxLen.value)
    ensures r.Ok? ==> r.value == StrV(PyStr(v))
    ensures r.Err? ==> r == Err(ValueError)
    ensures v.StrV? && r.Ok? ==> r.value == v
  {
    if v.NoneV? then Err(ValueError)
    else
      var s := PyStr(v);
      if |s| < minLen then Err(ValueError)
      else if maxLen.Some? && |s| > maxLen.value then Err(ValueError)
      else Ok(StrV(s))
  }

  /** `IntegerArgChecker.getValue`: an integer is kept, a string is read in the first
      base that accepts it, anything else is refused; the result must lie within the
      bounds that are set. */
  function IntegerValue(bases: seq<nat>, minimum: Option<int>, maximum: Option<int>, v: Value): (r: Result<Value, ArgError>)
    ensures r.Err? ==> r == Err(ValueError)
    ensures r.Ok? ==> r.value.IntV?
                      && (minimum.Some? ==> minimum.value <= r.value.i)
                      && (maximum.Some? ==> r.value.i <= maximum.value)
    ensures v.IntV? ==> (r.Ok? <==> (minimum.None? || minimum.value <= v.i) && (maximum.None? || v.i <= maximum.value))
    ensures v.IntV? && r.Ok? ==> r.value == v
    ensures v.StrV? && r.Ok? ==> exists k | 0 <= k < |bases| :: ParseInt(v.s, bases[k]) == Some(r.value.i)
                                   && forall j | 0 <= j < k :: ParseInt(v.s, bases[j]).None?
    ensures v.StrV? && (forall j | 0 <= j < |bases| :: ParseInt(v.s, bases[j]).None?) ==> r.Err?
    ensures v.StrV? && FirstParse(v.s, bases).Some? ==>
              var n := FirstParse(v.s, bases).value.1;
              && (r.Ok? <==> (minimum.None? || minimum.value <= n) && (maximum.None? || n <= maximum.value))
              && (r.Ok? ==> r.value == IntV(n))
    ensures v.NoneV? || v.ListV? ==> r.Err?
  {
    var casted: Option<int> :=
      match v
      case IntV(i) => Some(i)
      case StrV(s) => (match FirstParse(s, bases) case None => None case Some(p) => Some(p.1))
      case _ => None;
    if casted.None? then Err(ValueError)
    else if minimum.Some? && casted.value < minimum.value then Err(ValueError)
    else if maximum.Some? && casted.value > maximum.value then Err(ValueError)
    else Ok(IntV(casted.value))
  }

  /** `getValue` of each checker kind. */
  function GetValue(c: Checker, v: Value): (r: Result<Value, ArgError>)
    requires Valid(c)
    decreases c, 0, 0
    ensures c.kind.AnyKind? ==> r == Ok(v)
    ensures c.kind.DefaultKind? ==> r == GetDefaultValue(c)
  {
    match c.kind
    case AnyKind => Ok(v)
    case StringKind(lo, hi) => StringValue(lo, hi, v)
    case IntegerKind(bases, _, lo, hi) => IntegerValue(bases, lo, hi, v)
    case DefaultKind => GetDefaultValue(c)
    case ListKind(inner) => ListValue(inner, c.minSize, c.maxSize, v)
  }

  /** The tokens a list checker works on: a list as is, any other value as a one-element
      tuple (a Python 2 `str` has no `__iter__`). */
  function Tokens(v: Value): seq<Value> {
    if v.ListV? then v.items else [v]
  }

  /** One chunk handed to the inner checker: the bare token for a one-token checker,
      else the list of `k` tokens. */
  function Piece(p: seq<Value>, k: nat): Value
    requires |p| == k > 0
  {
    if k == 1 then p[0] else ListV(p)
  }

  /** The chunks of `range(0, len(s), k)`: `len(s) / k` pieces of `k` tokens each. */
  function Chunks(s: seq<Value>, k: nat): (r: seq<Value>)
    requires k > 0
    decreases |s|
    ensures |r| == |s| / k
  {
    if |s| < k then Arith.DivSmall(|s|, k); []
    else Arith.DivStep(|s|, k); [Piece(s[..k], k)] + Chunks(s[k..], k)
  }

  /** The items of the chunks of a multi-token checker, in order. */
  function Flatten(chunks: seq<Value>): seq<Value> {
    if |chunks| == 0 then []
    else (if chunks[0].ListV? then chunks[0].items else [chunks[0]]) + Flatten(chunks[1..])
  }

  /** Chunking hands every token to the inner checker once, in order: a one-token checker
      gets the tokens themselves, a wider one gets lists whose concatenation is the input. */
  lemma {:induction false} ChunksCover(s: seq<Value>, k: nat)
    requires k > 0 && |s| % k == 0
    ensures k == 1 ==> Chunks(s, k) == s
    ensures k > 1 ==> Flatten(Chunks(s, k)) == s
    ensures forall i | 0 <= i < |Chunks(s, k)| :: k > 1 ==> Chunks(s, k)[i].ListV? && |Chunks(s, k)[i].items| == k
    decreases |s|
  {
    if |s| >= k {
      Arith.DivStep(|s|, k);
      ChunksCover(s[k..], k);
      assert s == s[..k] + s[k..];
    } else {
      Arith.DivSmall(|s|, k);
    }
  }

  /** The inner checker applied to every chunk, stopping at the first refusal. */
  function ConvertChunks(inner: Checker, chunks: seq<Value>): (r: Result<seq<Value>, ArgError>)
    requires Valid(inner)
    decreases inner, 1, |chunks|
    ensures r.Ok? <==> forall i | 0 <= i < |chunks| :: GetValue(inner, chunks[i]).Ok?
    ensures r.Ok? ==> |r.value| == |chunks|
                      && forall i | 0 <= i < |chunks| :: Ok(r.value[i]) == GetValue(inner, chunks[i])
  {
    if |chunks| == 0 then Ok([])
    else
      match GetValue(inner, chunks[0])
      case Err(x) => Err(x)
      case Ok(w) =>
        match ConvertChunks(inner, chunks[1..])
        case Err(x) => Err(x)
        case Ok(rest) => Ok([w] + rest)
  }

  /** How many tokens a list checker reads: all of them, at most `maxSize`. */
  function ReadCount(maxSize: Option<nat>, n: nat): (r: nat)
    ensures r <= n && (maxSize.Some? ==> r <= maxSize.value)
    ensures maxSize.None? || n <= maxSize.value ==> r == n
    ensures maxSize.Some? && maxSize.value <= n ==> r == maxSize.value
  {
    if maxSize.Some? && maxSize.value < n then maxSize.value else n
  }

  /** How many defaults a short list is padded with, as written: `minimumSize - len / k`
      (argchecker.py:999-1000); zero when the list is long enough. */
  function PadCount(minSize: Option<nat>, n: nat, k: nat): (r: nat)
    requires k > 0
    ensures minSize.None? || n >= minSize.value ==> r == 0
    ensures minSize.Some? && n < minSize.value ==> r + n / k == minSize.value
  {
    if minSize.Some? && n < minSize.value then Arith.DivLe(n, k); minSize.value - n / k else 0
  }

  /** The chunks a list checker converts. */
  function ReadChunks(maxSize: Option<nat>, vals: seq<Value>, k: nat): seq<Value>
    requires k > 0
  {
    Chunks(vals[..ReadCount(maxSize, |vals|)], k)
  }

  /** `listArgChecker.getValue`: the token count must be a multiple of the inner size;
      at most `maxSize` tokens are read, in chunks of the inner size; a list shorter than
      `minSize` is padded with the inner default, or refused when there is none. */
  function ListValue(inner: Checker, minSize: Option<nat>, maxSize: Option<nat>, v: Value): (r: Result<Value, ArgError>)
    requires Valid(inner) && inner.minSize.Some? && inner.minSize.value > 0
    decreases inner, 2, 0
    ensures
      var vals := Tokens(v);
      var k := inner.minSize.value;
      var pad := PadCount(minSize, |vals|, k);
      var chunks := ReadChunks(maxSize, vals, k);
      && (|vals| % k != 0 ==> r == Err(ValueError))
      && (|vals| % k == 0 && pad > 0 && !HasDefaultValue(inner) ==> r == Err(ValueError))
      && (r.Ok? <==> |vals| % k == 0 && (pad == 0 || HasDefaultValue(inner))
                     && forall i | 0 <= i < |chunks| :: GetValue(inner, chunks[i]).Ok?)
      && (r.Ok? ==> r.value.ListV? && |r.value.items| == |chunks| + pad
                    && (forall i | 0 <= i < |chunks| :: Ok(r.value.items[i]) == GetValue(inner, chunks[i]))
                    && (forall i | |chunks| <= i < |chunks| + pad :: Ok(r.value.items[i]) == GetDefaultValue(inner)))
  {
    var vals := Tokens(v);
    var k := inner.minSize.value;
    if |vals| % k != 0 then Err(ValueError)
    else
      var pad := PadCount(minSize, |vals|, k);
      if pad > 0 && !HasDefaultValue(inner) then Err(ValueError)
      else
        var addAtEnd := if pad > 0 then seq(pad, _ => GetDefaultValue(inner).value) else [];
        match ConvertChunks(inner, ReadChunks(maxSize, vals, k))
        case Err(x) => Err(x)
        case Ok(ret) => Ok(ListV(ret + addAtEnd))
  }

  // ---------------------------------------------------------------------------
  // Constructors (argchecker.py:153-160, 300-358, 402-428, 503-555, 929-961)
  // ---------------------------------------------------------------------------

  /** `stringArgChecker(minimumStringSize, maximumStringSize)`: one token; a negative
      minimum, a maximum below 1 or below the minimum is refused. */
  function NewString(minLen: int, maxLen: Option<int>): (r: Result<Checker, ArgError>)
    ensures r.Ok? <==> minLen >= 0 && (maxLen.None? || (maxLen.value >= 1 && maxLen.value >= minLen))
    ensures r.Ok? ==> Valid(r.value) && r.value.kind == StringKind(minLen, AsNat(maxLen))
                      && r.value.minSize == Some(1) == r.value.maxSize && !HasDefaultValue(r.value)
  {
    if minLen < 0 then Err(InitError)
    else if maxLen.Some? && maxLen.value < 1 then Err(InitError)
    else if maxLen.Some? && maxLen.value < minLen then Err(InitError)
    else Ok(Checker(StringKind(minLen, AsNat(maxLen)), Some(1), Some(1), true, true, false, NoneV))
  }

  const DefaultBases: seq<nat> := [10, 16, 2]

  /** `IntegerArgChecker` with the bases and short type name its subclass set; the
      `showInUsage` argument is not passed on, so integer checkers always show. */
  function IntegerWith(bases: seq<nat>, shortType: string, minimum: Option<int>, maximum: Option<int>): (r: Result<Checker, ArgError>)
    requires forall i | 0 <= i < |bases| :: 2 <= bases[i] <= 36
    ensures r.Ok? <==> minimum.None? || maximum.None? || minimum.value <= maximum.value
    ensures r.Ok? ==> Valid(r.value) && r.value.kind == IntegerKind(bases, shortType, minimum, maximum)
                      && r.value.minSize == Some(1) == r.value.maxSize && r.value.showInUsage
  {
    if minimum.Some? && maximum.Some? && maximum.value < minimum.value then Err(InitError)
    else Ok(Checker(IntegerKind(bases, shortType, minimum, maximum), Some(1), Some(1), true, true, false, NoneV))
  }

  function NewInteger(minimum: Option<int>, maximum: Option<int>): (r: Result<Checker, ArgError>)
    ensures r.Ok? <==> minimum.None? || maximum.None? || minimum.value <= maximum.value
    ensures r.Ok? ==> r.value.kind.IntegerKind? && r.value.kind.bases == [10, 16, 2] && Valid(r.value)
  {
    IntegerWith(DefaultBases, "int", minimum, maximum)
  }

  function NewHexa(minimum: Option<int>, maximum: Option<int>): (r: Result<Checker, ArgError>)
    ensures r.Ok? <==> minimum.None? || maximum.None? || minimum.value <= maximum.value
    ensures r.Ok? ==> r.value.kind.IntegerKind? && r.value.kind.bases == [16] && Valid(r.value)
  {
    IntegerWith([16], "hex", minimum, maximum)
  }

  function NewBinary(minimum: Option<int>, maximum: Option<int>): (r: Result<Checker, ArgError>)
    ensures r.Ok? <==> minimum.None? || maximum.None? || minimum.value <= maximum.value
    ensures r.Ok? ==> r.value.kind.IntegerKind? && r.value.kind.bases == [2] && Valid(r.value)
  {
    IntegerWith([2], "bin", minimum, maximum)
  }

  function Pow2(n: nat): (r: nat)
    ensures r >= 1
  {
    if n == 0 then 1 else 2 * Pow2(n - 1)
  }

  /** `log(n, 2) % 1 == 0`, computed exactly. */
  predicate IsPowerOfTwo(n: nat) {
    n >= 1 && (n == 1 || (n % 2 == 0 && IsPowerOfTwo(n / 2)))
  }

  lemma {:induction false} PowerOfTwoMeansPow2(n: nat)
    ensures IsPowerOfTwo(n) <==> exists k: nat :: Pow2(k) == n
  {
    if IsPowerOfTwo(n) {
      if n == 1 {
        assert Pow2(0) == n;
      } else {
        PowerOfTwoMeansPow2(n / 2);
        var k: nat :| Pow2(k) == n / 2;
        assert Pow2(k + 1) == n;
      }
    }
    if exists k: nat :: Pow2(k) == n {
      var k: nat :| Pow2(k) == n;
      if k > 0 {
        assert Pow2(k - 1) == n / 2;
        PowerOfTwoMeansPow2(n / 2);
      }
    }
  }

  /** `LimitedInteger(amountOfBit, signed)`: an integer checker over exactly the values
      of an `amountOfBit`-bit word; the width must be a power of two of at least 8. */
  function NewLimitedInteger(bits: int, signed: bool): (r: Result<Checker, ArgError>)
    ensures r.Ok? <==> bits >= 8 && IsPowerOfTwo(bits)
    ensures r.Ok? ==> r.value.kind.IntegerKind? && Valid(r.value)
                      && r.value.kind.minimum.Some? && r.value.kind.maximum.Some?
                      && r.value.kind.maximum.value - r.value.kind.minimum.value + 1 == Pow2(bits)
                      && (signed ==> r.value.kind.minimum.value == -(Pow2(bits - 1) as int) && r.value.kind.maximum.value == Pow2(bits - 1) - 1)
                      && (!signed ==> r.value.kind.minimum.value == 0 && r.value.kind.maximum.value == Pow2(bits) - 1)
  {
    if bits < 8 then Err(InitError)
    else if !IsPowerOfTwo(bits) then Err(InitError)
    else
      var half: int := Pow2(bits - 1);
      if signed then IntegerWith(DefaultBases, "int", Some(-half), Some(half - 1))
      else IntegerWith(DefaultBases, "int", Some(0), Some(2 * half - 1))
  }

  /** `listArgChecker(checker, minimumSize, maximumSize)`: the inner checker must be a
      non-list checker of a fixed size above zero, and both bounds multiples of it. */
  function NewList(inner: Checker, minSize: Option<int>, maxSize: Option<int>): (r: Result<Checker, ArgError>)
    requires Valid(inner)
    ensures inner.kind.ListKind? || IsVariableSize(inner) || inner.minSize == Some(0) ==> r == Err(InitError)
    ensures r.Ok? <==> !inner.kind.ListKind? && !IsVariableSize(inner) && inner.minSize != Some(0)
                       && CheckSize(minSize, maxSize).Ok?
                       && (minSize.None? || minSize.value % inner.minSize.value == 0)
                       && (maxSize.None? || maxSize.value % inner.minSize.value == 0)
    ensures r.Ok? ==> Valid(r.value) && r.value.kind == ListKind(inner)
                      && r.value.minSize == AsNat(minSize) && r.value.maxSize == AsNat(maxSize)
  {
    if inner.kind.ListKind? then Err(InitError)
    else if inner.minSize != inner.maxSize || inner.minSize.None? || inner.minSize.value == 0 then Err(InitError)
    else
      var c := Checker(ListKind(inner), None, None, true, true, false, NoneV);
      SetSize(c, minSize, maxSize)
  }

  // ---------------------------------------------------------------------------
  // Usage (argchecker.py:219-220, 399-400, 494-503, 1066-1113)
  // ---------------------------------------------------------------------------

  function IntegerUsage(shortType: string, minimum: Option<int>, maximum: Option<int>): (r: string)
    ensures |r| >= 2 + |shortType| && r[0] == '<' && r[|r| - 1] == '>'
    ensures r[1..1 + |shortType|] == shortType
  {
    if minimum.Some? then
      if maximum.Some? then "<" + shortType + " " + IntToString(minimum.value) + "-" + IntToString(maximum.value) + ">"
      else "<" + shortType + " " + IntToString(minimum.value) + "-*>"
    else if maximum.Some? then "<" + shortType + " *-" + IntToString(maximum.value) + ">"
    else "<" + shortType + ">"
  }

  /** The mandatory part of a list usage: `minimumSize` numbered copies of the inner usage. */
  function ListMandatory(u: string, minSize: nat): (r: string)
    ensures |r| > |u| && r[..|u|] == u
  {
    if minSize == 1 then u + "0"
    else if minSize == 2 then u + "0 " + u + "1"
    else u + "0 ... " + u + IntToString(minSize - 1)
  }

  function ListUsage(u: string, minSize: Option<nat>, maxSize: Option<nat>): (r: string)
    requires minSize.Some? && maxSize.Some? ==> minSize.value <= maxSize.value
    ensures minSize == Some(1) && maxSize == Some(1) ==> r == u
    ensures minSize.None? && maxSize.None? ==> r == "(" + u + " ... " + u + ")"
    ensures minSize.Some? && minSize.value >= 1 && minSize != maxSize ==> |r| > |u| && r[..|u|] == u
    ensures minSize.Some? && minSize.value >= 1 && maxSize == minSize && minSize.value > 1 ==> r == ListMandatory(u, minSize.value)
  {
    if minSize.None? then
      if maxSize.None? then "(" + u + " ... " + u + ")"
      else if maxSize.value == 1 then "(" + u + ")"
      else if maxSize.value == 2 then "(" + u + "0 " + u + "1)"
      else "(" + u + "0 ... " + u + IntToString(maxSize.value - 1) + ")"
    else if minSize.value == 0 && maxSize == Some(1) then "(" + u + ")"
    else if minSize.value == 1 && maxSize == Some(1) then u
    else ListOptional(ListMandatory(u, minSize.value), u, minSize.value, maxSize)
  }

  /** The optional tail of a list usage after its mandatory part `part1`. */
  function ListOptional(part1: string, u: string, minSize: nat, maxSize: Option<nat>): (r: string)
    requires maxSize.Some? ==> minSize <= maxSize.value
    ensures |r| >= |part1| && r[..|part1|] == part1
  {
    if maxSize.None? then part1 + " (... " + u + ")"
    else
      var spare := maxSize.value - minSize;
      if spare == 0 then part1
      else if spare == 1 then part1 + " (" + u + IntToString(maxSize.value - 1) + ")"
      else if spare == 2 then part1 + " (" + u + IntToString(maxSize.value - 2) + u + IntToString(maxSize.value - 1) + ")"
      else part1 + " (" + u + IntToString(minSize) + " ... " + u + IntToString(maxSize.value - 1) + ")"
  }

  /** `getUsage` of each checker kind. */
  function Usage(c: Checker): (r: string)
    requires Valid(c)
    decreases c
    ensures c.kind.StringKind? ==> r == "<string>"
    ensures c.kind.AnyKind? || c.kind.DefaultKind? ==> r == "<any>"
  {
    match c.kind
    case AnyKind => "<any>"
    case DefaultKind => "<any>"
    case StringKind(_, _) => "<string>"
    case IntegerKind(_, shortType, lo, hi) => IntegerUsage(shortType, lo, hi)
    case ListKind(inner) => ListUsage(Usage(inner), c.minSize, c.maxSize)
  }
}
