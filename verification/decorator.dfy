/** The `shellMethod` decorator: pairs the parameters of a function with the checkers
    given by keyword, fills the gaps with the function's own default values, and
    refuses the combinations the feeder could not bind. A function is seen through
    its signature only: parameter names, default values, and whether it is a bound
    method. */
module Decorators {
  import opened Wrappers
  import opened ArgCheckers
  import opened ArgFeeders
  import opened Seqs

  /** `decoratorException`, or a checker refusing the function's default value. */
  datatype DecoratorError = DecoratorFailure | CheckerFailure(e: ArgError) | UndefinedName

  datatype FunKind = PlainFunction | BoundMethod | NotAFunction

  /** What `inspect.getargspec` reports, and whether the function is a method; a
      missing `defaults` tuple is the empty sequence. */
  datatype Signature = Signature(args: seq<string>, defaults: seq<Value>, isMethod: bool)

  /** Python guarantees distinct parameter names and at most one default per
      parameter. */
  predicate SigOk(sig: Signature) {
    && Distinct(sig.args)
    && |sig.defaults| <= |sig.args|
  }

  /** `funAnalyser(fun)`: only a function or a method can be analysed. */
  function NewAnalyser(kind: FunKind, args: seq<string>, defaults: seq<Value>): (r: Result<Signature, DecoratorError>)
    ensures r.Err? <==> kind.NotAFunction?
    ensures r.Ok? ==> r.value.args == args && r.value.defaults == defaults && (r.value.isMethod <==> kind.BoundMethod?)
  {
    match kind
    case NotAFunction => Err(DecoratorFailure)
    case PlainFunction => Ok(Signature(args, defaults, false))
    case BoundMethod => Ok(Signature(args, defaults, true))
  }

  /** The parameters Python gives a default: the last `len(defaults)` of them. */
  function DefaultedParams(sig: Signature): seq<string>
    requires SigOk(sig)
  {
    sig.args[|sig.args| - |sig.defaults|..]
  }

  /** `has_default(a)`: an unknown name raises; otherwise `a` has a default when its
      first position is past the parameters without one. */
  function HasDefault(sig: Signature, a: string): (r: Result<bool, DecoratorError>)
    requires SigOk(sig)
    ensures r.Err? <==> a !in sig.args
    ensures r.Err? ==> r == Err(DecoratorFailure)
  {
    if a !in sig.args then Err(DecoratorFailure)
    else
      var i := IndexOf(sig.args, a).value;
      Ok(!(i < |sig.args| - |sig.defaults|))
  }

  /** `get_default(a)`: the default of `a`, counted from the end of the parameter list;
      an unknown name or one without a default raises. */
  function GetDefault(sig: Signature, a: string): (r: Result<Value, DecoratorError>)
    requires SigOk(sig)
    ensures r.Ok? <==> HasDefault(sig, a) == Ok(true)
    ensures r.Err? ==> r == Err(DecoratorFailure)
  {
    if a !in sig.args then Err(DecoratorFailure)
    else
      var i := IndexOf(sig.args, a).value;
      if !(i < |sig.args| - |sig.defaults|) then Ok(sig.defaults[i - (|sig.args| - |sig.defaults|)])
      else Err(DecoratorFailure)
  }

  /** `setCheckerDefault(a, checker)`: a parameter's default becomes the checker's. */
  function SetCheckerDefault(sig: Signature, a: string, c: Checker): (r: Result<Checker, DecoratorError>)
    requires SigOk(sig) && a in sig.args && Valid(c)
    ensures HasDefault(sig, a) == Ok(false) ==> r == Ok(c)
    ensures HasDefault(sig, a) == Ok(true) ==>
              r == match SetDefaultValue(c, GetDefault(sig, a).value)
                   case Ok(d) => Ok(d)
                   case Err(x) => Err(CheckerFailure(x))
    ensures r.Ok? ==> Valid(r.value) && r.value.minSize == c.minSize && r.value.maxSize == c.maxSize
  {
    if HasDefault(sig, a).value then
      match SetDefaultValue(c, GetDefault(sig, a).value)
      case Ok(d) => Ok(d)
      case Err(x) => Err(CheckerFailure(x))
    else Ok(c)
  }

  /** A keyword value handed to `shellMethod`. */
  datatype KwArg = IsChecker(c: Checker) | NotChecker

  /** `shellMethod(**argList)`: every keyword value must be a checker. */
  function CheckKwArgs(kw: map<string, KwArg>): (r: Result<map<string, Checker>, DecoratorError>)
    ensures r.Ok? <==> forall k | k in kw :: kw[k].IsChecker?
    ensures r.Ok? ==> r.value.Keys == kw.Keys && forall k | k in kw :: r.value[k] == kw[k].c
    ensures r.Err? ==> r == Err(DecoratorFailure)
  {
    if forall k | k in kw :: kw[k].IsChecker? then Ok(map k | k in kw :: kw[k].c)
    else Err(DecoratorFailure)
  }

  /** The parameters that receive a checker: all of them but a method's leading `self`. */
  function Params(sig: Signature): (r: seq<string>)
    ensures sig.isMethod && |sig.args| > 0 && sig.args[0] == "self" ==> r == sig.args[1..]
    ensures !(sig.isMethod && |sig.args| > 0 && sig.args[0] == "self") ==> r == sig.args
  {
    if sig.isMethod && |sig.args| > 0 && sig.args[0] == "self" then sig.args[1..] else sig.args
  }

  /** The entries bound so far and the keyword checkers not yet claimed. */
  datatype Binding = Binding(entries: seq<Entry>, remaining: map<string, Checker>)

  /** The checker the previous entry leaves no room after: one of unbounded size. */
  predicate Unbounded(c: Checker) {
    IsVariableSize(c) && c.maxSize.None?
  }

  /** One turn of the decorator's loop: the checker parameter `name` gets, after the
      entries `acc`, from the keyword checkers still held. A parameter named by a keyword
      takes that checker (which may not need data right after an unbounded one) with the
      parameter's default set on it; any other parameter needs a default and gets a
      default-value checker. With `asWritten`, the order check reads the previous entry
      from the undefined name `a` and raises `NameError` as soon as it runs. */
  function BindStep(sig: Signature, name: string, acc: seq<Entry>, remaining: map<string, Checker>, asWritten: bool)
    : (r: Result<Checker, DecoratorError>)
    requires SigOk(sig) && name in sig.args
    requires forall k | k in remaining :: Valid(remaining[k])
  {
    if name in remaining then
      var c := remaining[name];
      if NeedData(c) && |acc| > 0 && asWritten then Err(UndefinedName)
      else if NeedData(c) && |acc| > 0 && Unbounded(Last(acc).1) then Err(DecoratorFailure)
      else SetCheckerDefault(sig, name, c)
    else if HasDefault(sig, name).value then Ok(NewDefaultValue(GetDefault(sig, name).value))
    else Err(DecoratorFailure)
  }

  /** The loop of the decorator from parameter `p` on: each turn appends the parameter
      with the checker `BindStep` gives it and gives up its keyword checker. */
  function BindParams(sig: Signature, params: seq<string>, p: nat, acc: seq<Entry>, remaining: map<string, Checker>,
                      asWritten: bool)
    : (r: Result<Binding, DecoratorError>)
    requires SigOk(sig) && p <= |params|
    requires forall j | 0 <= j < |params| :: params[j] in sig.args
    requires forall k | k in remaining :: Valid(remaining[k])
    decreases |params| - p
  {
    if p == |params| then Ok(Binding(acc, remaining))
    else match BindStep(sig, params[p], acc, remaining, asWritten)
      case Err(x) => Err(x)
      case Ok(c) => BindParams(sig, params, p + 1, acc + [(params[p], c)], remaining - {params[p]}, asWritten)
  }

  /** Applying the decorator to a function: refused when the function already carries
      a feeder, when a parameter ends up without a checker, or when a keyword names no
      parameter. */
  function Decorate(sig: Signature, decorated: bool, kw: map<string, Checker>): (r: Result<Feeder, DecoratorError>)
    requires SigOk(sig) && forall k | k in kw :: Valid(kw[k])
    ensures decorated ==> r == Err(DecoratorFailure)
  {
    if decorated then Err(DecoratorFailure)
    else
      var params := Params(sig);
      match BindParams(sig, params, 0, [], kw, false)
      case Err(x) => Err(x)
      case Ok(b) => if b.remaining.Keys != {} then Err(DecoratorFailure) else Ok(Feeder(b.entries))
  }

  /** The loop as written, started at `p`, reaches the order check at parameter `j`:
      it gets through the parameters before `j` without raising, some entry is bound
      already, and parameter `j` is named by a keyword checker that needs data. */
  predicate ReachesAt(sig: Signature, params: seq<string>, p: nat, acc: seq<Entry>, remaining: map<string, Checker>, j: nat)
    requires SigOk(sig) && p <= j < |params|
    requires forall i | 0 <= i < |params| :: params[i] in sig.args
    requires forall k | k in remaining :: Valid(remaining[k])
  {
    var b := BindParams(sig, params[..j], p, acc, remaining, true);
    && b.Ok? && |b.value.entries| > 0
    && params[j] in b.value.remaining && NeedData(b.value.remaining[params[j]])
  }

  /** Moving the loop one parameter on keeps the order checks still ahead of it. */
  lemma ReachShift(sig: Signature, params: seq<string>, p: nat, acc: seq<Entry>, remaining: map<string, Checker>,
                   q: nat, acc': seq<Entry>, rem': map<string, Checker>)
    requires SigOk(sig) && p < |params| && q == p + 1
    requires forall i | 0 <= i < |params| :: params[i] in sig.args
    requires forall k | k in remaining :: Valid(remaining[k])
    requires forall k | k in rem' :: Valid(rem'[k])
    requires !ReachesAt(sig, params, p, acc, remaining, p)
    requires forall j | q <= j < |params| :: ReachesAt(sig, params, p, acc, remaining, j) == ReachesAt(sig, params, q, acc', rem', j)
    ensures (exists j | p <= j < |params| :: ReachesAt(sig, params, p, acc, remaining, j)) <==>
            (exists j | q <= j < |params| :: ReachesAt(sig, params, q, acc', rem', j))
  {
  }

  /** The loop as written raises `NameError` exactly when it reaches the order check,
      and otherwise agrees with the corrected loop. */
  lemma {:induction false} AsWrittenLoop(sig: Signature, params: seq<string>, p: nat, acc: seq<Entry>, remaining: map<string, Checker>)
    requires SigOk(sig) && p <= |params|
    requires forall i | 0 <= i < |params| :: params[i] in sig.args
    requires forall k | k in remaining :: Valid(remaining[k])
    ensures (exists j | p <= j < |params| :: ReachesAt(sig, params, p, acc, remaining, j)) ==>
              BindParams(sig, params, p, acc, remaining, true) == Err(UndefinedName)
    ensures (forall j | p <= j < |params| :: !ReachesAt(sig, params, p, acc, remaining, j)) ==>
              BindParams(sig, params, p, acc, remaining, true) == BindParams(sig, params, p, acc, remaining, false)
    decreases |params| - p, 1
  {
    if p < |params| {
      var name := params[p];
      assert ReachesAt(sig, params, p, acc, remaining, p) <==>
               |acc| > 0 && name in remaining && NeedData(remaining[name]) by {
        assert params[..p + 1][p] == name;
      }
      if !ReachesAt(sig, params, p, acc, remaining, p) {
        assert BindStep(sig, name, acc, remaining, true) == BindStep(sig, name, acc, remaining, false);
        match BindStep(sig, name, acc, remaining, true)
        case Err(x) =>
          forall j | p < j < |params| ensures !ReachesAt(sig, params, p, acc, remaining, j) {
            ReachesLater(sig, params, p, acc, remaining, j);
          }
        case Ok(c) =>
          var acc', rem' := acc + [(name, c)], remaining - {name};
          forall j | p < j < |params|
            ensures ReachesAt(sig, params, p, acc, remaining, j) == ReachesAt(sig, params, p + 1, acc', rem', j)
          {
            ReachesLater(sig, params, p, acc, remaining, j);
          }
          AsWrittenShift(sig, params, p, acc, remaining, acc', rem');
      }
    }
  }

  /** The loop as written reaches the order check at a later parameter `j` exactly when
      its turn on parameter `p` succeeds and the loop from there reaches it at `j`. */
  lemma ReachesLater(sig: Signature, params: seq<string>, p: nat, acc: seq<Entry>, remaining: map<string, Checker>, j: nat)
    requires SigOk(sig) && p < j < |params|
    requires forall i | 0 <= i < |params| :: params[i] in sig.args
    requires forall k | k in remaining :: Valid(remaining[k])
    ensures var s := BindStep(sig, params[p], acc, remaining, true);
            ReachesAt(sig, params, p, acc, remaining, j) <==>
              s.Ok? && ReachesAt(sig, params, p + 1, acc + [(params[p], s.value)], remaining - {params[p]}, j)
  {
  }

  /** The step of `AsWrittenLoop` past a parameter that binds an entry without reaching
      the order check: both loops continue from the same state. */
  lemma {:induction false} AsWrittenShift(sig: Signature, params: seq<string>, p: nat, acc: seq<Entry>, remaining: map<string, Checker>,
                                          acc': seq<Entry>, rem': map<string, Checker>)
    requires SigOk(sig) && p < |params|
    requires forall i | 0 <= i < |params| :: params[i] in sig.args
    requires forall k | k in remaining :: Valid(remaining[k])
    requires forall k | k in rem' :: Valid(rem'[k])
    requires !ReachesAt(sig, params, p, acc, remaining, p)
    requires forall j | p < j < |params| ::
               ReachesAt(sig, params, p, acc, remaining, j) == ReachesAt(sig, params, p + 1, acc', rem', j)
    requires BindParams(sig, params, p, acc, remaining, true) == BindParams(sig, params, p + 1, acc', rem', true)
    requires BindParams(sig, params, p, acc, remaining, false) == BindParams(sig, params, p + 1, acc', rem', false)
    ensures (exists j | p <= j < |params| :: ReachesAt(sig, params, p, acc, remaining, j)) ==>
              BindParams(sig, params, p, acc, remaining, true) == Err(UndefinedName)
    ensures (forall j | p <= j < |params| :: !ReachesAt(sig, params, p, acc, remaining, j)) ==>
              BindParams(sig, params, p, acc, remaining, true) == BindParams(sig, params, p, acc, remaining, false)
    decreases |params| - p, 0
  {
    ReachShift(sig, params, p, acc, remaining, p + 1, acc', rem');
    AsWrittenLoop(sig, params, p + 1, acc', rem');
  }

  /** The order check runs on the function: the loop reaches it at some parameter. */
  predicate ReachesOrderCheck(sig: Signature, kw: map<string, Checker>)
    requires SigOk(sig) && forall k | k in kw :: Valid(kw[k])
  {
    exists j | 0 <= j < |Params(sig)| :: ReachesAt(sig, Params(sig), 0, [], kw, j)
  }

  /** The decorator as the source spells it: the loop raises `NameError` once it
      reaches the order check, and a function on which it does not get there is
      treated as the corrected decorator treats it. */
  function DecorateAsWritten(sig: Signature, decorated: bool, kw: map<string, Checker>): (r: Result<Feeder, DecoratorError>)
    requires SigOk(sig) && forall k | k in kw :: Valid(kw[k])
    ensures decorated ==> r == Err(DecoratorFailure)
    ensures !decorated && ReachesOrderCheck(sig, kw) ==> r == Err(UndefinedName)
    ensures decorated || !ReachesOrderCheck(sig, kw) ==> r == Decorate(sig, decorated, kw)
  {
    AsWrittenLoop(sig, Params(sig), 0, [], kw);
    if decorated then Err(DecoratorFailure)
    else
      match BindParams(sig, Params(sig), 0, [], kw, true)
      case Err(x) => Err(x)
      case Ok(b) => if b.remaining.Keys != {} then Err(DecoratorFailure) else Ok(Feeder(b.entries))
  }

  /** `shellMethod(**argList)(fun)`. */
  function ShellMethod(sig: Signature, decorated: bool, kw: map<string, KwArg>): (r: Result<Feeder, DecoratorError>)
    requires SigOk(sig) && forall k | k in kw && kw[k].IsChecker? :: Valid(kw[k].c)
    ensures (exists k | k in kw :: kw[k].NotChecker?) ==> r == Err(DecoratorFailure)
    ensures decorated ==> r.Err?
  {
    match CheckKwArgs(kw)
    case Err(x) => Err(x)
    case Ok(m) => Decorate(sig, decorated, m)
  }

  // ---------------------------------------------------------------------------
  // A reference definition of what the decorator binds
  // ---------------------------------------------------------------------------

  /** The checker a parameter should end up with. */
  function Expected(sig: Signature, kw: map<string, Checker>, name: string): Result<Checker, DecoratorError>
    requires SigOk(sig) && name in sig.args && forall k | k in kw :: Valid(kw[k])
  {
    if name in kw then SetCheckerDefault(sig, name, kw[name])
    else if HasDefault(sig, name) == Ok(true) then Ok(NewDefaultValue(GetDefault(sig, name).value))
    else Err(DecoratorFailure)
  }

  /** A parameter named by a data-needing keyword checker does not follow one named by
      a keyword checker of unbounded size (a parameter bound to its default takes no
      token, and setting a default keeps a checker's sizes). */
  predicate OrderOk(kw: map<string, Checker>, params: seq<string>, j: nat)
    requires 1 <= j < |params|
  {
    params[j] in kw && NeedData(kw[params[j]]) && params[j - 1] in kw ==> kw[params[j - 1]].maxSize.Some?
  }

  /** When the decorator accepts a function, described without its loop. */
  predicate Acceptable(sig: Signature, decorated: bool, kw: map<string, Checker>)
    requires SigOk(sig) && forall k | k in kw :: Valid(kw[k])
  {
    var params := Params(sig);
    && !decorated
    && (forall k | k in kw :: k in params)
    && (forall j | 0 <= j < |params| :: Expected(sig, kw, params[j]).Ok?)
    && (forall j | 1 <= j < |params| :: OrderOk(kw, params, j))
  }
}
