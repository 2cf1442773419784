/** Properties of the decorator: defaults line up with the tail of the parameter list,
    and the binding loop does what its reference definition says. */
module DecoratorProperties {
  import opened Wrappers
  import opened ArgCheckers
  import opened ArgFeeders
  import opened Decorators
  import opened Seqs

  /** A parameter has a default exactly when it is among the last `len(defaults)`. */
  lemma HasDefaultIffTail(sig: Signature, a: string)
    requires SigOk(sig)
    ensures HasDefault(sig, a) == Ok(true) <==> a in DefaultedParams(sig)
  {
    if a in sig.args {
      var i := IndexOf(sig.args, a).value;
      var cut := |sig.args| - |sig.defaults|;
      if a in sig.args[cut..] {
        var j :| cut <= j < |sig.args| && sig.args[j] == a;
        IndexOfDistinct(sig.args, j);
      }
      assert i >= cut ==> sig.args[cut..][i - cut] == a;
    }
  }

  /** The `j`-th default belongs to the `j`-th of the last `len(defaults)` parameters,
      and no other parameter has one. */
  lemma DefaultsAlignWithTail(sig: Signature)
    requires SigOk(sig)
    ensures forall j | 0 <= j < |sig.defaults| ::
              GetDefault(sig, sig.args[|sig.args| - |sig.defaults| + j]) == Ok(sig.defaults[j])
    ensures forall i | 0 <= i < |sig.args| - |sig.defaults| :: HasDefault(sig, sig.args[i]) == Ok(false)
  {
    forall j | 0 <= j < |sig.defaults|
      ensures GetDefault(sig, sig.args[|sig.args| - |sig.defaults| + j]) == Ok(sig.defaults[j])
    {
      var a := sig.args[|sig.args| - |sig.defaults| + j];
      IndexOfDistinct(sig.args, |sig.args| - |sig.defaults| + j);
    }
    forall i | 0 <= i < |sig.args| - |sig.defaults|
      ensures HasDefault(sig, sig.args[i]) == Ok(false)
    {
      IndexOfDistinct(sig.args, i);
    }
  }

  lemma ParamsFacts(sig: Signature)
    requires SigOk(sig)
    ensures forall j | 0 <= j < |Params(sig)| :: Params(sig)[j] in sig.args
    ensures Distinct(Params(sig))
  {
    var params := Params(sig);
    if params != sig.args {
      assert forall j | 0 <= j < |params| :: params[j] == sig.args[j + 1];
      DistinctTail(sig.args);
    }
  }

  /** The facts about `Params` the binding loop relies on. */
  predicate ParamsOk(sig: Signature, kw: map<string, Checker>, params: seq<string>) {
    && SigOk(sig) && (forall k | k in kw :: Valid(kw[k]))
    && (forall j | 0 <= j < |params| :: params[j] in sig.args)
    && Distinct(params)
  }

  /** The keyword checkers the loop still holds before parameter `p`: those of `kw`
      whose name is none of the first `p` parameters. */
  predicate Unclaimed(kw: map<string, Checker>, params: seq<string>, p: nat, remaining: map<string, Checker>)
    requires p <= |params|
  {
    && (forall k | k in remaining :: k in kw && remaining[k] == kw[k])
    && (forall k | k in kw :: k in remaining <==> k !in params[..p])
  }

  /** Binding parameter `p` claims its keyword checker, if any, and no other. */
  lemma UnclaimStep(kw: map<string, Checker>, params: seq<string>, p: nat, remaining: map<string, Checker>)
    requires Distinct(params) && p < |params| && Unclaimed(kw, params, p, remaining)
    ensures params[p] in remaining <==> params[p] in kw
    ensures params[p] in remaining ==> remaining[params[p]] == kw[params[p]]
    ensures Unclaimed(kw, params, p + 1, remaining - {params[p]})
  {
    var name := params[p];
    assert params[..p + 1] == params[..p] + [name];
    forall i | 0 <= i < p ensures params[..p][i] != name {
      assert params[..p][i] == params[i];
      DistinctAt(params, i, p);
    }
    assert name !in params[..p];
  }

  /** Parameter `j` has its expected checker and keeps the order rule. */
  predicate Good(sig: Signature, kw: map<string, Checker>, params: seq<string>, j: nat)
    requires ParamsOk(sig, kw, params) && j < |params|
  {
    Expected(sig, kw, params[j]).Ok? && (j >= 1 ==> OrderOk(kw, params, j))
  }

  /** The last entry bound so far is of unbounded size exactly when its parameter was
      named by a keyword checker of unbounded size: the order rule of the next
      parameter looks at it. */
  predicate LastBound(kw: map<string, Checker>, params: seq<string>, acc: seq<Entry>)
    requires |acc| <= |params|
  {
    |acc| > 0 ==> (Unbounded(Last(acc).1) <==> params[|acc| - 1] in kw && kw[params[|acc| - 1]].maxSize.None?)
  }

  /** Where the binding loop may be: past the first `|acc|` parameters, holding the
      keyword checkers none of them claimed. */
  predicate LoopState(sig: Signature, kw: map<string, Checker>, params: seq<string>, acc: seq<Entry>, remaining: map<string, Checker>) {
    && ParamsOk(sig, kw, params) && |acc| <= |params|
    && LastBound(kw, params, acc)
    && Unclaimed(kw, params, |acc|, remaining)
  }

  /** One turn of the binding loop: it fails unless parameter `p` has its expected
      checker and keeps the order rule, and otherwise appends that checker and gives up
      the parameter's keyword checker. */
  lemma BindParamsStep(sig: Signature, kw: map<string, Checker>, params: seq<string>, acc: seq<Entry>, remaining: map<string, Checker>)
    requires LoopState(sig, kw, params, acc, remaining) && |acc| < |params|
    ensures Unclaimed(kw, params, |acc| + 1, remaining - {params[|acc|]})
    ensures var p := |acc|;
            var ok := Good(sig, kw, params, p);
            var s := BindStep(sig, params[p], acc, remaining, false);
            && (!ok ==> s.Err?)
            && (ok ==> && LastBound(kw, params, acc + [(params[p], Expected(sig, kw, params[p]).value)])
                       && s == Expected(sig, kw, params[p]))
  {
    UnclaimStep(kw, params, |acc|, remaining);
  }

  /** Every parameter from `p` on has its expected checker and keeps the order rule. */
  predicate AllGood(sig: Signature, kw: map<string, Checker>, params: seq<string>, p: nat)
    requires ParamsOk(sig, kw, params) && p <= |params|
    decreases |params| - p
  {
    p == |params| || (Good(sig, kw, params, p) && AllGood(sig, kw, params, p + 1))
  }

  /** Each parameter from `p` on is good when `AllGood` holds at `p`. */
  lemma {:induction false} AllGoodAt(sig: Signature, kw: map<string, Checker>, params: seq<string>, p: nat, j: nat)
    requires ParamsOk(sig, kw, params) && p <= j < |params|
    requires AllGood(sig, kw, params, p)
    decreases j - p
    ensures Good(sig, kw, params, j)
  {
    if p < j {
      AllGoodAt(sig, kw, params, p + 1, j);
    }
  }

  /** `AllGood` holds at `p` when each parameter from `p` on is good. */
  lemma {:induction false} EveryAllGood(sig: Signature, kw: map<string, Checker>, params: seq<string>, p: nat)
    requires ParamsOk(sig, kw, params) && p <= |params|
    requires forall j | p <= j < |params| :: Good(sig, kw, params, j)
    decreases |params| - p
    ensures AllGood(sig, kw, params, p)
  {
    if p < |params| {
      EveryAllGood(sig, kw, params, p + 1);
    }
  }

  /** `AllGood` is the quantified statement. */
  lemma AllGoodEvery(sig: Signature, kw: map<string, Checker>, params: seq<string>, p: nat)
    requires ParamsOk(sig, kw, params) && p <= |params|
    ensures AllGood(sig, kw, params, p) <==> forall j | p <= j < |params| :: Good(sig, kw, params, j)
  {
    if AllGood(sig, kw, params, p) {
      forall j | p <= j < |params| ensures Good(sig, kw, params, j) {
        AllGoodAt(sig, kw, params, p, j);
      }
    }
    if forall j | p <= j < |params| :: Good(sig, kw, params, j) {
      EveryAllGood(sig, kw, params, p);
    }
  }

  /** The binding loop from parameter `|acc|` on succeeds exactly when every parameter
      left has its expected checker and keeps the order rule. */
  lemma {:induction false} BindParamsOk(sig: Signature, kw: map<string, Checker>, params: seq<string>, acc: seq<Entry>, remaining: map<string, Checker>)
    requires LoopState(sig, kw, params, acc, remaining)
    decreases |params| - |acc|
    ensures BindParams(sig, params, |acc|, acc, remaining, false).Ok? <==> AllGood(sig, kw, params, |acc|)
  {
    var p := |acc|;
    if p < |params| {
      BindParamsStep(sig, kw, params, acc, remaining);
      if Good(sig, kw, params, p) {
        var acc' := acc + [(params[p], Expected(sig, kw, params[p]).value)];
        BindParamsOk(sig, kw, params, acc', remaining - {params[p]});
      }
    }
  }

  /** A successful binding loop keeps the entries bound before it and appends, for
      every parameter left, that parameter with its expected checker. */
  lemma {:induction false} BindParamsEntry(sig: Signature, kw: map<string, Checker>, params: seq<string>, acc: seq<Entry>,
                                           remaining: map<string, Checker>, j: nat)
    requires LoopState(sig, kw, params, acc, remaining) && j < |params|
    decreases |params| - |acc|
    ensures var r := BindParams(sig, params, |acc|, acc, remaining, false);
            r.Ok? ==> && |r.value.entries| == |params|
                      && (j < |acc| ==> r.value.entries[j] == acc[j])
                      && (j >= |acc| ==> r.value.entries[j].0 == params[j] && Ok(r.value.entries[j].1) == Expected(sig, kw, params[j]))
  {
    var p := |acc|;
    if p < |params| {
      BindParamsStep(sig, kw, params, acc, remaining);
      if Good(sig, kw, params, p) {
        var acc' := acc + [(params[p], Expected(sig, kw, params[p]).value)];
        var rem' := remaining - {params[p]};
        BindParamsEntry(sig, kw, params, acc', rem', j);
        assert j < |acc| ==> acc'[j] == acc[j];
      }
    }
  }

  /** A successful binding loop from parameter `p` on gives up the keyword checkers of
      the parameters it binds and keeps every other one. */
  lemma {:induction false} BindParamsLeftover(sig: Signature, params: seq<string>, p: nat, acc: seq<Entry>,
                                              remaining: map<string, Checker>)
    requires SigOk(sig) && p <= |params|
    requires forall j | 0 <= j < |params| :: params[j] in sig.args
    requires forall k | k in remaining :: Valid(remaining[k])
    decreases |params| - p
    ensures var r := BindParams(sig, params, p, acc, remaining, false);
            r.Ok? ==> forall k :: k in r.value.remaining <==> k in remaining && k !in params[p..]
  {
    if p < |params| {
      var name := params[p];
      assert params[p..] == [name] + params[p + 1..];
      match BindStep(sig, name, acc, remaining, false)
      case Err(_) =>
      case Ok(d) => BindParamsLeftover(sig, params, p + 1, acc + [(name, d)], remaining - {name});
    }
  }

  lemma GoodIffConditions(sig: Signature, kw: map<string, Checker>, params: seq<string>)
    requires ParamsOk(sig, kw, params)
    ensures (forall j | 0 <= j < |params| :: Good(sig, kw, params, j)) <==>
            (forall j | 0 <= j < |params| :: Expected(sig, kw, params[j]).Ok?)
            && (forall j | 1 <= j < |params| :: OrderOk(kw, params, j))
  {
    if forall j | 0 <= j < |params| :: Good(sig, kw, params, j) {
      forall j | 0 <= j < |params| ensures Expected(sig, kw, params[j]).Ok? {
        assert Good(sig, kw, params, j);
      }
      forall j | 1 <= j < |params| ensures OrderOk(kw, params, j) {
        assert Good(sig, kw, params, j);
      }
    }
  }

  /** The binding loop starts with no parameter bound and every keyword checker held. */
  lemma LoopStarts(sig: Signature, kw: map<string, Checker>)
    requires SigOk(sig) && forall k | k in kw :: Valid(kw[k])
    ensures LoopState(sig, kw, Params(sig), [], kw)
  {
    ParamsFacts(sig);
    assert Params(sig)[..0] == [];
  }

  /** The decorator accepts a function exactly when the reference conditions hold. */
  lemma DecorateAcceptsReference(sig: Signature, decorated: bool, kw: map<string, Checker>)
    requires SigOk(sig) && forall k | k in kw :: Valid(kw[k])
    ensures Decorate(sig, decorated, kw).Ok? <==> Acceptable(sig, decorated, kw)
  {
    if !decorated {
      var params := Params(sig);
      LoopStarts(sig, kw);
      BindParamsOk(sig, kw, params, [], kw);
      AllGoodEvery(sig, kw, params, 0);
      BindParamsLeftover(sig, params, 0, [], kw);
      assert params[0..] == params;
      GoodIffConditions(sig, kw, params);
    }
  }

  /** An accepted function has every parameter but a method's `self` bound, in order,
      to its expected checker. */
  lemma DecorateBindsExpected(sig: Signature, decorated: bool, kw: map<string, Checker>)
    requires SigOk(sig) && forall k | k in kw :: Valid(kw[k])
    ensures var r := Decorate(sig, decorated, kw);
            r.Ok? ==> && |r.value.entries| == |Params(sig)|
                      && forall j | 0 <= j < |Params(sig)| ::
                           r.value.entries[j].0 == Params(sig)[j] && Ok(r.value.entries[j].1) == Expected(sig, kw, Params(sig)[j])
  {
    if !decorated {
      var params := Params(sig);
      LoopStarts(sig, kw);
      var r := BindParams(sig, params, 0, [], kw, false);
      forall j | 0 <= j < |params|
        ensures r.Ok? ==> |r.value.entries| == |params|
                          && r.value.entries[j].0 == params[j] && Ok(r.value.entries[j].1) == Expected(sig, kw, params[j])
      {
        BindParamsEntry(sig, kw, params, [], kw, j);
      }
    }
  }

  /** What the decorator produces is a feeder: distinct names, each with a valid checker. */
  lemma DecorateYieldsFeeder(sig: Signature, decorated: bool, kw: map<string, Checker>)
    requires SigOk(sig) && forall k | k in kw :: Valid(kw[k])
    requires Decorate(sig, decorated, kw).Ok?
    ensures WellFormed(Decorate(sig, decorated, kw).value)
  {
    DecorateBindsExpected(sig, decorated, kw);
    ParamsFacts(sig);
    var entries := Decorate(sig, decorated, kw).value.entries;
    assert NamesOf(entries) == Params(sig);
  }

  /** A keyword that names no parameter (a method's `self` included) is refused. */
  lemma UnmatchedKeywordRejected(sig: Signature, kw: map<string, Checker>, k: string)
    requires SigOk(sig) && (forall k | k in kw :: Valid(kw[k]))
    requires k in kw && k !in Params(sig)
    ensures Decorate(sig, false, kw).Err?
  {
    DecorateAcceptsReference(sig, false, kw);
  }

  /** A parameter with neither a keyword checker nor a default is refused. */
  lemma MissingCheckerRejected(sig: Signature, kw: map<string, Checker>, a: string)
    requires SigOk(sig) && (forall k | k in kw :: Valid(kw[k]))
    requires a in Params(sig) && a !in kw && HasDefault(sig, a) == Ok(false)
    ensures Decorate(sig, false, kw).Err?
  {
    DecorateAcceptsReference(sig, false, kw);
    ParamsFacts(sig);
    var j :| 0 <= j < |Params(sig)| && Params(sig)[j] == a;
    assert Expected(sig, kw, Params(sig)[j]).Err?;
  }

  /** A data-needing checker right after a keyword checker of unbounded size is
      refused: the first would leave it no token. */
  lemma NeedyAfterUnboundedRejected(sig: Signature, kw: map<string, Checker>, j: nat)
    requires SigOk(sig) && (forall k | k in kw :: Valid(kw[k]))
    requires 1 <= j < |Params(sig)|
    requires Params(sig)[j] in kw && NeedData(kw[Params(sig)[j]])
    requires Params(sig)[j - 1] in kw && kw[Params(sig)[j - 1]].maxSize.None?
    ensures Decorate(sig, false, kw).Err?
  {
    DecorateAcceptsReference(sig, false, kw);
    ParamsFacts(sig);
    assert !OrderOk(kw, Params(sig), j);
  }

  /** A method's leading `self` is never bound to a checker. */
  lemma SelfIsSkipped(sig: Signature, kw: map<string, Checker>)
    requires SigOk(sig) && (forall k | k in kw :: Valid(kw[k]))
    requires sig.isMethod && |sig.args| > 0 && sig.args[0] == "self"
    requires Decorate(sig, false, kw).Ok?
    ensures forall j | 0 <= j < |Decorate(sig, false, kw).value.entries| ::
              Decorate(sig, false, kw).value.entries[j].0 != "self"
  {
    DecorateBindsExpected(sig, false, kw);
    forall j | 0 <= j < |Params(sig)| ensures Params(sig)[j] != "self" {
      assert Params(sig)[j] == sig.args[j + 1];
      DistinctAt(sig.args, 0, j + 1);
    }
  }

  /** Every parameter of `sig` named by the same checker `c`. */
  function AllChecked(sig: Signature, c: Checker): (r: map<string, Checker>)
    ensures forall k | k in r :: r[k] == c
  {
    map p | p in Params(sig) :: c
  }

  /** The loop as written reaches the order check at the second parameter when the
      first has a keyword checker and no default and the second a data-needing one. */
  lemma ReachedAtSecond(sig: Signature, kw: map<string, Checker>)
    requires SigOk(sig) && forall k | k in kw :: Valid(kw[k])
    requires |Params(sig)| >= 2 && Params(sig)[0] in kw && Params(sig)[1] in kw
    requires HasDefault(sig, Params(sig)[0]) == Ok(false) && NeedData(kw[Params(sig)[1]])
    ensures ReachesOrderCheck(sig, kw)
  {
    var params := Params(sig);
    ParamsFacts(sig);
    var p0, c := params[0], kw[params[0]];
    var b := Binding([(p0, c)], kw - {p0});
    assert Apart(params, 0, 1);
    assert SetCheckerDefault(sig, p0, c) == Ok(c);
    assert [] + [(p0, c)] == [(p0, c)];
    assert BindStep(sig, p0, [], kw, true) == Ok(c);
    assert BindParams(sig, params[..1], 0, [], kw, true) == Ok(b);
    assert ReachesAt(sig, params, 0, [], kw, 1);
  }

  /** With no defaults and one bounded, data-needing checker per parameter, the decorator
      accepts the function, while the source as written refuses it exactly when there is
      a second parameter: the order check it then reaches reads an undefined name. */
  lemma BoundedCheckersRefusedAsWritten(sig: Signature, c: Checker)
    requires SigOk(sig) && Valid(c) && |sig.defaults| == 0
    requires c.maxSize.Some? && NeedData(c)
    ensures Decorate(sig, false, AllChecked(sig, c)).Ok?
    ensures DecorateAsWritten(sig, false, AllChecked(sig, c)).Err? <==> |Params(sig)| >= 2
  {
    var kw := AllChecked(sig, c);
    var params := Params(sig);
    ParamsFacts(sig);
    forall j | 0 <= j < |params| ensures Expected(sig, kw, params[j]).Ok? {
      assert params[j] in kw;
      assert HasDefault(sig, params[j]) == Ok(false);
    }
    DecorateAcceptsReference(sig, false, kw);
    if |params| >= 2 {
      ReachedAtSecond(sig, kw);
    } else {
      assert forall j | 0 <= j < |params| :: j == 0 && params[..j] == [];
    }
  }
}
