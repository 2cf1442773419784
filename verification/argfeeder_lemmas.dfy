/** Properties of the argument feeder: what a call binds, what it ignores, and what its
    usage line looks like. */
module ArgFeederProperties {
  import opened Wrappers
  import opened ArgCheckers
  import opened ArgFeeders
  import opened Seqs

  /** Every checker has a maximum. */
  predicate AllBounded(entries: seq<Entry>) {
    forall j | 0 <= j < |entries| :: entries[j].1.maxSize.Some?
  }

  /** The tokens the checkers from `i` on can take at most. */
  function MaxFrom(entries: seq<Entry>, i: nat): nat
    requires AllBounded(entries) && i <= |entries|
    decreases |entries| - i
  {
    if i == |entries| then 0 else entries[i].1.maxSize.value + MaxFrom(entries, i + 1)
  }

  /** Every checker takes exactly one token. */
  predicate AllSingles(entries: seq<Entry>) {
    forall j | 0 <= j < |entries| :: entries[j].1.minSize == Some(1) && entries[j].1.maxSize == Some(1)
  }

  /** A lone string is read as a list holding that one string. */
  lemma StringIsOneToken(f: Feeder, s: string)
    requires WellFormed(f)
    ensures CheckArgs(f, StrArg(s)) == CheckArgs(f, ListArg([StrV(s)]))
  {
  }

  /** A bounded checker with all its tokens present receives the same value, and
      leaves the same tokens behind, when tokens are appended past its maximum. */
  lemma SurplusStep(c: Checker, rest: seq<Value>, extra: seq<Value>)
    requires Valid(c) && c.maxSize.Some? && c.maxSize.value <= |rest|
    ensures BoundedValue(c, rest + extra) == BoundedValue(c, rest)
    ensures Drop(rest + extra, c.maxSize.value) == Drop(rest, c.maxSize.value) + extra
  {
    var m := c.maxSize.value;
    assert Take(rest + extra, m) == rest[..m] == Take(rest, m);
  }

  lemma {:induction false} BindIgnoresSurplus(conv: Conv, entries: seq<Entry>, rest: seq<Value>, extra: seq<Value>,
                                               i: nat, acc: map<string, Value>)
    requires AllValid(entries) && AllBounded(entries) && i <= |entries|
    requires MaxFrom(entries, i) <= |rest|
    ensures Bind(conv, entries, rest + extra, i, acc) == Bind(conv, entries, rest, i, acc)
    decreases |entries| - i
  {
    if i < |entries| {
      var (name, c) := entries[i];
      var m := c.maxSize.value;
      assert Valid(c);
      SurplusStep(c, rest, extra);
      var g := conv(c, BoundedValue(c, rest));
      if g.Ok? {
        BindIgnoresSurplus(conv, entries, Drop(rest, m), extra, i + 1, acc[name := g.value]);
      }
    }
  }

  /** When every checker has a maximum and the call supplies at least the sum of the
      maxima, tokens past that sum are never read. */
  lemma SurplusIgnored(f: Feeder, args: seq<Value>, extra: seq<Value>)
    requires WellFormed(f) && AllBounded(f.entries)
    requires MaxFrom(f.entries, 0) <= |args|
    ensures CheckArgs(f, ListArg(args + extra)) == CheckArgs(f, ListArg(args))
  {
    BindIgnoresSurplus(Convert, f.entries, args, extra, 0, map[]);
  }

  /** With no token at all, a first checker that needs data stops the binding at once:
      the call succeeds exactly when every checker has a default, and then binds each
      name to its default. */
  lemma EmptyInputTakesDefaults(f: Feeder)
    requires WellFormed(f) && |f.entries| > 0 && NeedData(f.entries[0].1)
    ensures var r := CheckArgs(f, ListArg([]));
            && (r.Ok? <==> forall j | 0 <= j < |f.entries| :: HasDefaultValue(f.entries[j].1))
            && (r.Ok? ==> forall j | 0 <= j < |f.entries| :: Ok(r.value[f.entries[j].0]) == GetDefaultValue(f.entries[j].1))
  {
    assert Bind(Convert, f.entries, [], 0, map[]) == Defaults(f.entries, 0, map[]);
    forall j | 0 <= j < |f.entries|
      ensures var r := Defaults(f.entries, 0, map[]);
              r.Ok? ==> f.entries[j].0 in r.value && Ok(r.value[f.entries[j].0]) == GetDefaultValue(f.entries[j].1)
    {
      DefaultsValue(f.entries, 0, map[], j);
    }
  }

  /** One turn of the first loop over one-token checkers while tokens remain: the
      `i`-th checker converts the `i`-th token. */
  lemma BindSingleStep(conv: Conv, entries: seq<Entry>, args: seq<Value>, i: nat, acc: map<string, Value>)
    requires AllSingles(entries) && i < |entries| && i < |args|
    ensures var g := conv(entries[i].1, args[i]);
            && (g.Err? ==> Bind(conv, entries, Drop(args, i), i, acc) == Err(g.error))
            && (g.Ok? ==> Bind(conv, entries, Drop(args, i), i, acc) ==
                            Bind(conv, entries, Drop(args, i + 1), i + 1, acc[entries[i].0 := g.value]))
  {
    assert entries[i].1.minSize == Some(1) && entries[i].1.maxSize == Some(1);
    assert Drop(args, i)[0] == args[i];
    assert Drop(Drop(args, i), 1) == Drop(args, i + 1);
  }

  /** Once the tokens run out, the remaining one-token checkers take their defaults. */
  lemma BindSinglesEnd(conv: Conv, entries: seq<Entry>, args: seq<Value>, i: nat, acc: map<string, Value>)
    requires AllSingles(entries) && i < |entries| && i == |args|
    ensures Bind(conv, entries, Drop(args, i), i, acc) == Defaults(entries, i, acc)
  {
    assert entries[i].1.minSize == Some(1);
  }

  /** Over one-token checkers, the first loop succeeds exactly when every token read
      converts and every checker past the last token has a default. */
  lemma {:induction false} BindSinglesOk(conv: Conv, entries: seq<Entry>, args: seq<Value>, i: nat, acc: map<string, Value>)
    requires AllSingles(entries) && i <= |entries| && i <= |args|
    decreases |entries| - i
    ensures Bind(conv, entries, Drop(args, i), i, acc).Ok? <==>
              (forall j | i <= j < |entries| && j < |args| :: conv(entries[j].1, args[j]).Ok?)
              && (forall j | |args| <= j < |entries| :: HasDefaultValue(entries[j].1))
  {
    if i < |entries| {
      if i == |args| {
        BindSinglesEnd(conv, entries, args, i, acc);
      } else {
        BindSingleStep(conv, entries, args, i, acc);
        var g := conv(entries[i].1, args[i]);
        if g.Ok? {
          BindSinglesOk(conv, entries, args, i + 1, acc[entries[i].0 := g.value]);
        }
      }
    }
  }

  /** Over one-token checkers with distinct names, a successful first loop binds the
      `j`-th name to its converted token, or to its default when the tokens ran out
      before it. */
  lemma {:induction false} BindSinglesValue(conv: Conv, entries: seq<Entry>, args: seq<Value>, i: nat,
                                             acc: map<string, Value>, j: nat)
    requires Distinct(NamesOf(entries)) && AllSingles(entries) && i <= |args| && i <= j < |entries|
    decreases |entries| - i
    ensures var r := Bind(conv, entries, Drop(args, i), i, acc);
            r.Ok? ==> entries[j].0 in r.value &&
                      Ok(r.value[entries[j].0]) == if j < |args| then conv(entries[j].1, args[j]) else GetDefaultValue(entries[j].1)
  {
    if i == |args| {
      BindSinglesEnd(conv, entries, args, i, acc);
      DefaultsValue(entries, i, acc, j);
    } else {
      var name := entries[i].0;
      BindSingleStep(conv, entries, args, i, acc);
      var g := conv(entries[i].1, args[i]);
      if g.Ok? {
        var acc' := acc[name := g.value];
        if i == j {
          LaterNamesDiffer(entries, i);
          BindKeeps(conv, entries, Drop(args, i + 1), i + 1, acc', name);
        } else {
          BindSinglesValue(conv, entries, args, i + 1, acc', j);
        }
      }
    }
  }

  /** A feeder of one-token checkers binds the `j`-th token to the `j`-th name, gives
      the checkers past the last token their defaults, and ignores surplus tokens; it
      succeeds exactly when every token read converts and every checker left over has
      a default. */
  lemma SinglesBindPositionally(f: Feeder, args: seq<Value>)
    requires WellFormed(f) && AllSingles(f.entries)
    ensures var r := CheckArgs(f, ListArg(args));
            && (r.Ok? <==> (forall j | 0 <= j < |f.entries| && j < |args| :: GetValue(f.entries[j].1, args[j]).Ok?)
                           && (forall j | |args| <= j < |f.entries| :: HasDefaultValue(f.entries[j].1)))
            && (r.Ok? ==> forall j | 0 <= j < |f.entries| && j < |args| :: Ok(r.value[f.entries[j].0]) == GetValue(f.entries[j].1, args[j]))
            && (r.Ok? ==> forall j | |args| <= j < |f.entries| :: Ok(r.value[f.entries[j].0]) == GetDefaultValue(f.entries[j].1))
  {
    assert Drop(args, 0) == args;
    BindSinglesOk(Convert, f.entries, args, 0, map[]);
    forall j | 0 <= j < |f.entries|
      ensures var r := Bind(Convert, f.entries, args, 0, map[]);
              r.Ok? ==> f.entries[j].0 in r.value &&
                        Ok(r.value[f.entries[j].0]) == if j < |args| then Convert(f.entries[j].1, args[j]) else GetDefaultValue(f.entries[j].1)
    {
      BindSinglesValue(Convert, f.entries, args, 0, map[], j);
    }
  }

  // ---------------------------------------------------------------------------
  // The usage line against its reference definition
  // ---------------------------------------------------------------------------

  lemma TailValid(entries: seq<Entry>)
    requires AllValid(entries) && |entries| > 0
    ensures AllValid(entries[1..])
  {
    assert forall j | 0 <= j < |entries| - 1 :: entries[1..][j] == entries[j + 1];
  }

  lemma ShownCons(entries: seq<Entry>)
    requires AllValid(entries) && |entries| > 0
    ensures AllValid(entries[1..])
    ensures entries[0].1.showInUsage ==> Shown(entries) == [entries[0]] + Shown(entries[1..])
    ensures !entries[0].1.showInUsage ==> Shown(entries) == Shown(entries[1..])
  {
    TailValid(entries);
    if !entries[0].1.showInUsage {
      assert [] + Shown(entries[1..]) == Shown(entries[1..]);
    }
  }

  lemma PiecesCons(e: Entry, s: seq<Entry>)
    requires Valid(e.1) && AllValid(s)
    ensures Pieces([e] + s) == UsagePiece(e) + Pieces(s)
  {
    assert ([e] + s)[0] == e;
    assert ([e] + s)[1..] == s;
  }

  lemma {:induction false} UsageLoopOpen(entries: seq<Entry>)
    requires AllValid(entries)
    ensures UsageLoop(entries, true) == UsageText(Pieces(Shown(entries)), true)
    decreases |entries|
  {
    if |entries| > 0 {
      ShownCons(entries);
      UsageLoopOpen(entries[1..]);
      if entries[0].1.showInUsage {
        assert "" + UsagePiece(entries[0]) == UsagePiece(entries[0]);
        PiecesCons(entries[0], Shown(entries[1..]));
      }
    }
  }

  /** What the loop yields when no bracket is open yet, stated on the shown checkers. */
  function ClosedUsage(shown: seq<Entry>): UsageText
    requires AllValid(shown)
  {
    match FirstDefault(shown)
    case None => UsageText(Pieces(shown), false)
    case Some(k) => UsageText(Pieces(shown[..k]) + "[" + Pieces(shown[k..]), true)
  }

  lemma ClosedUsageDefault(e: Entry, s: seq<Entry>)
    requires Valid(e.1) && HasDefaultValue(e.1) && AllValid(s)
    ensures ClosedUsage([e] + s) == UsageText("[" + Pieces([e] + s), true)
  {
    var es := [e] + s;
    assert es[0] == e;
    assert FirstDefault(es) == Some(0);
    assert es[..0] == [];
    assert es[0..] == es;
    assert "" + "[" == "[";
  }

  lemma ClosedUsageNoDefault(e: Entry, s: seq<Entry>)
    requires Valid(e.1) && !HasDefaultValue(e.1) && AllValid(s)
    ensures ClosedUsage([e] + s) == UsageText(UsagePiece(e) + ClosedUsage(s).text, ClosedUsage(s).bracketOpen)
  {
    var es := [e] + s;
    assert es[0] == e;
    assert es[1..] == s;
    PiecesCons(e, s);
    match FirstDefault(s)
    case None =>
    case Some(k) =>
      assert FirstDefault(es) == Some(k + 1);
      assert es[..k + 1] == [e] + s[..k];
      assert es[k + 1..] == s[k..];
      PiecesCons(e, s[..k]);
      var p, front, back := UsagePiece(e), Pieces(s[..k]), Pieces(s[k..]);
      assert ((p + front) + "[") + back == p + ((front + "[") + back);
  }

  lemma {:induction false} UsageLoopClosed(entries: seq<Entry>)
    requires AllValid(entries)
    ensures UsageLoop(entries, false) == ClosedUsage(Shown(entries))
    decreases |entries|
  {
    if |entries| > 0 {
      var e := entries[0];
      ShownCons(entries);
      var s := Shown(entries[1..]);
      if !e.1.showInUsage {
        UsageLoopClosed(entries[1..]);
      } else if HasDefaultValue(e.1) {
        UsageLoopOpen(entries[1..]);
        PiecesCons(e, s);
        ClosedUsageDefault(e, s);
        assert ("[" + UsagePiece(e)) + Pieces(s) == "[" + (UsagePiece(e) + Pieces(s));
      } else {
        UsageLoopClosed(entries[1..]);
        ClosedUsageNoDefault(e, s);
        assert "" + UsagePiece(e) == UsagePiece(e);
      }
    }
  }

  /** The usage line is the pieces of the shown checkers, in order, with `[` before the
      first one that has a default and `]` at the end. */
  lemma UsageMatchesReference(f: Feeder)
    requires WellFormed(f) && |f.entries| > 0
    ensures FeederUsage(f) == ReferenceUsage(f.entries)
  {
    UsageLoopClosed(f.entries);
    assert Strip(Pieces(Shown(f.entries))) + "" == Strip(Pieces(Shown(f.entries)));
  }
}
