/** Properties of the engine model: the shape of each step, the round trips between the
    mutation primitives, the three defects of the source as written, and one complete run. */
module EngineProperties {
  import opened Wrappers
  import opened Engine

  // ---------------------------------------------------------------------------
  // One step
  // ---------------------------------------------------------------------------

  /** The frame a successful step pushes on top of the continuation depends only on the
      phase: PRE descends to `path + [0]` or, at the deepest stage, turns into PROCESS on
      the same path; PROCESS turns into POST; POST climbs to `path[:-1]`, and at the root
      pushes nothing and hands its outputs out. */
  lemma StepPushesResult(e: State, h: Handler)
    requires Runnable(e)
    requires h(CurrentSub(e).id, Last(e.stack).phase, CurrentSub(e).useArgs, CurrentItem(e)).Some?
    requires !WouldExceed(e)
    ensures
      var top := Last(e.stack);
      var out := h(CurrentSub(e).id, top.phase, CurrentSub(e).useArgs, CurrentItem(e)).value;
      var cont := Continuation(top, |e.stages[|top.path| - 1]|);
      var o := Step(e, h).value;
      var below := DropLast(e.stack) + cont;
      && Step(e, h).Ok?
      && o.next.stack[..|below|] == below
      && (top.phase == Pre && |top.path| == |e.stages| ==>
            o.next.stack == below + [Frame(Bunch(out, Unbounded), top.path, Process)] && o.emitted == [])
      && (top.phase == Pre && |top.path| < |e.stages| ==>
            o.next.stack == below + [Frame(Bunch(out, Unbounded), top.path + [0], Pre)] && o.emitted == [])
      && (top.phase == Process ==>
            o.next.stack == below + [Frame(Bunch(out, Unbounded), top.path, Post)] && o.emitted == [])
      && (top.phase == Post && |top.path| > 1 ==>
            o.next.stack == below + [Frame(Bunch(out, Unbounded), DropLast(top.path), Post)] && o.emitted == [])
      && (top.phase == Post && |top.path| == 1 ==> o.next.stack == below && o.emitted == out)
  {
  }

  /** The continuation re-pushes the executed frame. After PROCESS and POST it keeps the
      remaining items, if any. After PRE it either moves on to the next sub-command
      inside the range with the same items, or, once the range is exhausted, restarts the
      range on the remaining items. */
  lemma ContinuationShape(top: Frame, stageLen: nat)
    requires |top.path| > 0 && |top.data.items| > 0
    ensures
      var cont := Continuation(top, stageLen);
      var items := top.data.items;
      var b := top.data.bounds;
      var limit: int := if b.stop.Some? then b.stop.value else stageLen - 1;
      && |cont| <= 1
      && (forall k | 0 <= k < |cont| :: cont[k].phase == top.phase && cont[k].data.bounds == b
                                        && |cont[k].path| == |top.path|
                                        && DropLast(cont[k].path) == DropLast(top.path))
      && (top.phase != Pre ==>
            (|cont| == 1 <==> |items| > 1)
            && (|cont| == 1 ==> cont[0].data.items == items[1..] && cont[0].path == top.path))
      && (top.phase == Pre && Last(top.path) < limit ==>
            |cont| == 1 && cont[0].data.items == items && Last(cont[0].path) == Last(top.path) + 1)
      && (top.phase == Pre && Last(top.path) >= limit ==>
            (|cont| == 1 <==> |items| > 1)
            && (|cont| == 1 ==> cont[0].data.items == items[1..] && Last(cont[0].path) == b.start))
  {
  }

  /** A run only ever fails through a handler that raised, the execution limit, or a
      malformed frame; when it succeeds, every counter is still within the limit. */
  lemma {:induction false} RunKeepsLimit(e: State, h: Handler)
    requires WithinLimit(e)
    ensures Run(e, h).Ok? ==> WithinLimit(Run(e, h).value.next)
    ensures Run(e, h).Err? ==> Run(e, h).error.BadIndex? || Run(e, h).error.HandlerFailed? || Run(e, h).error.LimitReached?
    decreases Budget(e.stages)
  {
    if |e.stack| > 0 {
      match Step(e, h)
      case Err(_) =>
      case Ok(o) =>
        var out := h(CurrentSub(e).id, Last(e.stack).phase, CurrentSub(e).useArgs, CurrentItem(e)).value;
        NextSpendsBudget(e, out, false);
        NextKeepsLimit(e, out, false);
        BudgetNonNegative(e);
        RunKeepsLimit(o.next, h);
    }
  }

  /** A run is the sequence of its steps: the first step's outputs followed by the
      outputs of the run from the state it leaves. */
  lemma RunUnfolds(e: State, h: Handler)
    requires WithinLimit(e) && |e.stack| > 0 && Step(e, h).Ok?
    ensures WithinLimit(Step(e, h).value.next)
    ensures Run(e, h) == match Run(Step(e, h).value.next, h)
                         case Err(x) => Err(x)
                         case Ok(rest) => Ok(Outcome(rest.next, Step(e, h).value.emitted + rest.emitted))
  {
    var out := h(CurrentSub(e).id, Last(e.stack).phase, CurrentSub(e).useArgs, CurrentItem(e)).value;
    NextKeepsLimit(e, out, false);
  }

  // ---------------------------------------------------------------------------
  // Invariants of the mutation primitives
  // ---------------------------------------------------------------------------

  /** Adding a sub-command or a stage keeps every counter within the limit and every
      path within the tree. */
  lemma AddKeepsInvariants(e: State, id: nat, useArgs: bool, stage: Stage)
    requires WithinLimit(e) && WellFormed(e)
    ensures AddSubCommand(e, id, useArgs).Ok? ==>
              WithinLimit(AddSubCommand(e, id, useArgs).value) && WellFormed(AddSubCommand(e, id, useArgs).value)
    ensures WithinLimit(AddCommand(e, stage)) && WellFormed(AddCommand(e, stage))
  {
    var r := AddSubCommand(e, id, useArgs);
    if r.Ok? {
      var d := |Last(e.stack).path| - 1;
      forall s, i | 0 <= s < |r.value.stages| && 0 <= i < |r.value.stages[s]|
        ensures CountersOk(r.value.stages[s][i])
      {
        if s == d && i == |e.stages[d]| {
        } else {
          assert r.value.stages[s][i] == e.stages[s][i];
        }
      }
    }
  }

  /** A sub-command added inside the range of the top PRE frame is reached by that frame's
      continuation: the frame does not stop before the new index. */
  lemma AddedSubCommandIsReached(e: State, id: nat, useArgs: bool)
    requires Runnable(e) && Last(e.stack).phase == Pre
    requires Last(Last(e.stack).path) == |e.stages[|Last(e.stack).path| - 1]| - 1
    requires AddSubCommand(e, id, useArgs).Ok?
    ensures
      var e' := AddSubCommand(e, id, useArgs).value;
      var top := Last(e.stack);
      var cont := Continuation(top, |e'.stages[|top.path| - 1]|);
      |cont| == 1 && cont[0].data == top.data && Last(cont[0].path) == Last(top.path) + 1
  {
  }

  /** After skipping `k`, the frame's next step runs the sub-command `k` places further
      on, with the same current item; the frame can run exactly when that sub-command
      exists. */
  lemma SkipSelectsLaterSibling(e: State, k: nat)
    requires SkipNextCommand(e, k).Ok?
    ensures
      var e' := SkipNextCommand(e, k).value;
      var top := Last(e.stack);
      && (Runnable(e') <==> |top.path| <= |e.stages| && |top.data.items| > 0
                            && Last(top.path) + k < |e.stages[|top.path| - 1]|)
      && (Runnable(e') ==> CurrentSub(e') == e.stages[|top.path| - 1][Last(top.path) + k]
                           && CurrentItem(e') == top.data.items[0])
  {
  }

  /** Two skips amount to one skip of their sum. */
  lemma SkipsAdd(e: State, a: nat, b: nat)
    requires SkipNextCommand(e, a).Ok?
    ensures SkipNextCommand(SkipNextCommand(e, a).value, b) == SkipNextCommand(e, a + b)
  {
    var top := Last(e.stack);
    var e1 := SkipNextCommand(e, a).value;
    var top1 := Last(e1.stack);
    assert WithLast(top1.path, Last(top1.path) + b) == WithLast(top.path, Last(top.path) + a + b);
    assert top1.(path := WithLast(top1.path, Last(top1.path) + b)) == top.(path := WithLast(top.path, Last(top.path) + a + b));
  }

  /** A command range keeps the engine's invariants, and once the frame's PRE reaches the
      end of the new range, the frame starts its next item over at the new start. */
  lemma SetCmdRangeRestartsAtStart(e: State, firstCmd: nat, cmdLength: Option<int>, depth: int)
    requires WithinLimit(e) && WellFormed(e)
    requires SetCmdRange(e, firstCmd, cmdLength, depth).Ok?
    ensures WithinLimit(SetCmdRange(e, firstCmd, cmdLength, depth).value)
    ensures WellFormed(SetCmdRange(e, firstCmd, cmdLength, depth).value)
    ensures
      var f := SetCmdRange(e, firstCmd, cmdLength, depth).value.stack[|e.stack| - 1 - depth];
      var stageLen := |e.stages[|f.path| - 1]|;
      var limit: int := if f.data.bounds.stop.Some? then f.data.bounds.stop.value else stageLen - 1;
      Last(f.path) >= limit && |f.data.items| > 1 ==>
        Continuation(f, stageLen) == [Frame(Bunch(f.data.items[1..], f.data.bounds), WithLast(f.path, firstCmd), Pre)]
  {
    var e' := SetCmdRange(e, firstCmd, cmdLength, depth).value;
    var pos := |e.stack| - 1 - depth;
    forall k | 0 <= k < |e'.stack| ensures 0 < |e'.stack[k].path| <= |e'.stages| {
      if k != pos {
        assert e'.stack[k] == e.stack[k];
      }
    }
  }

  /** A flushed frame has no current item: the next step on it fails as the source's
      `stackState[0][0]` does, and it has no next item. */
  lemma FlushedFrameCannotRun(e: State, h: Handler)
    requires |e.stack| > 0
    ensures FlushData(e).Ok?
    ensures Step(FlushData(e).value, h) == Err(BadIndex)
    ensures HasNextData(FlushData(e).value) == Ok(false)
    ensures RemainingDataCount(FlushData(e).value) == Ok(-1)
  {
  }

  /** `hasNextData` says whether the frame is re-pushed with more items once its current
      item is done: always after PROCESS and POST, and after PRE once the range is
      exhausted. */
  lemma NextDataMatchesContinuation(e: State, stageLen: nat)
    requires |e.stack| > 0 && |Last(e.stack).path| > 0 && |TopItems(e)| > 0
    ensures
      var top := Last(e.stack);
      var limit: int := if top.data.bounds.stop.Some? then top.data.bounds.stop.value else stageLen - 1;
      top.phase != Pre || Last(top.path) >= limit ==>
        (HasNextData(e) == Ok(true) <==> |Continuation(top, stageLen)| == 1)
  {
  }

  /** `getRemainingDataCount` counts the items the re-pushed frame keeps, and is positive
      exactly when `hasNextData` holds. */
  lemma RemainingCountsNextData(e: State, stageLen: nat)
    requires |e.stack| > 0
    ensures HasNextData(e) == Ok(RemainingDataCount(e).value >= 1)
    ensures |Last(e.stack).path| > 0 && |TopItems(e)| > 0 && Last(e.stack).phase != Pre ==>
              var cont := Continuation(Last(e.stack), stageLen);
              |cont| == 1 ==> |cont[0].data.items| == RemainingDataCount(e).value
  {
  }

  // ---------------------------------------------------------------------------
  // Round trips of the data accessors
  // ---------------------------------------------------------------------------

  lemma WithTopItemsSame(e: State)
    requires |e.stack| > 0
    ensures WithTopItems(e, TopItems(e)) == e
  {
    assert DropLast(e.stack) + [Last(e.stack)] == e.stack;
  }

  /** `setData` then `getData` at the same offset yields the value set; writing back the
      value read changes nothing. */
  lemma SetGetRoundTrip(e: State, v: Item, offset: nat)
    ensures SetData(e, v, offset).Ok? ==> GetData(SetData(e, v, offset).value, offset) == Ok(v)
    ensures GetData(e, offset).Ok? ==> SetData(e, GetData(e, offset).value, offset) == Ok(e)
  {
    if GetData(e, offset).Ok? {
      assert TopItems(e)[offset := TopItems(e)[offset]] == TopItems(e);
      WithTopItemsSame(e);
    }
  }

  /** Inserting an item and removing it again, at the offset where `list.insert` put it,
      restores the state. */
  lemma AddRemoveRoundTrip(e: State, v: Item, offset: nat)
    requires |e.stack| > 0
    ensures
      var at := if offset < |TopItems(e)| then offset else |TopItems(e)|;
      RemoveData(AddData(e, v, offset).value, at) == Ok(e)
  {
    var items := TopItems(e);
    var at := if offset < |items| then offset else |items|;
    var e1 := AddData(e, v, offset).value;
    var ins := items[..at] + [v] + items[at..];
    assert TopItems(e1) == ins;
    assert ins[..at] + ins[at + 1..] == items;
    assert WithTopItems(e1, items) == WithTopItems(e, items);
    WithTopItemsSame(e);
  }

  /** Removing an item and inserting it back at the same offset restores the state. */
  lemma RemoveAddRoundTrip(e: State, offset: nat)
    requires |e.stack| > 0 && offset < |TopItems(e)|
    ensures AddData(RemoveData(e, offset).value, TopItems(e)[offset], offset) == Ok(e)
  {
    var items := TopItems(e);
    var e1 := RemoveData(e, offset).value;
    var rest := items[..offset] + items[offset + 1..];
    assert TopItems(e1) == rest;
    assert rest[..offset] + [items[offset]] + rest[offset..] == items;
    assert WithTopItems(e1, items) == WithTopItems(e, items);
    WithTopItemsSame(e);
  }

  // ---------------------------------------------------------------------------
  // Split and merge
  // ---------------------------------------------------------------------------

  /** Splitting the top PRE bunch at `k` and merging the two frames back restores the
      state exactly: the bunch, its bounds, its path and its phase. */
  lemma SplitMergeRoundTrip(e: State, k: int)
    requires |e.stack| > 0 && Last(e.stack).phase == Pre && |Last(e.stack).path| > 0
    requires 0 < k < |Last(e.stack).data.items|
    ensures SplitData(e, k).Ok?
    ensures MergeDataOnStack(SplitData(e, k).value, 2) == Ok(e)
  {
    var top := Last(e.stack);
    var s := SplitData(e, k).value;
    var n := |s.stack|;
    assert s.stack[..n - 2] == DropLast(e.stack);
    assert MergeCompatible(s.stack[n - 1], s.stack[n - 2], true);
    assert s.stack[n - 2..] == [s.stack[n - 2], s.stack[n - 1]];
    assert PopConcat(s.stack[n - 2..]) == top.data.items[..k] + top.data.items[k..];
    assert top.data.items[..k] + top.data.items[k..] == top.data.items;
    assert DropLast(e.stack) + [top] == e.stack;
  }

  /** As written, the round trip also holds while the range starts at the first
      sub-command, where resetting the index to 0 and to the start agree. */
  lemma SplitAsWrittenMergeAtZero(e: State, k: int)
    requires |e.stack| > 0 && Last(e.stack).phase == Pre && |Last(e.stack).path| > 0
    requires 0 < k < |Last(e.stack).data.items| && Last(e.stack).data.bounds.start == 0
    ensures MergeDataOnStack(SplitDataAsWritten(e, k), 2) == Ok(e)
  {
    assert SplitWith(e, k, false) == SplitWith(e, k, true);
    SplitMergeRoundTrip(e, k);
  }

  /** Finding: as written, `splitData` resets the lower frame's index to 0, which the
      merge rejects whenever the range starts after the first sub-command, so the two
      frames can never be merged back. */
  lemma SplitAsWrittenBreaksMerge(e: State, k: int)
    requires |e.stack| > 0 && Last(e.stack).phase == Pre && |Last(e.stack).path| > 0
    requires 0 < k < |Last(e.stack).data.items| && Last(e.stack).data.bounds.start > 0
    ensures MergeDataOnStack(SplitDataAsWritten(e, k), 2) == Err(MergeMismatch)
    ensures MergeDataOnStackAsWritten(SplitDataAsWritten(e, k), 2) == Err(MergeMismatch)
  {
    var s := SplitDataAsWritten(e, k);
    var n := |s.stack|;
    assert !MergeCompatible(s.stack[n - 1], s.stack[n - 2], true);
    assert !MergeCompatible(s.stack[n - 1], s.stack[n - 2], false);
  }

  /** Two PRE frames on path [0] with the same start but different stops. */
  function MismatchedStops(): State {
    State([[SubCommand(0, false, 0, 0, 0), SubCommand(1, false, 0, 0, 0)]],
          [Frame(Bunch([Num(2)], Bounds(0, None)), [0], Pre),
           Frame(Bunch([Num(1)], Bounds(0, Some(0))), [0], Pre)])
  }

  /** Finding: as written, the merge only rejects frames whose start AND stop both
      differ; it merges frames with equal starts and different stops, and the merged
      bunch silently takes the top frame's stop. The corrected merge rejects them. */
  lemma MergeAsWrittenAcceptsMismatch()
    ensures MergeDataOnStackAsWritten(MismatchedStops(), 2).Ok?
    ensures Last(MergeDataOnStackAsWritten(MismatchedStops(), 2).value.stack).data.bounds == Bounds(0, Some(0))
    ensures MergeDataOnStack(MismatchedStops(), 2) == Err(MergeMismatch)
  {
    var e := MismatchedStops();
    assert MergeCompatible(e.stack[1], e.stack[0], false);
    assert !MergeCompatible(e.stack[1], e.stack[0], true);
  }

  /** With matching bounds, the as-written and the corrected merge agree. */
  lemma MergeAgreesOnEqualBounds(e: State, count: int)
    requires forall k | 0 <= k < |e.stack| :: e.stack[k].data.bounds == Last(e.stack).data.bounds
    ensures MergeDataOnStackAsWritten(e, count) == MergeDataOnStack(e, count)
  {
    if 1 <= count <= |e.stack| {
      var n := |e.stack|;
      forall k | n - count <= k < n - 1
        ensures MergeCompatible(e.stack[n - 1], e.stack[k], false) == MergeCompatible(e.stack[n - 1], e.stack[k], true)
      {
      }
    }
  }

  // ---------------------------------------------------------------------------
  // The path aliasing of the deepest PRE
  // ---------------------------------------------------------------------------

  /** One stage of two sub-commands, one item on the first. */
  function TwoSiblings(): State {
    State([[SubCommand(0, false, 0, 0, 0), SubCommand(1, false, 0, 0, 0)]],
          [Frame(Bunch([Num(7)], Unbounded), [0], Pre)])
  }

  function Echo(): Handler {
    (id: nat, phase: Phase, useArgs: bool, it: Item) => Some([it])
  }

  /** Finding: as written, the PROCESS frame after the deepest PRE shares its path list
      with the re-pushed PRE frame, whose index then moves to the next sibling; the
      PROCESS of sub-command 0's output runs sub-command 1. Each frame keeping its own
      path, it runs sub-command 0. */
  lemma AliasedPathRunsWrongSibling()
    ensures StepWith(TwoSiblings(), Echo(), true).Ok?
    ensures Last(StepWith(TwoSiblings(), Echo(), true).value.next.stack) == Frame(Bunch([Num(7)], Unbounded), [1], Process)
    ensures Step(TwoSiblings(), Echo()).Ok?
    ensures Last(Step(TwoSiblings(), Echo()).value.next.stack) == Frame(Bunch([Num(7)], Unbounded), [0], Process)
  {
    var e := TwoSiblings();
    assert Runnable(e) && !WouldExceed(e);
    assert Continuation(Last(e.stack), 2) == [Frame(Bunch([Num(7)], Unbounded), [1], Pre)];
  }

  // ---------------------------------------------------------------------------
  // A complete run
  // ---------------------------------------------------------------------------

  function UpperChar(c: char): char {
    if 'a' <= c <= 'z' then (c as int - 32) as char else c
  }

  function Upper(s: string): string {
    seq(|s|, i requires 0 <= i < |s| => UpperChar(s[i]))
  }

  /** PRE turns the seed into "a" and "b", PROCESS appends "!", POST upper-cases. */
  function Shout(): Handler {
    (id: nat, phase: Phase, useArgs: bool, it: Item) =>
      match phase
      case Pre => Some([Str("a"), Str("b")])
      case Process => (if it.Str? then Some([Str(it.s + "!")]) else None)
      case Post => (if it.Str? then Some([Str(Upper(it.s))]) else None)
  }

  function OneSub(pre: nat, pro: nat, post: nat): seq<Stage> {
    [[SubCommand(0, false, pre, pro, post)]]
  }

  /** The stages after a step of the single sub-command `e.stages[0][0]` in `phase`. */
  lemma CountOne(e: State, phase: Phase)
    requires |e.stages| == 1 && |e.stages[0]| == 1
    ensures e.stages[0 := e.stages[0][0 := Count(e.stages[0][0], phase)]] == [[Count(e.stages[0][0], phase)]]
  {
    var x := Count(e.stages[0][0], phase);
    assert e.stages[0][0 := x] == [x];
  }

  // ---------------------------------------------------------------------------
  // Any run over one stage with a single sub-command
  // ---------------------------------------------------------------------------

  /** The handler, called for sub-command `id`, maps `x` through PROCESS to exactly one
      item, and POST accepts that item. */
  predicate OneToOne(h: Handler, id: nat, useArgs: bool, x: Item) {
    var pro := h(id, Process, useArgs, x);
    pro.Some? && |pro.value| == 1 && h(id, Post, useArgs, pro.value[0]).Some?
  }

  /** The POST output of the PROCESS output of `x`. */
  function Piped(h: Handler, id: nat, useArgs: bool, x: Item): seq<Item>
    requires OneToOne(h, id, useArgs, x)
  {
    h(id, Post, useArgs, h(id, Process, useArgs, x).value[0]).value
  }

  /** The POST output of the PROCESS output of each item of `xs`, in order. */
  function PipedAll(h: Handler, id: nat, useArgs: bool, xs: seq<Item>): seq<Item>
    requires forall i | 0 <= i < |xs| :: OneToOne(h, id, useArgs, xs[i])
  {
    if |xs| == 0 then [] else Piped(h, id, useArgs, xs[0]) + PipedAll(h, id, useArgs, xs[1..])
  }

  /** The single sub-command `c` with its PROCESS and POST counters moved on by `n`. */
  function Spent(c: SubCommand, n: nat): SubCommand {
    c.(proCount := c.proCount + n, postCount := c.postCount + n)
  }

  /** PROCESS still has the items `xs` to go through, and nothing else is on the stack. */
  function Draining(c: SubCommand, xs: seq<Item>): State {
    State([[c]], if |xs| == 0 then [] else [Frame(Bunch(xs, Unbounded), [0], Process)])
  }

  /** The seed frame's PRE call pushes its result as the PROCESS frame of the only stage. */
  lemma PreStep(c: SubCommand, h: Handler)
    requires CountersOk(c) && c.preCount < ExecutionLimit
    requires h(c.id, Pre, c.useArgs, NoneItem).Some?
    ensures var xs := h(c.id, Pre, c.useArgs, NoneItem).value;
            Step(State([[c]], [SeedFrame]), h) ==
              Ok(Outcome(State([[c.(preCount := c.preCount + 1)]], [Frame(Bunch(xs, Unbounded), [0], Process)]), []))
  {
    var e := State([[c]], [SeedFrame]);
    assert Runnable(e) && !WouldExceed(e);
    CountOne(e, Pre);
    assert Continuation(SeedFrame, 1) == [];
    var xs := h(c.id, Pre, c.useArgs, NoneItem).value;
    assert Next(e, xs, false) == State([[c.(preCount := c.preCount + 1)]], [Frame(Bunch(xs, Unbounded), [0], Process)]);
  }

  /** Between PROCESS and POST on the first item of `xs`: its PROCESS output waits as a
      POST frame above the rest of `xs`. */
  function Piping(c: SubCommand, h: Handler, xs: seq<Item>): State
    requires |xs| > 0 && OneToOne(h, c.id, c.useArgs, xs[0])
  {
    State([[c.(proCount := c.proCount + 1)]],
          Draining(c, xs[1..]).stack + [Frame(Bunch(h(c.id, Process, c.useArgs, xs[0]).value, Unbounded), [0], Post)])
  }

  /** PROCESS on the first item pushes its one result as a POST frame above the rest. */
  lemma ProcessStep(c: SubCommand, h: Handler, xs: seq<Item>)
    requires CountersOk(c) && c.proCount < ExecutionLimit
    requires |xs| > 0 && OneToOne(h, c.id, c.useArgs, xs[0])
    ensures Step(Draining(c, xs), h) == Ok(Outcome(Piping(c, h, xs), []))
  {
    var e := Draining(c, xs);
    assert Runnable(e) && !WouldExceed(e);
    CountOne(e, Process);
    var out := h(c.id, Process, c.useArgs, xs[0]).value;
    assert Continuation(e.stack[0], 1) == Draining(c, xs[1..]).stack;
    assert Next(e, out, false) == Piping(c, h, xs);
  }

  /** POST on the root frame hands its output out and leaves the rest to PROCESS. */
  lemma PostStep(c: SubCommand, h: Handler, xs: seq<Item>)
    requires CountersOk(c) && c.proCount < ExecutionLimit && c.postCount < ExecutionLimit
    requires |xs| > 0 && OneToOne(h, c.id, c.useArgs, xs[0])
    ensures Step(Piping(c, h, xs), h) == Ok(Outcome(Draining(Spent(c, 1), xs[1..]), Piped(h, c.id, c.useArgs, xs[0])))
  {
    var e := Piping(c, h, xs);
    assert Runnable(e) && !WouldExceed(e);
    CountOne(e, Post);
    assert Continuation(Last(e.stack), 1) == [];
    assert DropLast(e.stack) == Draining(Spent(c, 1), xs[1..]).stack;
    assert CurrentItem(e) == h(c.id, Process, c.useArgs, xs[0]).value[0];
    assert Next(e, Piped(h, c.id, c.useArgs, xs[0]), false) == Draining(Spent(c, 1), xs[1..]);
  }

  /** A run whose first step succeeds and whose rest succeeds hands out the first step's
      outputs and then the rest's. */
  lemma RunStepsOn(e: State, h: Handler, o: Outcome)
    requires WithinLimit(e) && |e.stack| > 0 && Step(e, h).Ok?
    requires Run(Step(e, h).value.next, h) == Ok(o)
    ensures Run(e, h) == Ok(Outcome(o.next, Step(e, h).value.emitted + o.emitted))
  {
    RunUnfolds(e, h);
  }

  /** PROCESS and then POST on the first item: the run hands out the item's POST output,
      then whatever the run over the remaining items hands out. */
  lemma DrainFirst(c: SubCommand, h: Handler, xs: seq<Item>, o: Outcome)
    requires CountersOk(c) && c.proCount < ExecutionLimit && c.postCount < ExecutionLimit
    requires |xs| > 0 && OneToOne(h, c.id, c.useArgs, xs[0])
    requires Run(Draining(Spent(c, 1), xs[1..]), h) == Ok(o)
    ensures Run(Draining(c, xs), h) == Ok(Outcome(o.next, Piped(h, c.id, c.useArgs, xs[0]) + o.emitted))
  {
    var piped := Piped(h, c.id, c.useArgs, xs[0]);
    ProcessStep(c, h, xs);
    PostStep(c, h, xs);
    assert Run(Piping(c, h, xs), h) == Ok(Outcome(o.next, piped + o.emitted)) by {
      RunStepsOn(Piping(c, h, xs), h, o);
    }
    RunStepsOn(Draining(c, xs), h, Outcome(o.next, piped + o.emitted));
    assert [] + (piped + o.emitted) == piped + o.emitted;
  }

  /** From PROCESS on, the run takes every item through PROCESS and then POST, one item
      after the other, and hands out their POST outputs in order. */
  lemma {:induction false} DrainRun(c: SubCommand, h: Handler, xs: seq<Item>)
    requires CountersOk(c) && c.proCount + |xs| <= ExecutionLimit && c.postCount + |xs| <= ExecutionLimit
    requires forall i | 0 <= i < |xs| :: OneToOne(h, c.id, c.useArgs, xs[i])
    ensures WithinLimit(Draining(c, xs))
    ensures Run(Draining(c, xs), h) == Ok(Outcome(Draining(Spent(c, |xs|), []), PipedAll(h, c.id, c.useArgs, xs)))
    decreases |xs|
  {
    assert WithinLimit(Draining(c, xs));
    if |xs| > 0 {
      DrainRun(Spent(c, 1), h, xs[1..]);
      assert Spent(Spent(c, 1), |xs| - 1) == Spent(c, |xs|);
      DrainFirst(c, h, xs, Outcome(Draining(Spent(c, |xs|), []), PipedAll(h, c.id, c.useArgs, xs[1..])));
    }
  }

  /** Any run over one stage with a single sub-command: the seed's PRE call yields `xs`;
      an empty `xs` leaves a frame with no current item and the run fails on it; otherwise
      each item of `xs` goes through PROCESS and then POST, the run hands out the POST
      output of the PROCESS output of each item in order, and each phase counter ends at
      the number of calls it took. */
  lemma RunOneStage(c: SubCommand, h: Handler)
    requires h(c.id, Pre, c.useArgs, NoneItem).Some?
    requires var xs := h(c.id, Pre, c.useArgs, NoneItem).value;
             |xs| <= ExecutionLimit && forall i | 0 <= i < |xs| :: OneToOne(h, c.id, c.useArgs, xs[i])
    ensures Init([[c]]).Ok?
    ensures var xs := h(c.id, Pre, c.useArgs, NoneItem).value;
            |xs| == 0 ==> Run(Init([[c]]).value, h) == Err(BadIndex)
    ensures var xs := h(c.id, Pre, c.useArgs, NoneItem).value;
            |xs| > 0 ==> && Run(Init([[c]]).value, h).Ok?
                         && Run(Init([[c]]).value, h).value.emitted == PipedAll(h, c.id, c.useArgs, xs)
                         && Run(Init([[c]]).value, h).value.next.stages == [[c.(preCount := 1, proCount := |xs|, postCount := |xs|)]]
  {
    var xs := h(c.id, Pre, c.useArgs, NoneItem).value;
    var e0 := Init([[c]]).value;
    var c0 := Reset(c);
    assert e0.stages[0][0] == c0;
    assert e0.stages[0] == [c0];
    assert e0.stages == [[c0]];
    assert e0 == State([[c0]], [SeedFrame]);
    PreStep(c0, h);
    var c1 := c0.(preCount := 1);
    var e1 := State([[c1]], [Frame(Bunch(xs, Unbounded), [0], Process)]);
    assert WithinLimit(e1);
    if |xs| == 0 {
      assert !Runnable(e1);
      RunUnfolds(e0, h);
    } else {
      assert e1 == Draining(c1, xs);
      DrainRun(c1, h, xs);
      assert Spent(c1, |xs|) == c.(preCount := 1, proCount := |xs|, postCount := |xs|);
      RunUnfolds(e0, h);
    }
  }

  /** `Shout` takes "a" and "b" through PROCESS and POST to "A!" and "B!". */
  lemma ShoutPiped()
    ensures var xs := Shout()(0, Pre, false, NoneItem).value;
            && xs == [Str("a"), Str("b")]
            && OneToOne(Shout(), 0, false, xs[0]) && OneToOne(Shout(), 0, false, xs[1])
            && PipedAll(Shout(), 0, false, xs) == [Str("A!"), Str("B!")]
  {
    var h, xs := Shout(), [Str("a"), Str("b")];
    assert "a" + "!" == "a!" && "b" + "!" == "b!";
    assert h(0, Process, false, xs[0]) == Some([Str("a!")]);
    assert h(0, Process, false, xs[1]) == Some([Str("b!")]);
    assert Upper("a!") == "A!" && Upper("b!") == "B!";
    assert Piped(h, 0, false, xs[1]) == [Str("B!")];
    assert PipedAll(h, 0, false, xs[1..]) == [Str("B!")];
  }

  /** One stage with a single sub-command: every item the PRE produces goes through
      PROCESS and then POST in order, and the run hands out "A!" then "B!". */
  lemma ShoutRun()
    ensures Init([[SubCommand(0, false, 3, 1, 4)]]).Ok?
    ensures Run(Init([[SubCommand(0, false, 3, 1, 4)]]).value, Shout()).Ok?
    ensures Run(Init([[SubCommand(0, false, 3, 1, 4)]]).value, Shout()).value.emitted == [Str("A!"), Str("B!")]
  {
    ShoutPiped();
    RunOneStage(SubCommand(0, false, 3, 1, 4), Shout());
  }
}
