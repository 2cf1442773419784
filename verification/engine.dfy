/** The pipeline execution engine (`engineV3`): a stack of frames
    (data bunch, command path, phase) driven by a deterministic step function,
    plus the mutation primitives a running command may call on the engine. */
module Engine {
  import opened Wrappers

  /** DEFAULT_EXECUTION_LIMIT: no phase counter of a sub-command may exceed it in one run. */
  const ExecutionLimit: nat := 255

  datatype Phase = Pre | Process | Post

  /** The values flowing between phases; `NoneItem` is the `None` seeding the first PRE. */
  datatype Item = NoneItem | Str(s: string) | Num(n: int)

  /** The optional `cmdStartIndex`/`cmdStopIndex` attributes of a bunch; an absent
      start reads as 0 and an absent stop as "up to the last sub-command". */
  datatype Bounds = Bounds(start: nat, stop: Option<nat>)

  const Unbounded: Bounds := Bounds(0, None)

  /** A MultiOutput: the pending items plus their sub-command range. */
  datatype Bunch = Bunch(items: seq<Item>, bounds: Bounds)

  datatype Frame = Frame(data: Bunch, path: seq<nat>, phase: Phase)

  /** One entry of a MultiCommand: which handlers to call, the useArgs flag, and the
      per-phase invocation counters. */
  datatype SubCommand = SubCommand(id: nat, useArgs: bool, preCount: nat, proCount: nat, postCount: nat)

  type Stage = seq<SubCommand>

  datatype State = State(stages: seq<Stage>, stack: seq<Frame>)

  datatype EngineError =
    | InitError
    | EmptyStack
      /** a Python IndexError: empty path, missing stage or sub-command, empty bunch */
    | BadIndex
      /** an explicit bound check of the source rejected an offset, depth or range */
    | OutOfBounds
    | NotPreProcess
    | MergeMismatch
    | LimitReached(path: seq<nat>, phase: Phase, item: Item)
    | HandlerFailed(path: seq<nat>, phase: Phase, item: Item)

  /** The phase bodies, abstract: (sub-command id, phase, useArgs, current item) to the
      returned MultiOutput, or None when the body raises. */
  type Handler = (nat, Phase, bool, Item) -> Option<seq<Item>>

  /** A successful step: the next state, and the items a root POST produced (the source
      drops them; the model keeps them so that runs can be observed). */
  datatype Outcome = Outcome(next: State, emitted: seq<Item>)

  /** The single frame the constructor pushes: `([None], [0], PRE)`. */
  const SeedFrame: Frame := Frame(Bunch([NoneItem], Unbounded), [0], Pre)

  // ---------------------------------------------------------------------------
  // Counters and the termination budget
  // ---------------------------------------------------------------------------

  function Reset(c: SubCommand): SubCommand {
    c.(preCount := 0, proCount := 0, postCount := 0)
  }

  function ResetStage(s: Stage): Stage {
    seq(|s|, i requires 0 <= i < |s| => Reset(s[i]))
  }

  /** The counter of `phase` incremented once. */
  function Count(c: SubCommand, phase: Phase): SubCommand {
    match phase
    case Pre => c.(preCount := c.preCount + 1)
    case Process => c.(proCount := c.proCount + 1)
    case Post => c.(postCount := c.postCount + 1)
  }

  predicate CountersOk(c: SubCommand) {
    c.preCount <= ExecutionLimit && c.proCount <= ExecutionLimit && c.postCount <= ExecutionLimit
  }

  /** Every counter of every sub-command is within the execution limit. */
  predicate WithinLimit(e: State) {
    forall d, i | 0 <= d < |e.stages| && 0 <= i < |e.stages[d]| :: CountersOk(e.stages[d][i])
  }

  /** Every frame's path reaches a depth between 1 and the number of stages. */
  predicate WellFormed(e: State) {
    forall k | 0 <= k < |e.stack| :: 0 < |e.stack[k].path| <= |e.stages|
  }

  function Sum<T>(s: seq<T>, f: T -> int): int {
    if |s| == 0 then 0 else f(s[0]) + Sum(s[1..], f)
  }

  /** How many more phase calls a sub-command may take before it exceeds the limit. */
  function SubSlack(c: SubCommand): int {
    3 * ExecutionLimit - c.preCount - c.proCount - c.postCount
  }

  function StageSlack(s: Stage): int {
    Sum(s, SubSlack)
  }

  /** The total number of phase calls the whole command tree can still take. */
  function Budget(stages: seq<Stage>): int {
    Sum(stages, StageSlack)
  }

  lemma {:induction false} SumUpdate<T>(s: seq<T>, f: T -> int, i: nat, x: T)
    requires i < |s|
    ensures Sum(s[i := x], f) == Sum(s, f) - f(s[i]) + f(x)
  {
    if i == 0 {
      assert s[i := x][1..] == s[1..];
    } else {
      assert s[i := x][1..] == s[1..][i - 1 := x];
      SumUpdate(s[1..], f, i - 1, x);
    }
  }

  lemma {:induction false} SumNonNegative<T>(s: seq<T>, f: T -> int)
    requires forall i | 0 <= i < |s| :: f(s[i]) >= 0
    ensures Sum(s, f) >= 0
  {
    if |s| > 0 {
      assert forall i | 0 <= i < |s[1..]| :: s[1..][i] == s[i + 1];
      SumNonNegative(s[1..], f);
    }
  }

  /** While every counter is within the limit, the budget is a natural number. */
  lemma BudgetNonNegative(e: State)
    requires WithinLimit(e)
    ensures Budget(e.stages) >= 0
  {
    forall d | 0 <= d < |e.stages|
      ensures StageSlack(e.stages[d]) >= 0
    {
      SumNonNegative(e.stages[d], SubSlack);
    }
    SumNonNegative(e.stages, StageSlack);
  }

  // ---------------------------------------------------------------------------
  // Construction (engine.py:25-48)
  // ---------------------------------------------------------------------------

  /** `engineV3(cmdList)`: rejects an empty command list, resets every counter and seeds
      the stack with the single frame `([None], [0], PRE)`. */
  function Init(stages: seq<Stage>): (r: Result<State, EngineError>)
    ensures r.Err? <==> |stages| == 0
    ensures r.Ok? ==> r.value.stack == [SeedFrame]
    ensures r.Ok? ==> |r.value.stages| == |stages|
    ensures r.Ok? ==> forall d | 0 <= d < |stages| ::
                        |r.value.stages[d]| == |stages[d]|
                        && forall i | 0 <= i < |stages[d]| ::
                             r.value.stages[d][i].id == stages[d][i].id
                             && r.value.stages[d][i].useArgs == stages[d][i].useArgs
                             && r.value.stages[d][i].preCount == 0
                             && r.value.stages[d][i].proCount == 0
                             && r.value.stages[d][i].postCount == 0
    ensures r.Ok? ==> WithinLimit(r.value) && WellFormed(r.value)
  {
    if |stages| == 0 then Err(InitError)
    else Ok(State(seq(|stages|, d requires 0 <= d < |stages| => ResetStage(stages[d])), [SeedFrame]))
  }

  // ---------------------------------------------------------------------------
  // The step function (engine.py:431-522)
  // ---------------------------------------------------------------------------

  /** The top frame can be executed: its path selects an existing stage and sub-command
      and its bunch has a current item. */
  predicate Runnable(e: State) {
    && |e.stack| > 0
    && 0 < |Last(e.stack).path| <= |e.stages|
    && Last(Last(e.stack).path) < |e.stages[|Last(e.stack).path| - 1]|
    && |Last(e.stack).data.items| > 0
  }

  function CurrentSub(e: State): SubCommand
    requires Runnable(e)
  {
    var top := Last(e.stack);
    e.stages[|top.path| - 1][Last(top.path)]
  }

  function CurrentItem(e: State): Item
    requires Runnable(e)
  {
    Last(e.stack).data.items[0]
  }

  function WithLast(path: seq<nat>, v: nat): (r: seq<nat>)
    requires |path| > 0
    ensures |r| == |path| && DropLast(r) == DropLast(path) && Last(r) == v
  {
    DropLast(path) + [v]
  }

  /** The re-push of the executed frame (engine.py:492-518). */
  function Continuation(top: Frame, stageLen: nat): seq<Frame>
    requires |top.path| > 0 && |top.data.items| > 0
  {
    var items := top.data.items;
    var b := top.data.bounds;
    if top.phase != Pre then
      if |items| > 1 then [Frame(Bunch(items[1..], b), top.path, top.phase)] else []
    else
      var idx := Last(top.path);
      var limit: int := if b.stop.Some? then b.stop.value else stageLen - 1;
      if idx < limit then
        if |items| > 0 then [top.(path := WithLast(top.path, idx + 1))] else []
      else if |items| > 1 then
        [Frame(Bunch(items[1..], b), WithLast(top.path, b.start), Pre)]
      else []
  }

  /** The frame built from the phase's result (engine.py:453-475); `processPath` is the
      path object the PROCESS frame is pushed with after the deepest PRE. */
  function Produced(top: Frame, out: seq<Item>, stageCount: nat, processPath: seq<nat>): seq<Frame>
    requires |top.path| > 0
  {
    match top.phase
    case Pre =>
      if |top.path| == stageCount then [Frame(Bunch(out, Unbounded), processPath, Process)]
      else [Frame(Bunch(out, Unbounded), top.path + [0], Pre)]
    case Process => [Frame(Bunch(out, Unbounded), top.path, Post)]
    case Post =>
      if |top.path| > 1 then [Frame(Bunch(out, Unbounded), DropLast(top.path), Post)] else []
  }

  /** Whether the source's guard fires: some counter of the sub-command passed the limit. */
  predicate WouldExceed(e: State)
    requires Runnable(e)
  {
    !CountersOk(Count(CurrentSub(e), Last(e.stack).phase))
  }

  /** The state after the top frame's phase returned `out` and passed the limit check:
      the executed frame is replaced by its continuation, with the result frame on top.
      With `aliased`, the PROCESS frame produced by the deepest PRE shares its path with
      the continuation frame, whose last index the continuation logic then overwrites,
      as the Python list aliasing does. */
  function Next(e: State, out: seq<Item>, aliased: bool): State
    requires Runnable(e)
  {
    var top := Last(e.stack);
    var d := |top.path| - 1;
    var cont := Continuation(top, |e.stages[d]|);
    var processPath := if aliased && |cont| > 0 then cont[0].path else top.path;
    State(e.stages[d := e.stages[d][Last(top.path) := Count(CurrentSub(e), top.phase)]],
          DropLast(e.stack) + cont + Produced(top, out, |e.stages|, processPath))
  }

  /** One iteration of `execute`, parameterised by the path aliasing of `Next`. */
  function StepWith(e: State, h: Handler, aliased: bool): (r: Result<Outcome, EngineError>)
    requires |e.stack| > 0
    ensures !Runnable(e) ==> r == Err(BadIndex)
    ensures Runnable(e) ==>
              var top := Last(e.stack);
              var call := h(CurrentSub(e).id, top.phase, CurrentSub(e).useArgs, CurrentItem(e));
              && (call.None? ==> r == Err(HandlerFailed(top.path, top.phase, CurrentItem(e))))
              && (call.Some? && WouldExceed(e) ==> r == Err(LimitReached(top.path, top.phase, CurrentItem(e))))
              && (call.Some? && !WouldExceed(e) ==> r.Ok? && r.value.next == Next(e, call.value, aliased))
  {
    if !Runnable(e) then Err(BadIndex)
    else
      var top := Last(e.stack);
      var sub := CurrentSub(e);
      var item := CurrentItem(e);
      match h(sub.id, top.phase, sub.useArgs, item)
      case None => Err(HandlerFailed(top.path, top.phase, item))
      case Some(out) =>
        var sub' := Count(sub, top.phase);
        if sub'.preCount > ExecutionLimit || sub'.proCount > ExecutionLimit || sub'.postCount > ExecutionLimit then
          Err(LimitReached(top.path, top.phase, item))
        else
          Ok(Outcome(Next(e, out, aliased), if top.phase == Post && |top.path| == 1 then out else []))
  }

  /** One iteration of `execute`, with each frame keeping its own path. */
  function Step(e: State, h: Handler): Result<Outcome, EngineError>
    requires |e.stack| > 0
  {
    StepWith(e, h, false)
  }

  /** Each successful step spends exactly one unit of the budget. */
  lemma NextSpendsBudget(e: State, out: seq<Item>, aliased: bool)
    requires Runnable(e)
    ensures Budget(Next(e, out, aliased).stages) == Budget(e.stages) - 1
  {
    var top := Last(e.stack);
    var d := |top.path| - 1;
    var sub' := Count(CurrentSub(e), top.phase);
    SumUpdate(e.stages[d], SubSlack, Last(top.path), sub');
    SumUpdate(e.stages, StageSlack, d, e.stages[d][Last(top.path) := sub']);
  }

  /** A step that passed the limit check keeps every counter within the limit. */
  lemma NextKeepsLimit(e: State, out: seq<Item>, aliased: bool)
    requires Runnable(e) && WithinLimit(e) && !WouldExceed(e)
    ensures WithinLimit(Next(e, out, aliased))
    ensures |Next(e, out, aliased).stages| == |e.stages|
  {
  }

  /** Paths stay between depth 1 and the number of stages. */
  lemma NextKeepsWellFormed(e: State, out: seq<Item>, aliased: bool)
    requires Runnable(e) && WellFormed(e)
    ensures WellFormed(Next(e, out, aliased))
  {
    var top := Last(e.stack);
    var cont := Continuation(top, |e.stages[|top.path| - 1]|);
    var next := Next(e, out, aliased);
    assert forall k | 0 <= k < |cont| :: |cont[k].path| == |top.path|;
    forall k | 0 <= k < |next.stack|
      ensures 0 < |next.stack[k].path| <= |next.stages|
    {
      if k < |e.stack| - 1 {
        assert next.stack[k] == e.stack[k];
      }
    }
  }

  /** `execute()`: steps until the stack is empty. Every successful step spends one unit of
      the budget, so every run ends, with an empty stack or with the first error. */
  function Run(e: State, h: Handler): (r: Result<Outcome, EngineError>)
    requires WithinLimit(e)
    ensures r.Ok? ==> r.value.next.stack == []
    ensures r.Ok? ==> |r.value.next.stages| == |e.stages|
    ensures |e.stack| == 0 ==> r == Ok(Outcome(e, []))
    decreases Budget(e.stages)
  {
    if |e.stack| == 0 then Ok(Outcome(e, []))
    else
      match Step(e, h)
      case Err(x) => Err(x)
      case Ok(o) =>
        var out := h(CurrentSub(e).id, Last(e.stack).phase, CurrentSub(e).useArgs, CurrentItem(e)).value;
        NextSpendsBudget(e, out, false);
        NextKeepsLimit(e, out, false);
        BudgetNonNegative(e);
        match Run(o.next, h)
        case Err(x) => Err(x)
        case Ok(rest) => Ok(Outcome(rest.next, o.emitted + rest.emitted))
  }

  // ---------------------------------------------------------------------------
  // Mutation primitives on the stack (engine.py:52-312)
  // ---------------------------------------------------------------------------

  /** `skipNextCommandOnTheCurrentData(skip)`: moves the top PRE frame's sub-command
      index forward by `skip` (engine.py:52-60). */
  function SkipNextCommand(e: State, skip: nat): (r: Result<State, EngineError>)
    ensures |e.stack| == 0 ==> r == Err(EmptyStack)
    ensures |e.stack| > 0 && Last(e.stack).phase != Pre ==> r == Err(NotPreProcess)
    ensures |e.stack| > 0 && Last(e.stack).phase == Pre ==> (r.Ok? <==> |Last(e.stack).path| > 0)
    ensures |e.stack| > 0 && Last(e.stack).phase == Pre && |Last(e.stack).path| == 0 ==> r == Err(BadIndex)
    ensures r.Ok? ==> |e.stack| > 0 && |Last(e.stack).path| > 0
                      && |r.value.stack| == |e.stack| && r.value.stages == e.stages
                      && DropLast(r.value.stack) == DropLast(e.stack)
                      && Last(r.value.stack).data == Last(e.stack).data
                      && Last(r.value.stack).phase == Pre
                      && |Last(r.value.stack).path| == |Last(e.stack).path|
                      && DropLast(Last(r.value.stack).path) == DropLast(Last(e.stack).path)
                      && Last(Last(r.value.stack).path) == Last(Last(e.stack).path) + skip
  {
    if |e.stack| == 0 then Err(EmptyStack)
    else
      var top := Last(e.stack);
      if top.phase != Pre then Err(NotPreProcess)
      else if |top.path| == 0 then Err(BadIndex)
      else Ok(e.(stack := DropLast(e.stack) + [top.(path := WithLast(top.path, Last(top.path) + skip))]))
  }

  /** `addSubCommand(cmd, onlyAddOnce, useArgs)`: appends a sub-command to the stage of the
      top frame, provided its new index lies inside the top bunch's range
      (engine.py:76-104). */
  function AddSubCommand(e: State, id: nat, useArgs: bool): (r: Result<State, EngineError>)
    ensures |e.stack| == 0 ==> r == Err(EmptyStack)
    ensures r.Ok? ==> |e.stack| > 0 && 0 < |Last(e.stack).path| <= |e.stages|
    ensures r.Ok? && |e.stack| > 0 && 0 < |Last(e.stack).path| <= |e.stages| ==>
              var top := Last(e.stack);
              var d := |top.path| - 1;
              var newIndex := |e.stages[d]|;
              && top.data.bounds.start <= newIndex
              && (top.data.bounds.stop.Some? ==> newIndex <= top.data.bounds.stop.value)
              && r.value.stack == e.stack
              && |r.value.stages| == |e.stages|
              && r.value.stages[d] == e.stages[d] + [SubCommand(id, useArgs, 0, 0, 0)]
              && forall k | 0 <= k < |e.stages| && k != d :: r.value.stages[k] == e.stages[k]
    ensures |e.stack| > 0 && 0 < |Last(e.stack).path| <= |e.stages| ==>
              var top := Last(e.stack);
              var newIndex := |e.stages[|top.path| - 1]|;
              (r.Err? <==> newIndex < top.data.bounds.start
                           || (top.data.bounds.stop.Some? && top.data.bounds.stop.value < newIndex))
  {
    if |e.stack| == 0 then Err(EmptyStack)
    else
      var top := Last(e.stack);
      if |top.path| == 0 || |top.path| - 1 >= |e.stages| then Err(BadIndex)
      else
        var d := |top.path| - 1;
        var newIndex := |e.stages[d]|;
        var b := top.data.bounds;
        if newIndex < b.start || (b.stop.Some? && b.stop.value < newIndex) then Err(OutOfBounds)
        else Ok(e.(stages := e.stages[d := e.stages[d] + [SubCommand(id, useArgs, 0, 0, 0)]]))
  }

  /** `addCommand(cmd)`: appends a reset stage, deepening the command tree (engine.py:106-111). */
  function AddCommand(e: State, stage: Stage): (r: State)
    ensures r.stack == e.stack
    ensures |r.stages| == |e.stages| + 1 && r.stages[..|e.stages|] == e.stages
    ensures |Last(r.stages)| == |stage|
    ensures forall i | 0 <= i < |stage| :: Last(r.stages)[i] == SubCommand(stage[i].id, stage[i].useArgs, 0, 0, 0)
    ensures WithinLimit(e) ==> WithinLimit(r)
  {
    e.(stages := e.stages + [ResetStage(stage)])
  }

  /** `setCmdRange(firstCmd, cmdLength, dataDepth)`: restricts the PRE bunch `depth` frames
      below the top to the sub-commands `firstCmd .. firstCmd + cmdLength - 1` (no stop
      when `cmdLength` is None); the range must enclose the frame's current index
      (engine.py:217-269). */
  function SetCmdRange(e: State, firstCmd: nat, cmdLength: Option<int>, depth: int): (r: Result<State, EngineError>)
    ensures |e.stack| == 0 ==> r == Err(EmptyStack)
    ensures |e.stack| > 0 && (depth < 0 || depth >= |e.stack|) ==> r == Err(OutOfBounds)
    ensures 0 <= depth < |e.stack| && e.stack[|e.stack| - 1 - depth].phase != Pre ==> r == Err(NotPreProcess)
    ensures 0 <= depth < |e.stack| && e.stack[|e.stack| - 1 - depth].phase == Pre
            && 0 < |e.stack[|e.stack| - 1 - depth].path| <= |e.stages| ==>
              var f := e.stack[|e.stack| - 1 - depth];
              var stageLen := |e.stages[|f.path| - 1]|;
              (r.Ok? <==> && firstCmd < stageLen && firstCmd <= Last(f.path)
                          && (cmdLength.Some? ==> firstCmd + cmdLength.value <= stageLen
                                                  && Last(f.path) <= firstCmd + cmdLength.value - 1))
              && (r.Err? ==> r == Err(OutOfBounds))
    ensures r.Ok? ==> 0 <= depth < |e.stack| == |r.value.stack|
                      && 0 < |e.stack[|e.stack| - 1 - depth].path| <= |e.stages|
    ensures r.Ok? && 0 <= depth < |e.stack| == |r.value.stack| && 0 < |e.stack[|e.stack| - 1 - depth].path| <= |e.stages| ==>
              var pos := |e.stack| - 1 - depth;
              var f := e.stack[pos];
              var g := r.value.stack[pos];
              var stageLen := |e.stages[|f.path| - 1]|;
              && f.phase == Pre
              && r.value.stages == e.stages
              && (forall k | 0 <= k < |e.stack| && k != pos :: r.value.stack[k] == e.stack[k])
              && g.path == f.path && g.phase == f.phase && g.data.items == f.data.items
              && g.data.bounds.start == firstCmd
              && firstCmd <= Last(f.path) && firstCmd < stageLen
              && (cmdLength.None? <==> g.data.bounds.stop.None?)
              && (g.data.bounds.stop.Some? ==>
                    && g.data.bounds.stop.value == firstCmd + cmdLength.value - 1
                    && Last(f.path) <= g.data.bounds.stop.value < stageLen)
  {
    if |e.stack| == 0 then Err(EmptyStack)
    else if depth < 0 || depth > |e.stack| - 1 then Err(OutOfBounds)
    else
      var pos := |e.stack| - 1 - depth;
      var f := e.stack[pos];
      if f.phase != Pre then Err(NotPreProcess)
      else if |f.path| == 0 || |f.path| > |e.stages| then Err(BadIndex)
      else
        var stageLen := |e.stages[|f.path| - 1]|;
        var cur := Last(f.path);
        if firstCmd >= stageLen then Err(OutOfBounds)
        else if cmdLength.Some? && firstCmd + cmdLength.value > stageLen then Err(OutOfBounds)
        else if cur < firstCmd || (cmdLength.Some? && firstCmd + cmdLength.value - 1 < cur) then Err(OutOfBounds)
        else
          var stop: Option<nat> := if cmdLength.Some? then Some(firstCmd + cmdLength.value - 1) else None;
          Ok(e.(stack := e.stack[pos := f.(data := f.data.(bounds := Bounds(firstCmd, stop)))]))
  }

  /** `splitData(at)`: replaces the top PRE frame by two frames, its items from `at` on
      below its items before `at`, both keeping the bounds; the lower frame's sub-command
      index is reset to the first index of the range (`0` as written when
      `resetToStart` is false) (engine.py:271-312). */
  function SplitWith(e: State, at: int, resetToStart: bool): (r: Result<State, EngineError>)
  {
    if |e.stack| == 0 then Err(EmptyStack)
    else
      var top := Last(e.stack);
      var items := top.data.items;
      if top.phase != Pre then Err(NotPreProcess)
      else if at < 0 || at > |items| - 1 then Err(OutOfBounds)
      else if |items| < 2 || at == 0 then Ok(e)
      else if |top.path| == 0 then Err(BadIndex)
      else
        var b := top.data.bounds;
        var back := Frame(Bunch(items[at..], b), WithLast(top.path, if resetToStart then b.start else 0), Pre);
        var front := Frame(Bunch(items[..at], b), top.path, Pre);
        Ok(e.(stack := DropLast(e.stack) + [back, front]))
  }

  function SplitData(e: State, at: int): (r: Result<State, EngineError>)
    ensures |e.stack| == 0 ==> r == Err(EmptyStack)
    ensures |e.stack| > 0 && Last(e.stack).phase != Pre ==> r == Err(NotPreProcess)
    ensures |e.stack| > 0 && Last(e.stack).phase == Pre ==>
              (r == Err(OutOfBounds) <==> at < 0 || at >= |Last(e.stack).data.items|)
    ensures |e.stack| > 0 && Last(e.stack).phase == Pre && at == 0 < |Last(e.stack).data.items| ==> r == Ok(e)
    ensures |e.stack| > 0 && Last(e.stack).phase == Pre && 0 < at < |Last(e.stack).data.items| && |Last(e.stack).path| > 0 ==>
              r.Ok? && |r.value.stack| == |e.stack| + 1
    ensures r.Ok? ==> r.value.stages == e.stages
    ensures r.Ok? && r.value != e ==>
              var top := Last(e.stack);
              var n := |e.stack|;
              && |r.value.stack| == n + 1
              && r.value.stack[..n - 1] == e.stack[..n - 1]
              && r.value.stack[n - 1].data.items + r.value.stack[n].data.items
                   == top.data.items[at..] + top.data.items[..at]
              && r.value.stack[n].data.items == top.data.items[..at]
              && r.value.stack[n].path == top.path
              && r.value.stack[n - 1].data.bounds == top.data.bounds == r.value.stack[n].data.bounds
              && r.value.stack[n - 1].phase == Pre == r.value.stack[n].phase
              && |r.value.stack[n - 1].path| == |top.path| > 0
              && DropLast(r.value.stack[n - 1].path) == DropLast(top.path)
              && Last(r.value.stack[n - 1].path) == top.data.bounds.start
  {
    SplitWith(e, at, true)
  }

  function SplitDataAsWritten(e: State, at: int): State
  {
    match SplitWith(e, at, false)
    case Ok(s) => s
    case Err(_) => e
  }

  /** The items of `frames` (bottom to top) in the order the merge pops them: top first. */
  function PopConcat(frames: seq<Frame>): (r: seq<Item>)
    ensures |frames| == 1 ==> r == frames[0].data.items
    ensures multiset(r) == MergedItems(frames)
  {
    if |frames| == 0 then [] else Last(frames).data.items + PopConcat(DropLast(frames))
  }

  /** The multiset of all items of `frames`, for the permutation property of merging. */
  ghost function MergedItems(frames: seq<Frame>): multiset<Item> {
    if |frames| == 0 then multiset{} else MergedItems(DropLast(frames)) + multiset(Last(frames).data.items)
  }

  /** The comparison the merge makes between a lower frame and the top frame
      (engine.py:176-205). With `strict`, the bounds must be equal; as written, the merge
      only fails when both the start and the stop differ. */
  predicate MergeCompatible(top: Frame, f: Frame, strict: bool) {
    && (if strict then f.data.bounds == top.data.bounds
        else f.data.bounds.start == top.data.bounds.start || f.data.bounds.stop == top.data.bounds.stop)
    && |f.path| == |top.path|
    && |f.path| > 0
    && DropLast(f.path) == DropLast(top.path)
    && Last(f.path) == f.data.bounds.start
    && f.phase == top.phase
  }

  /** `mergeDataOnStack(count)`: pops the `count` topmost frames and pushes one frame with
      their items concatenated in pop order, keeping the top frame's path, phase and
      bounds (engine.py:153-215). */
  function MergeWith(e: State, count: int, strict: bool): (r: Result<State, EngineError>)
  {
    if count < 1 then Ok(e)
    else if |e.stack| < count then Err(OutOfBounds)
    else
      var n := |e.stack|;
      var top := e.stack[n - 1];
      if forall k | n - count <= k < n - 1 :: MergeCompatible(top, e.stack[k], strict) then
        Ok(e.(stack := e.stack[..n - count] + [Frame(Bunch(PopConcat(e.stack[n - count..]), top.data.bounds), top.path, top.phase)]))
      else Err(MergeMismatch)
  }

  function MergeDataOnStack(e: State, count: int): (r: Result<State, EngineError>)
    ensures count < 1 ==> r == Ok(e)
    ensures 1 <= count && |e.stack| < count ==> r == Err(OutOfBounds)
    ensures 1 <= count <= |e.stack| ==>
              (r.Ok? <==> forall k | |e.stack| - count <= k < |e.stack| - 1 ::
                            && e.stack[k].data.bounds == Last(e.stack).data.bounds
                            && e.stack[k].phase == Last(e.stack).phase
                            && |e.stack[k].path| == |Last(e.stack).path|
                            && |e.stack[k].path| > 0
                            && DropLast(e.stack[k].path) == DropLast(Last(e.stack).path)
                            && Last(e.stack[k].path) == e.stack[k].data.bounds.start)
    ensures r.Ok? && count >= 1 ==>
              var n := |e.stack|;
              && |r.value.stack| == n - count + 1
              && var m := Last(r.value.stack);
              && r.value.stack[..n - count] == e.stack[..n - count]
              && m.path == Last(e.stack).path
              && m.phase == Last(e.stack).phase
              && m.data.bounds == Last(e.stack).data.bounds
              && m.data.items == PopConcat(e.stack[n - count..])
              && multiset(m.data.items) == MergedItems(e.stack[n - count..])
              && r.value.stages == e.stages
  {
    MergeWith(e, count, true)
  }

  function MergeDataOnStackAsWritten(e: State, count: int): Result<State, EngineError>
  {
    MergeWith(e, count, false)
  }

  // ---------------------------------------------------------------------------
  // Accessors on the top bunch (engine.py:115-151, 352-377)
  // ---------------------------------------------------------------------------

  function WithTopItems(e: State, items: seq<Item>): State
    requires |e.stack| > 0
  {
    var top := Last(e.stack);
    e.(stack := DropLast(e.stack) + [top.(data := top.data.(items := items))])
  }

  function TopItems(e: State): seq<Item>
    requires |e.stack| > 0
  {
    Last(e.stack).data.items
  }

  /** `e'` differs from `e` at most in the items of the top bunch: the stages, the frames
      below, and the top frame's path, phase and bounds are the same. */
  predicate OnlyTopItemsChanged(e: State, e': State) {
    && e'.stages == e.stages
    && |e'.stack| == |e.stack| > 0
    && DropLast(e'.stack) == DropLast(e.stack)
    && Last(e'.stack).path == Last(e.stack).path
    && Last(e'.stack).phase == Last(e.stack).phase
    && Last(e'.stack).data.bounds == Last(e.stack).data.bounds
  }

  function GetData(e: State, offset: nat): (r: Result<Item, EngineError>)
    ensures |e.stack| == 0 ==> r == Err(EmptyStack)
    ensures |e.stack| > 0 ==> (r.Ok? <==> offset < |TopItems(e)|)
    ensures r.Ok? ==> r.value in TopItems(e)
  {
    if |e.stack| == 0 then Err(EmptyStack)
    else if offset >= |TopItems(e)| then Err(OutOfBounds)
    else Ok(TopItems(e)[offset])
  }

  function SetData(e: State, v: Item, offset: nat): (r: Result<State, EngineError>)
    ensures |e.stack| == 0 ==> r == Err(EmptyStack)
    ensures |e.stack| > 0 ==> (r.Ok? <==> offset < |TopItems(e)|)
    ensures r.Ok? ==> OnlyTopItemsChanged(e, r.value)
                      && |TopItems(r.value)| == |TopItems(e)|
                      && TopItems(r.value)[offset] == v
                      && forall i | 0 <= i < |TopItems(e)| && i != offset :: TopItems(r.value)[i] == TopItems(e)[i]
  {
    if |e.stack| == 0 then Err(EmptyStack)
    else if offset >= |TopItems(e)| then Err(OutOfBounds)
    else Ok(WithTopItems(e, TopItems(e)[offset := v]))
  }

  /** `addData(v, offset)`: Python's `list.insert`, which appends when `offset` is past the end. */
  function AddData(e: State, v: Item, offset: nat): (r: Result<State, EngineError>)
    ensures |e.stack| == 0 <==> r.Err?
    ensures r.Ok? ==>
              var at := if offset < |TopItems(e)| then offset else |TopItems(e)|;
              && OnlyTopItemsChanged(e, r.value)
              && |TopItems(r.value)| == |TopItems(e)| + 1
              && TopItems(r.value)[at] == v
              && TopItems(r.value)[..at] == TopItems(e)[..at]
              && TopItems(r.value)[at + 1..] == TopItems(e)[at..]
  {
    if |e.stack| == 0 then Err(EmptyStack)
    else
      var items := TopItems(e);
      var at := if offset < |items| then offset else |items|;
      Ok(WithTopItems(e, items[..at] + [v] + items[at..]))
  }

  function RemoveData(e: State, offset: int): (r: Result<State, EngineError>)
    ensures |e.stack| == 0 ==> r == Err(EmptyStack)
    ensures |e.stack| > 0 ==> (r.Ok? <==> 0 <= offset < |TopItems(e)|)
    ensures r.Ok? ==>
              && OnlyTopItemsChanged(e, r.value)
              && |TopItems(r.value)| == |TopItems(e)| - 1
              && TopItems(r.value) == TopItems(e)[..offset] + TopItems(e)[offset + 1..]
  {
    if |e.stack| == 0 then Err(EmptyStack)
    else if offset >= |TopItems(e)| || offset < 0 then Err(OutOfBounds)
    else Ok(WithTopItems(e, TopItems(e)[..offset] + TopItems(e)[offset + 1..]))
  }

  function FlushData(e: State): (r: Result<State, EngineError>)
    ensures |e.stack| == 0 <==> r.Err?
    ensures r.Ok? ==> OnlyTopItemsChanged(e, r.value) && TopItems(r.value) == []
  {
    if |e.stack| == 0 then Err(EmptyStack) else Ok(WithTopItems(e, []))
  }

  /** Whether an item follows the current one. */
  function HasNextData(e: State): (r: Result<bool, EngineError>)
    ensures |e.stack| == 0 <==> r.Err?
    ensures r.Ok? ==> (r.value <==> |TopItems(e)| >= 2)
  {
    if |e.stack| == 0 then Err(EmptyStack) else Ok(|TopItems(e)| > 1)
  }

  /** The number of items after the current one (-1 for an empty bunch, as in the source). */
  function RemainingDataCount(e: State): (r: Result<int, EngineError>)
    ensures |e.stack| == 0 <==> r.Err?
    ensures r.Ok? ==> r.value + 1 == |TopItems(e)|
  {
    if |e.stack| == 0 then Err(EmptyStack) else Ok(|TopItems(e)| - 1)
  }
}
