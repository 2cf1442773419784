# pyshell core in Dafny

A model of the core of pyshell, an interactive command shell written in Python 2. The model covers six parts:

- **`engineV3`.** The pipeline execution engine (`pyshell/command/engine.py`). It is a stack of frames. Each frame holds a data bunch, a command path and a phase (PRE, PROCESS or POST). The engine runs one sub-command phase per iteration, fans results out over data items and sibling sub-commands, and stops a run when a phase counter passes 255. It also offers the primitives a running command may call: skip, add a sub-command, add a stage, set a command range, split and merge bunches, and the data accessors.
- **Argument checkers.** From `pyshell/arg/argchecker.py`: the `ArgChecker` base class (sizes and defaults) plus the string, integer, hexadecimal, binary, limited-integer, default-value and list checkers.
- **`ArgFeeder`.** From `pyshell/arg/argfeeder.py`. It binds a token list to an ordered dictionary of checkers and renders the usage line.
- **The `shellMethod` decorator.** From `pyshell/arg/decorator.py`. It pairs a function's parameters with keyword checkers and with the function's own defaults.
- **The loader registry.** `GlobalLoader` from `pyshell/loader/utils.py`: loaders per profile, and load, unload and reload in priority order with the profile state machine.
- **The dependency loader.** From `pyshell/loader/dependancies.py`.

Each Python class becomes a datatype. Each operation becomes a pure function. A Python exception becomes an `Err` of a `Result`. The engine's `execute` loop becomes a step function `Step` and a terminating `Run`. Phase bodies, loaders and value conversions are passed in as function values.

Files:

| file | contents |
|---|---|
| `wrappers.dfy`, `seqs.dfy`, `arith.dfy` | `Option`/`Result`, sequence helpers, small arithmetic facts |
| `engine.dfy`, `engine_lemmas.dfy` | the engine, and its properties |
| `argchecker.dfy`, `argchecker_lemmas.dfy` | the checkers, and their properties |
| `argfeeder.dfy`, `argfeeder_lemmas.dfy` | the feeder, and its properties |
| `decorator.dfy`, `decorator_lemmas.dfy` | the decorator, and its properties |
| `loader.dfy`, `loader_lemmas.dfy` | `GlobalLoader`, and its properties |
| `dependencies.dfy`, `dependencies_lemmas.dfy` | the dependency loader, and its properties |

Where the code does not run as written, the model follows the evident intent:

- **Misspelled stop-index names.** In `addSubCommand`, `mergeDataOnStack`, `setCmdRange` and `splitData`, the bunch's stop index is read into a misspelled variable (engine.py:95, 174, 186, 260, 296). The model uses the bunch's `cmdStopIndex`.
- **Undefined names.** Line 249 reads `top` and lines 255/291 read `topData`, none of which are defined there. The model reads the frame being changed.
- **`splitData` syntax error.** Line 286 writes `=` where `==` is meant.
- **Wrong merge loop variable.** Line 197 compares `path[i]` where `path[j]` is meant.
- **Merge concatenates whole frames.** Line 211 extends the bunch with the popped frame instead of its data, and line 215 is missing a parenthesis. The model concatenates the popped bunches.
- **`executeMethod` arity.** Lines 449, 462 and 470 call `executeMethod` with three arguments, but its definition (line 524) takes four. The model calls the phase body with the sub-command's id, the phase, `useArgs` and the current item.
- **Continuations keep the range.** Lines 495 and 518 re-push `top[0][1:]`, a plain list slice, so the bunch would lose its `cmdStartIndex`/`cmdStopIndex` (the TODO at lines 12-15 warns of this). The model's continuation keeps the bunch's bounds.
- **Findings below.** Five further defects are logged under "## Findings". Each has an as-written member and a corrected one.

Two behaviours of the code that are easy to miss:

- **Insertion at offset 0.** `addData` inserts at any offset, 0 included, wherever Python's `list.insert` puts it.
- **Empty stages.** `__init__` rejects only a missing, non-list or empty command list (engine.py:26-27). A stage without sub-commands is accepted and fails later with an index error.

## Model

| member | source | states |
|---|---|---|
| Engine.Init | pyshell/command/engine.py:25-48 | Construction fails exactly for an empty command list. Otherwise every sub-command keeps its id and `useArgs` with all three counters at 0. The stack is the single frame `([None], [0], PRE)`. The result is within the execution limit and has well-formed paths. |
| Engine.StepWith | pyshell/command/engine.py:431-522 | One loop iteration. A frame that does not select a sub-command and a current item is an index error. A raising phase body is reported with the frame's path, phase and item. A counter passing 255 is reported the same way. Otherwise the executed frame is replaced by its continuation, with the result frame on top. |
| Engine.NextSpendsBudget | pyshell/command/engine.py:450-471 | Every executed phase raises exactly one counter, which lowers the remaining execution budget (total slack below 255) by one. |
| Engine.NextKeepsLimit | pyshell/command/engine.py:480-481 | A step that passes the limit check leaves every counter at or below 255 and the number of stages unchanged. |
| Engine.NextKeepsWellFormed | pyshell/command/engine.py:453-475 | Every path on the stack stays between depth 1 and the number of stages. |
| Engine.Run | pyshell/command/engine.py:431-433 | `execute` terminates. A successful run ends with an empty stack and the same number of stages. An empty stack is a run of no steps. |
| EngineProperties.StepPushesResult | pyshell/command/engine.py:448-475 | Deepest PRE pushes a PROCESS frame on the same path. A shallower PRE pushes a PRE one level deeper at index 0. PROCESS pushes POST on the same path. POST pops one level, and a root POST pushes nothing. The result frame is on top. |
| EngineProperties.ContinuationShape | pyshell/command/engine.py:491-518 | PROCESS/POST re-push the rest of their bunch, if any, on the same path. PRE moves to the next sibling with the same data while the index is below the limit: the range's stop, or else the stage's last index. At the limit, PRE advances to the next item with the index reset to the range's start, or re-pushes nothing when no item is left. The continuation keeps phase, bounds and path prefix. |
| EngineProperties.RunKeepsLimit | pyshell/command/engine.py:431-489 | A run keeps every counter within the limit. A failed run fails only with an index error, a phase error or the limit error. |
| EngineProperties.RunUnfolds | pyshell/command/engine.py:433-522 | A run from a non-empty stack is one step followed by the run from the next state, with the emitted outputs concatenated. |
| EngineProperties.DrainRun | pyshell/command/engine.py:459-501 | Once PROCESS holds the items `xs` of the only stage, each item goes through PROCESS and then POST, one item after the other. The run hands out their POST outputs in order and moves each of the two counters on by the number of items. |
| EngineProperties.RunOneStage | pyshell/command/engine.py:431-522 | Any run over one stage with a single sub-command, for any handler whose PROCESS gives one item per item. Let the seed's PRE call yield `xs`. An empty `xs` leaves a frame with no current item, and the run fails with an index error. Otherwise the run hands out the POST output of the PROCESS output of each item of `xs`, in order. The counters end at one PRE call and one PROCESS and one POST call per item. |
| EngineProperties.ShoutRun | pyshell/command/engine.py:431-522 | An instance of the run above. PRE returns `a`, `b`; PROCESS appends `!`; POST upper-cases. The run emits `A!` then `B!`. |
| Engine.SkipNextCommand | pyshell/command/engine.py:52-60 | Fails on an empty stack or a non-PRE top frame. On a PRE top frame it succeeds exactly when the path is not empty, and an empty path is an index error. On success only the top path's last index moves, forward by the skip count. |
| EngineProperties.SkipSelectsLaterSibling | pyshell/command/engine.py:52-60 | After skipping `k`, the frame can run exactly when the sub-command `k` places further on exists and an item is left. It then runs that sub-command on the same current item. |
| EngineProperties.SkipsAdd | pyshell/command/engine.py:52-60 | Skipping `a` and then `b` equals skipping `a + b`. |
| Engine.AddSubCommand | pyshell/command/engine.py:76-104 | Appends a reset sub-command to the stage of the top frame's depth, and to no other stage. It fails exactly when the new index lies outside the top bunch's start..stop range. |
| Engine.AddCommand | pyshell/command/engine.py:106-111 | Appends one stage, reset, after the existing ones. The stack is unchanged and the counters stay within the limit. |
| EngineProperties.AddKeepsInvariants | pyshell/command/engine.py:76-111 | Adding a sub-command or a stage keeps the execution limit and path well-formedness. |
| EngineProperties.AddedSubCommandIsReached | pyshell/command/engine.py:97-104 | A sub-command added while a PRE frame is at its stage's last sibling is the next sibling that frame's continuation selects, with the same data. |
| Engine.SetCmdRange | pyshell/command/engine.py:217-269 | Fails on an empty stack or a depth outside the stack, and with `NotPreProcess` on a frame that is not PRE. On a PRE frame it succeeds exactly when the start is inside the stage and at or below the frame's current index, and the stop (when a length is given) is inside the stage and at or above that index; any other request is out of bounds. It sets exactly that frame's bounds, and every other frame and stage is unchanged. |
| EngineProperties.SetCmdRangeRestartsAtStart | pyshell/command/engine.py:217-269 | A new range keeps the execution limit and path well-formedness. Once the ranged frame's PRE reaches the range's end, the next item starts over at the new first sub-command. The restart is at lines 507-518. |
| Engine.SplitData | pyshell/command/engine.py:271-312 | Fails on an empty stack or a non-PRE frame, and for an offset outside the bunch. Splitting at 0 changes nothing. Splitting strictly inside succeeds and adds one frame: the front part on top, keeping the frame's path, and the rest just below, whose index is reset to the range's start. Both keep the bounds and the PRE phase. Nothing under the split frame changes, and neither do the stages. |
| Engine.PopConcat | pyshell/command/engine.py:207-211 | The merged bunch holds, as a multiset, exactly the items of the merged frames; a single frame keeps its items in order. |
| Engine.MergeDataOnStack | pyshell/command/engine.py:153-215 | A count below 1 changes nothing, and a count above the stack size fails. Otherwise the merge succeeds exactly when every merged frame has the top frame's bounds, phase and path prefix, with its last index at its range's start. The result is one frame with the top frame's path, phase and bounds. Its items are the merged frames' items concatenated, top frame first. The frames below and the stages are unchanged. |
| EngineProperties.SplitMergeRoundTrip | pyshell/command/engine.py:271-312 | Splitting a PRE bunch strictly inside and merging the two frames restores the original state. The merge is `mergeDataOnStack` (lines 153-215). |
| EngineProperties.MergeAgreesOnEqualBounds | pyshell/command/engine.py:176-205 | The merge as written and the corrected merge agree whenever the merged frames' bounds are all equal. |
| Engine.GetData | pyshell/command/engine.py:352-361 | Fails on an empty stack. Otherwise it succeeds exactly for an offset inside the top bunch, returning an item of that bunch. |
| Engine.SetData | pyshell/command/engine.py:142-151 | Succeeds exactly for an offset inside the top bunch. It replaces that one item and keeps the others. The stages, the frames below and the top frame's path, phase and bounds are unchanged. |
| EngineProperties.SetGetRoundTrip | pyshell/command/engine.py:142-151 | Reading after writing returns the written item. Writing back what was read restores the state. The reader is `getData` (lines 352-361). |
| Engine.AddData | pyshell/command/engine.py:122-127 | Inserts the item at the offset, or at the end when the offset is past the end, as `list.insert`. Items before and after are kept in order. The stages, the frames below and the top frame's path, phase and bounds are unchanged. |
| Engine.RemoveData | pyshell/command/engine.py:129-140 | Succeeds exactly for an offset inside the top bunch. It removes that one item, keeping the others in order. The stages, the frames below and the top frame's path, phase and bounds are unchanged. |
| EngineProperties.AddRemoveRoundTrip | pyshell/command/engine.py:122-140 | Removing the item just inserted, at the position where `list.insert` put it, restores the state. |
| EngineProperties.RemoveAddRoundTrip | pyshell/command/engine.py:122-140 | Re-inserting a removed item at its offset restores the state. |
| Engine.FlushData | pyshell/command/engine.py:115-120 | Fails exactly on an empty stack. Otherwise it empties the top bunch. The stages, the frames below and the top frame's path, phase and bounds are unchanged. |
| EngineProperties.FlushedFrameCannotRun | pyshell/command/engine.py:115-120 | After a flush the next step fails with an index error, there is no next item, and the remaining count is -1. |
| EngineProperties.NextDataMatchesContinuation | pyshell/command/engine.py:363-369 | For PROCESS and POST frames, and for PRE frames at the end of their range, `hasNextData` holds exactly when the frame is re-pushed with the rest of its bunch. |
| EngineProperties.RemainingCountsNextData | pyshell/command/engine.py:371-377 | `hasNextData` holds exactly when `getRemainingDataCount` is at least one. The re-pushed PROCESS or POST frame holds exactly that many items. |
| ArgCheckers.CheckSize | pyshell/arg/argchecker.py:172-209 | Rejects a negative minimum or maximum and a maximum below the minimum, and nothing else. |
| ArgCheckers.NewAny | pyshell/arg/argchecker.py:153-170 | A base checker exists exactly for valid sizes and keeps them. |
| ArgCheckers.SetSize | pyshell/arg/argchecker.py:963-978 | Invalid sizes are refused. A list checker also refuses a bound that is not a multiple of its inner checker's size. Otherwise only the bounds change. The base rule is at lines 167-170. |
| ArgCheckers.GetDefaultValue | pyshell/arg/argchecker.py:224-228 | A default is returned exactly when one is available, and it is the stored one for a non-list checker. A list without an explicit default answers its minimum number of its inner checker's default. The list rule is at lines 1047-1059. |
| ArgCheckers.SetDefaultValue | pyshell/arg/argchecker.py:236-251 | A non-default checker with defaults disabled refuses. `None` is stored as is. Any other value is stored converted by the checker, and refused exactly when the conversion fails. A default-value checker stores the value unconverted. Only the default changes. The default-value checker is at lines 921-923. |
| ArgCheckers.EraseDefaultValue | pyshell/arg/argchecker.py:256-258 | Clears the default and keeps the kind, sizes and enablement. |
| ArgCheckerProperties.SetEraseDefault | pyshell/arg/argchecker.py:236-258 | Setting and then erasing a default equals erasing it. A set default is read back converted. |
| ArgCheckers.DefaultInstance | pyshell/arg/argchecker.py:94-102 | The shared default instance has no default and refuses every later default. |
| ArgCheckers.NewDefaultValue | pyshell/arg/argchecker.py:916-926 | A default-value checker takes no token, is hidden from usage, and answers its value whatever it is given. |
| ArgCheckers.ParseRenderDigits | pyshell/arg/argchecker.py:450-458 | Reading the digits written for a natural number in any base 2..36 gives the number back. |
| ArgCheckers.IntToStringRoundTrip | pyshell/arg/argchecker.py:450-458 | The decimal text of every integer reads back to it with `int(s, 10)`. |
| ArgCheckers.FirstParse | pyshell/arg/argchecker.py:452-458 | Returns the first base, in order, that reads the text, with its value. It finds none exactly when no base reads it. |
| ArgCheckers.StringValue | pyshell/arg/argchecker.py:360-397 | A value is accepted exactly when it is not `None` and its text length lies within the bounds. The text is returned. |
| ArgCheckers.IntegerValue | pyshell/arg/argchecker.py:440-492 | An integer is accepted exactly within the bounds. A text is read in the checker's bases, and a text that no base reads is refused. A text that some base reads is accepted exactly when its value in the first such base is within the bounds, and that value is returned. `None` and lists are refused. |
| ArgCheckerProperties.ConversionIsIdempotent | pyshell/arg/argchecker.py:360-397 | The string and integer checkers accept their own results unchanged: converting a converted value again gives the same answer. |
| ArgCheckers.GetValue | pyshell/arg/argchecker.py:218-219 | The any-checker returns its value unchanged, and a default-value checker returns its default. |
| ArgCheckers.ChunksCover | pyshell/arg/argchecker.py:1019-1041 | Groups of the inner size flatten back to the input, each group has that size, and size 1 leaves the values ungrouped. |
| ArgCheckers.ConvertChunks | pyshell/arg/argchecker.py:1016-1041 | The list conversion succeeds exactly when the inner checker accepts every group, one result per group. |
| ArgCheckers.ReadCount | pyshell/arg/argchecker.py:1007-1014 | A list reads all its values, but never more than its maximum. |
| ArgCheckers.PadCount | pyshell/arg/argchecker.py:993-1005 | A list short of its minimum is padded with exactly as many defaults as it lacks. |
| ArgCheckerProperties.ListPaddedLength | pyshell/arg/argchecker.py:993-1044 | A short list that converts comes out with exactly its minimum number of values. |
| ArgCheckerProperties.ListIgnoresSurplus | pyshell/arg/argchecker.py:1007-1014 | Values past the maximum do not change the result. |
| ArgCheckerProperties.ListOfSingles | pyshell/arg/argchecker.py:1019-1023 | With a one-token inner checker, an unbounded list converts each value in place. |
| ArgCheckers.ListValue | pyshell/arg/argchecker.py:980-1045 | A list value is refused when its token count is not a multiple of the inner size, or when it is short of its minimum and the inner checker has no default. Otherwise it is accepted exactly when the inner checker accepts every group read (never more than the maximum), giving each group's conversion in order followed by one inner default per missing group. |
| ArgCheckers.NewString | pyshell/arg/argchecker.py:309-358 | A string checker exists exactly for a non-negative minimum and a maximum of at least one and at least the minimum. It takes one token. |
| ArgCheckers.IntegerWith | pyshell/arg/argchecker.py:403-438 | An integer checker exists exactly when the minimum does not exceed the maximum. |
| ArgCheckers.NewInteger | pyshell/arg/argchecker.py:403-438 | The integer checker reads bases 10, 16, 2 in that order. |
| ArgCheckers.NewHexa | pyshell/arg/argchecker.py:533-541 | The hexadecimal checker reads base 16 only. |
| ArgCheckers.NewBinary | pyshell/arg/argchecker.py:544-552 | The binary checker reads base 2 only. |
| ArgCheckerProperties.FirstBaseWins | pyshell/arg/argchecker.py:452-458 | For any bases and bounds: when base `k` is the first to read a text, the checker's answer is that value if it lies within the bounds and a value error otherwise. |
| ArgCheckerProperties.DecimalTokensReadAsDecimal | pyshell/arg/argchecker.py:453-456 | The integer checker reads every integer's decimal text as that integer. The bases are set at lines 414-415. |
| ArgCheckerProperties.HexaRoundTrip | pyshell/arg/argchecker.py:533-541 | The hexadecimal checker reads every natural number's hexadecimal digits as that number. |
| ArgCheckerProperties.BaseOrderMatters | pyshell/arg/argchecker.py:452-458 | `"11"` is 11 as an integer, 17 as hexadecimal and 3 as binary. `"ff"` is 255 as an integer and refused as binary. The bases are set at lines 414-415, 535 and 546. |
| ArgCheckers.PowerOfTwoMeansPow2 | pyshell/arg/argchecker.py:513 | The test that the bit count's base-2 logarithm is whole holds exactly for the powers `2^k`. |
| ArgCheckers.NewLimitedInteger | pyshell/arg/argchecker.py:506-530 | A limited integer exists exactly for a power-of-two bit count of at least 8. |
| ArgCheckerProperties.LimitedIntegerAccepts | pyshell/arg/argchecker.py:506-530 | An n-bit limited integer accepts exactly `0..2^n-1` unsigned and `-2^(n-1)..2^(n-1)-1` signed. The bound check is at lines 476-490. |
| ArgCheckerProperties.ByteBounds | pyshell/arg/argchecker.py:506-530 | 8 bits: 255 accepted and 256 refused unsigned, -128 accepted and 128 refused signed. 12 bits refused. |
| ArgCheckers.NewList | pyshell/arg/argchecker.py:929-978 | A list checker exists exactly when its inner checker is not a list, has a fixed size (`isVariableSize` is false) and is not of size 0. |
| ArgCheckerProperties.NewListReadsWholeGroups | pyshell/arg/argchecker.py:929-978 | A list checker accepts any token list whose length is a multiple of the inner size and within its bounds, provided the inner checker accepts every group. It returns one value per group. The conversion is at lines 980-1045. |
| ArgCheckers.IntegerUsage | pyshell/arg/argchecker.py:494-503 | The integer usage starts with `<` and the type name and ends with `>`. |
| ArgCheckers.ListUsage | pyshell/arg/argchecker.py:1066-1113 | A list of one is its inner usage. An unbounded list is `(u ... u)`. A list of at least one value starts with the inner usage, and a fixed count repeats it. |
| ArgCheckerProperties.ListUsageStartsWithInner | pyshell/arg/argchecker.py:1083-1087 | A list of exactly one shows its inner usage. A list with a minimum of at least one starts with its inner usage. |
| ArgCheckers.Usage | pyshell/arg/argchecker.py:221-222 | The string checker shows `<string>`, and the base and default checkers show `<any>`. The string usage is at lines 399-400. |
| ArgFeeders.NewFeeder | pyshell/arg/argfeeder.py:33-38 | A feeder is built exactly from an ordered dictionary, or an empty plain one, and keeps its entries. |
| ArgFeeders.InputTokens | pyshell/arg/argfeeder.py:45-50 | A string is one token, a list is its tokens, and anything else is refused. |
| ArgFeeders.Defaults | pyshell/arg/argfeeder.py:91-99 | Filling the remaining parameters succeeds exactly when every one has a default. |
| ArgFeeders.DefaultsValue | pyshell/arg/argfeeder.py:93-97 | Each remaining parameter is bound to its checker's default. |
| ArgFeeders.BindKeys | pyshell/arg/argfeeder.py:58-89 | A successful binding has exactly the names of the bound and remaining parameters as keys. |
| ArgFeeders.CheckArgs | pyshell/arg/argfeeder.py:44-103 | A non-list, non-string input is refused. A successful check binds exactly the feeder's parameter names. |
| ArgFeederProperties.StringIsOneToken | pyshell/arg/argfeeder.py:45-50 | A string argument binds as the one-token list. |
| ArgFeederProperties.SurplusIgnored | pyshell/arg/argfeeder.py:79-101 | Tokens left after the last parameter do not change the result. |
| ArgFeederProperties.EmptyInputTakesDefaults | pyshell/arg/argfeeder.py:63-99 | With no token and a first parameter that needs data, binding succeeds exactly when every parameter has a default, and binds each to it. |
| ArgFeederProperties.SinglesBindPositionally | pyshell/arg/argfeeder.py:44-103 | With one-token checkers, the i-th token is converted by the i-th checker. Parameters past the tokens take their defaults. Binding succeeds exactly when every conversion and default succeeds. |
| ArgFeederProperties.UsageMatchesReference | pyshell/arg/argfeeder.py:105-126 | The usage loop equals a direct description: the shown parameters' pieces in order, `[` before the first one with a default and `]` closing the line, stripped of spaces. |
| ArgFeeders.FeederUsage | pyshell/arg/argfeeder.py:105-126 | A feeder without parameters reads `no args needed`. A line with a shown parameter that has a default ends with `]`. |
| ArgFeeders.FirstDefault | pyshell/arg/argfeeder.py:115-117 | The first parameter with a default, or none when no parameter has one. |
| Decorators.NewAnalyser | pyshell/arg/decorator.py:19-37 | Only a function or a method can be analysed. The signature keeps its names and defaults and records whether it is a method. |
| Decorators.HasDefault | pyshell/arg/decorator.py:39-44 | An unknown parameter is an error. |
| DecoratorProperties.HasDefaultIffTail | pyshell/arg/decorator.py:39-44 | A parameter has a default exactly when it is among the last `len(defaults)` parameters. |
| Decorators.GetDefault | pyshell/arg/decorator.py:46-55 | A default is returned exactly for a parameter that has one. |
| DecoratorProperties.DefaultsAlignWithTail | pyshell/arg/decorator.py:46-55 | The j-th default belongs to the j-th defaulted parameter, and the leading parameters have none. |
| Decorators.SetCheckerDefault | pyshell/arg/decorator.py:57-61 | A parameter without a default keeps its checker. Otherwise the checker takes the default, or the conversion error is reported. Sizes are kept. |
| Decorators.CheckKwArgs | pyshell/arg/decorator.py:73-75 | Keyword arguments are accepted exactly when each is a checker. |
| DecoratorProperties.BindParamsOk | pyshell/arg/decorator.py:87-112 | The binding loop succeeds exactly when every remaining parameter has its expected checker and keeps the order rule. |
| DecoratorProperties.BindParamsEntry | pyshell/arg/decorator.py:95-112 | Each bound entry is the parameter's name with its expected checker, in parameter order. |
| DecoratorProperties.BindParamsLeftover | pyshell/arg/decorator.py:95-118 | The keyword checkers left after the loop are those naming no parameter. |
| DecoratorProperties.DecorateAcceptsReference | pyshell/arg/decorator.py:78-123 | The decorator accepts a function exactly when it is undecorated, every keyword names a parameter, every parameter has a checker or a default, and no data-needing checker follows an unbounded one. |
| DecoratorProperties.DecorateBindsExpected | pyshell/arg/decorator.py:95-112 | An accepted function's feeder binds every parameter, in order, to its expected checker. |
| DecoratorProperties.DecorateYieldsFeeder | pyshell/arg/decorator.py:121 | The resulting feeder is well formed. |
| DecoratorProperties.UnmatchedKeywordRejected | pyshell/arg/decorator.py:114-118 | A keyword naming no parameter is refused. |
| DecoratorProperties.MissingCheckerRejected | pyshell/arg/decorator.py:109-112 | A parameter with neither a checker nor a default is refused. |
| DecoratorProperties.NeedyAfterUnboundedRejected | pyshell/arg/decorator.py:100-106 | A data-needing checker (`needData`: minimum at least one) right after an unbounded one is refused. |
| DecoratorProperties.SelfIsSkipped | pyshell/arg/decorator.py:91-93 | No entry of a decorated method is bound to `self`. |
| Decorators.ShellMethod | pyshell/arg/decorator.py:69-125 | A keyword that is not a checker, or an already decorated function, is refused. |
| Decorators.AsWrittenLoop | pyshell/arg/decorator.py:86-112 | The loop as written raises `NameError` exactly when it reaches the order check. That is, it gets through the earlier parameters without raising, some entry is already bound, and the parameter has a data-needing keyword checker. Otherwise it gives what the corrected loop gives. |
| Decorators.DecorateAsWritten | pyshell/arg/decorator.py:86-112 | The decorator as written, applied to a function not yet decorated, raises `NameError` exactly when its loop reaches the order check. An already decorated function, or one whose loop never reaches the check, gets what the corrected decorator gives. |
| DecoratorProperties.BoundedCheckersRefusedAsWritten | pyshell/arg/decorator.py:100-102 | With one bounded, data-needing checker per parameter, the corrected decorator accepts the function. The one as written refuses it exactly when it has two or more parameters. |
| Loaders.NewGlobalLoader | pyshell/loader/utils.py:98-102 | A new registry has no profile state. |
| Loaders.ProfileOf | pyshell/loader/utils.py:105-106 | No profile means the default profile. |
| Loaders.NewLoader | pyshell/loader/utils.py:77-80 | A new loader has no last error and the class's priority, 100 by default. |
| Loaders.GetOrCreateLoader | pyshell/loader/utils.py:104-137 | Returns the registered loader when there is one, changing nothing. Otherwise it refuses a non-class, a non-loader class or `AbstractLoader` itself, or registers a new loader of the class under that profile and name, and nothing else changes. |
| LoaderProperties.GetOrCreateIsIdempotent | pyshell/loader/utils.py:108-110 | Asking again for a registered name returns the same loader and leaves the registry unchanged, whatever class is passed. |
| LoaderProperties.NoProfileIsDefaultProfile | pyshell/loader/utils.py:105-106 | Asking with no profile equals asking with the default profile. |
| LoaderProperties.ProfilesAreSeparate | pyshell/loader/utils.py:104-137 | On any registry, the same name in two profiles gives two registrations. Creating it in the second profile keeps the first profile's loader. Asking the first profile again returns that loader, whatever class is passed. A name new to the second profile gets a new loader. |
| LoaderProperties.ProfilesAreSeparateFresh | pyshell/loader/utils.py:104-137 | On a fresh registry, registering a loader class under "plop" and then under the default profile both succeed. |
| LoaderProperties.GetOrCreateRefusals | pyshell/loader/utils.py:113-129 | A non-class, a class outside the loader hierarchy and `AbstractLoader` itself are refused. |
| Loaders.SortKeys | pyshell/loader/utils.py:153-163 | The heap order is a sorted permutation of the (priority, insertion order) keys. |
| LoaderProperties.HeapOrder | pyshell/loader/utils.py:153-163 | Loaders are called by increasing priority, ties in insertion order, each exactly once. |
| Loaders.MarkAll | pyshell/loader/utils.py:167-177 | Each loader's last error is set exactly when its method failed. |
| Loaders.FailedNames | pyshell/loader/utils.py:162-181 | No error is collected exactly when no loader fails. |
| Loaders.InnerLoad | pyshell/loader/utils.py:139-183 | A profile without loaders changes nothing. Otherwise every loader is called in heap order, and each loader's last error is set exactly when its method failed. The run raises exactly when some loader failed, recording the error state then and the next state otherwise. |
| LoaderProperties.RunCallsEveryLoaderInOrder | pyshell/loader/utils.py:162-183 | A run calls every loader of the profile, each once. It sets each loader's last error exactly when its method failed, and raises exactly when some loader failed. It records the error state in that case and the next state otherwise. |
| LoaderProperties.LoadUnknownProfileChangesNothing | pyshell/loader/utils.py:148-149 | Loading a profile without loaders changes nothing and raises nothing. |
| LoaderProperties.LoadedProfileGuards | pyshell/loader/utils.py:192-241 | With one profile loaded, loading it again does nothing. Loading another is refused, and so are unloading and reloading another. |
| LoaderProperties.CleanRun | pyshell/loader/utils.py:183 | A run in which no loader fails raises nothing and records the next state. |
| LoaderProperties.LoadUnloadCycle | pyshell/loader/utils.py:185-247 | On a fresh registry with no failing loader: load, reload, unload and load again all succeed, leaving the profile loaded, loaded, unloaded and loaded. |
| LoaderProperties.FailedLoadCanBeUnloaded | pyshell/loader/utils.py:179-181 | A load in which some loader fails raises the collected errors and leaves the profile in the loaded-with-errors state, which unload accepts. The unload guard is at lines 217-220. |
| LoaderProperties.InheritedReloadIsUnloadThenLoad | pyshell/loader/utils.py:88-90 | A loader without its own reload fails to reload exactly when its unload or its load fails. The reload run is at lines 243-247. |
| Loaders.Load | pyshell/loader/utils.py:188-211 | While some profile is loaded, loading it again does nothing and loading another is refused; both leave the registry unchanged. Otherwise the load is the profile run with `load`, ending in LOADED or LOADED_E. |
| Loaders.Unload | pyshell/loader/utils.py:213-229 | Refused unless the profile is the one loaded. Otherwise the unload is the profile run with `unload`, ending in UNLOADED or UNLOADED_E. |
| Loaders.Reload | pyshell/loader/utils.py:231-247 | Refused unless the profile is the one loaded. Otherwise the reload is the profile run with `reload`, ending in LOADED or LOADED_E. |
| LoaderProperties.StateMachine | pyshell/loader/utils.py:185-247 | From any registry: an allowed load ends LOADED, or LOADED_E exactly when some loader's `load` raised, and leaves the profile loaded. An unload of the loaded profile ends UNLOADED or UNLOADED_E, after which a load is allowed. A reload ends LOADED or LOADED_E. A profile without loaders keeps the registry. |
| Dependencies.RegisterDependOnAddon | pyshell/loader/dependancies.py:26-34 | A non-string name or profile is refused. Otherwise the dependency is appended to the profile's dependency loader, which is created when missing. No other loader changes. |
| DependencyProperties.RegistrationsKeepOrder | pyshell/loader/dependancies.py:33-34 | Two registrations leave both dependencies, in registration order, on one loader of the default profile. |
| Dependencies.CheckAll | pyshell/loader/dependancies.py:53-63 | The dependencies are met exactly when every named addon is in the addon list with the wanted sub-addon registered and loaded (LOADED or LOADED_E). A failure is a `LoadException`. |
| Dependencies.DependencyLoad | pyshell/loader/dependancies.py:41-63 | Without dependencies nothing is checked. With some but no addon list, the load fails. With an addon list, it succeeds exactly when every dependency is met. |
| Dependencies.DependencyLoadAsWritten | pyshell/loader/dependancies.py:41-63 | The check as written succeeds exactly without dependencies. A first dependency whose addon is listed raises `AttributeError` on `profileList`. |
| DependencyProperties.CheckMeansLoaded | pyshell/loader/dependancies.py:53-63 | One dependency passes exactly when its addon is listed, the wanted profile is registered, and the addon's last run loaded that profile, with or without errors. |
| DependencyProperties.StateCheckCases | pyshell/loader/dependancies.py:53-63 | A missing addon is refused. A wanted profile that is loaded passes, one that is unloaded is refused, and a profile other than the wanted one is refused. |
| DependencyProperties.PresentAddonRaisesAsWritten | pyshell/loader/dependancies.py:62 | A dependency that is met passes the corrected check, but the check as written raises on it. |
| DependencyProperties.NoDependenciesNoCheck | pyshell/loader/dependancies.py:44-49 | No dependency means success with or without an addon list, in both versions of the check. A dependency without an addon list fails in both. |
| DependencyProperties.RegisterThenLoad | pyshell/loader/dependancies.py:26-63 | After one registration on a fresh registry, loading the default profile raises exactly when the addon is missing, or lacks a loaded default sub-addon. It records LOADED_E or LOADED accordingly. |
| DependencyProperties.RegisterThenLoadAsWritten | pyshell/loader/dependancies.py:26-63 | As written, the same load always raises and records LOADED_E, whatever the addon list holds. |
| DependencyProperties.RegisteredDependencyIsChecked | pyshell/loader/dependancies.py:26-63 | On any registry, after a dependency is registered, an allowed load of that profile raises and records LOADED_E when the dependency is not met. |
| DependencyProperties.UnmetDependencyFailsLoad | pyshell/loader/dependancies.py:41-63 | On any registry, an allowed load of a profile whose dependency loader holds an unmet dependency raises and records LOADED_E. |

## Left out

- **Terminal I/O, printing and messages.** Exception message texts and the diagnostic attributes attached at engine.py:483-489 are left out; errors are datatype values.
- **`executeMethod` and argument binding inside the engine.** Phase bodies are the abstract `Handler` function value. `useArgs` is passed to them, not acted upon.
- **`flushArgs`, `setDataCmdRange`, `getCurrentItemCmdLimit` and the stack introspection getters.** They only read state or forward to `MultiCommand`. `MultiCommand` is not part of this model, and neither is the `onlyAddOnce` flag that `addDynamicCommand` handles.
- **The engine's environment dictionary.** The engine only stores and returns it.
- **The other checkers.** Float, boolean, token, file, environment and engine checkers are left out. So is the engine back-reference `setEngine`.
- **The `int(s, b)` grammar.** The model reads an optional sign, then the base's optional `0x`, `0o` or `0b` prefix (in bases 16, 8 and 2, when a digit follows it), then digits of the base. Python also strips surrounding whitespace; the model does not, so a padded text is refused here and read by Python.
- ArgCheckers.StringValue: lengths count characters. Python 2's `len` of a `str` counts bytes, so a non-ASCII text may be refused by the source and accepted here.
- ArgCheckers.IntegerValue: the value kinds are None, integer, text and list. Python's float and bool inputs, which `int()` converts, are not modelled, and neither is the refusal of `long`.
- ArgCheckers.Repr: the rendering of a text has no escapes. Python's `repr` escapes quotes and control characters.
- Engine.SkipNextCommand: the skip count is a natural number. Python accepts a negative count and moves the index backwards.
- Engine.SetCmdRange: the first index is a natural number. Python never checks that it is non-negative.
- **Results keep no range.** A phase result is pushed with unbounded bounds. A `MultiOutput` returned by a phase body would keep its own range (engine.py:548-551). `MultiOutput` is not part of this model.
- **Primitives between steps only.** Phase bodies are pure, so the engine primitives are modelled as operations on the state between two steps. The source lets a running body call them on the live engine in the middle of a step.
- Loaders.NewLoader: the priority comes from the class. A subclass that overrides `getPriority` (utils.py:93-95) with a computed value is not modelled.
- Engine.AddData: offsets are natural numbers. Python's negative `insert` offsets, which count from the end, are not modelled.
- Engine.GetData: negative offsets, which Python indexes from the end, are not modelled.
- Engine.GetData: the contract says only that the result is an item of the bunch; `SetGetRoundTrip` pins down which.
- Engine.SetData: negative offsets, which Python indexes from the end, are not modelled.
- **Caller module lookup.** `getAndInitCallerModule` is left out; the registry is passed as a parameter instead.
- Loaders.MarkAll: the stack trace stored on a failed loader's exception is not modelled.
- **Loader identity.** Heap ties between equal keys never compare the loader objects, because insertion orders are distinct.
- **Dictionary order.** Python 2 dictionary order is arbitrary. The model takes profile dictionaries in insertion order.
- **Constants.** The values of `DEFAULT_PROFILE_NAME`, `DEFAULT_SUBADDON_NAME` and `ADDONLIST_KEY` live in a constants module that is not part of this model. The model uses fixed strings of its own for them.
- **Parameter manager.** The addon list parameter is an `Option` of a map.
- **Value conversion in the feeder.** The conversion is a parameter of `Bind`, so that properties hold for any checker behaviour. `CheckArgs` uses `GetValue`.
- ArgCheckers.SetDefaultValue: when the conversion raises, the Python object keeps `hasDefault = True` with the old value. The model returns the error without that partly changed checker.
- ArgFeeders.Bind: the function has no contract of its own. Its properties are the lemmas `BindKeys`, `BindIgnoresSurplus`, `BindSinglesOk` and `BindSinglesValue`.
- Decorators.BindParams: the function and its one-turn helper `BindStep` have no contract of their own. Their properties are the lemmas `BindParamsOk`, `BindParamsEntry`, `BindParamsLeftover` and `AsWrittenLoop`.
- Engine.PopConcat: the contract states the items as a multiset; `SplitMergeRoundTrip` pins down their order.
- ArgCheckers.PowerOfTwoMeansPow2: the source tests `log(n, 2) % 1` in floating point; the model tests exact repeated halving.
- Engine.Run: the root POST outputs, which the source discards, are recorded in `emitted` so that runs can be observed.
- EngineProperties.RunOneStage: covers handlers whose PROCESS gives exactly one item per item and PRE outputs of at most 255 items. A PROCESS output of several items, which POST then takes one by one, is not stated as a run-level property, and neither is the limit error of a longer PRE output.

## Findings

| source | as written | input that shows it | evidently intended | confidence | as-written member | corrected member |
|---|---|---|---|---|---|---|
| pyshell/command/engine.py:453-507 | After a PRE at the deepest stage, the PROCESS frame is pushed with the same path list as the continuation. The continuation then increments that list. | One stage with two sub-commands and one item: the PROCESS of sub-command 1 runs on the output of sub-command 0's PRE. | The PROCESS frame keeps the PRE's own path. | not executed | Engine.StepWith (aliased), EngineProperties.AliasedPathRunsWrongSibling | Engine.Step, EngineProperties.StepPushesResult |
| pyshell/command/engine.py:304-306 | `splitData` resets the lower frame's index to 0, but `mergeDataOnStack` (lines 200-201) demands the range's start. | A PRE bunch of two items with range start 1, split at 1 and merged: the merge is refused. | Reset to the range's start, so split then merge restores the bunch. | not executed | Engine.SplitDataAsWritten, EngineProperties.SplitAsWrittenBreaksMerge | Engine.SplitData, EngineProperties.SplitMergeRoundTrip |
| pyshell/command/engine.py:188 | The bounds check refuses a merge only when both start and stop differ (`and`). | Two frames with equal start and stops 0 and 1: the merge succeeds with the top frame's stop. | Refuse when either bound differs. | not executed | Engine.MergeDataOnStackAsWritten, EngineProperties.MergeAsWrittenAcceptsMismatch | Engine.MergeDataOnStack, EngineProperties.MergeAgreesOnEqualBounds |
| pyshell/loader/dependancies.py:62 | The check reads `loader.profileList`, but `GlobalLoader` keeps its profiles in `profile_list` (utils.py:101). | One dependency whose addon is in the addon list with its default profile loaded: `AttributeError`, so the profile ends LOADED_E. | Check that the wanted profile is registered and loaded, as the error message ("is not loaded") and the dependency tests expect. | not executed | Dependencies.DependencyLoadAsWritten, DependencyProperties.PresentAddonRaisesAsWritten | Dependencies.CheckAll, DependencyProperties.CheckMeansLoaded |
| pyshell/arg/decorator.py:101-102 | The order check reads the previous entry from `a`, which is defined nowhere. | `f(a, b)` with a one-token checker for each parameter: `NameError` at `b`. | Read the last entry of `argCheckerList`. | not executed | Decorators.DecorateAsWritten, DecoratorProperties.BoundedCheckersRefusedAsWritten | Decorators.Decorate, DecoratorProperties.DecorateAcceptsReference |
