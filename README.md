# serverless-offline-step-functions: the state machine executor in Dafny

This project models `StateMachineExecutor` from serverless-offline-step-functions.
That class is a small interpreter for the Amazon States Language which runs a
Step Functions definition locally. It has two parts, and the model follows them.

* **Data-flow transforms** around each state's work:
  * InputPath (`processTaskInputPath`);
  * the Parameters template (`processTaskParameters` / `handleParameters`);
  * ResultPath (`processTaskResultPath`);
  * OutputPath (`processTaskOutputPath`).

  These are functions over a `Json` datatype (`json.dfy`, `dataflow.dfy`,
  `parameters.dfy`). They use a path language restricted to the root `$` and
  dotted member names (`paths.dfy`). The key loop of `handleParameters` is also
  a method (`Parameters.HandleParameters`). It is proved equal to the function
  that specifies it.
* **The run**: `spawnProcess`, `whatToRun`, `goToNextStep`, and the success and
  failure handlers inside `spawnProcess`.
  * `interpreter.dfy` gives one attempt (`Attempt`) as a function on a
    snapshot of the executor (`Run`).
  * `executor.dfy` is the executor as a class. It holds:
    * the state records;
    * `currentStateName`;
    * the state about to run, its pre-InputPath input (`globalInput`), its retry counter and its caller;
    * the count of task calls;
    * the reported errors;
    * the ending.

    Its methods are proved to change these fields as `Attempt` says. Its
    `Execute` loop replaces the recursion `spawnProcess` → `goToNextStep` →
    `spawnProcess` and the retry re-entry. It is bounded by fuel.
  * `scenarios.dfy` proves whole runs of small definitions, from start to finish.
* **The wait time** of a Wait state (`buildWaitState`, `wait.dfy`).

The runner of tasks (an AWS service or a Lambda handler) and the Choice evaluator
are parameters of the run (`Interpreter.Oracles`). The runner of tasks also receives
the number of task calls made before it, so that a sequence of failures and
successes can be described.

Points where the model follows the code rather than the documentation:

* **Wait states.** A Wait state never waits. `whatToRun` calls
  `this.buildWaitStateTmp`, which does not exist. The `TypeError` is thrown
  inside the promise executor, before `setTimeout` runs, so the work is
  rejected and the failure handler runs. Control never reaches the Succeed/Fail
  case that follows. `buildWaitState` is modelled on its own, as written.
* **Fail states.** A Fail state ends the run in the same way as Succeed: no
  error is reported and the output is `null`.
* **Choice states.** OutputPath is applied after a Choice state.
* **OutputPath.** A `null` OutputPath gives `null`, not `{}`. An invalid
  OutputPath is reported, and the run goes on with `true` as the value, because
  `endStateMachine` only logs and returns `true`. On a falsy value (`null`,
  `false`, `0`, `""`) the JSONPath library returns `undefined`, so reading its
  `[0]` throws a `TypeError` inside the success handler. That rejects the
  handler's promise, and the failure handler of the same state runs on the
  value as ResultPath left it (`Interpreter.OutputThrowFails`).
* **Exceptions thrown before a state's work starts.** This happens when a
  state name is unknown, a template is `null`, or a template's `.$` key queries
  a falsy input (the same `TypeError` as for OutputPath). If `spawnProcess` was called
  by the previous state's success handler, that handler's failure branch
  receives the exception. The previous state is then retried or caught under
  its own rules, while `currentStateName` keeps the unknown name. If
  `spawnProcess` was called from the start of the run, a retry or a catch rule,
  the exception is unhandled and the run stops (`Halted`).

## Model

| member | source | states |
|---|---|---|
| `Paths.Split` | src/state-machine-executor.js:280 | A path's tokens are never an empty list, and no token contains `.` |
| `Paths.JoinSplit` | src/state-machine-executor.js:280 | Splitting a path into tokens loses nothing: joining the tokens with `.` gives back the path |
| `Paths.SplitJoin` | src/state-machine-executor.js:280 | Tokens without dots, joined and split again, come back unchanged |
| `Paths.SplitAfterToken` | src/state-machine-executor.js:280 | A dot-free token followed by `.` splits off as the first token |
| `Paths.SelectRoot` | src/state-machine-executor.js:303 | `$` selects the whole document |
| `Paths.SelectDotted` | src/state-machine-executor.js:248 | `$.a.b` selects what following members `a` then `b` reaches |
| `Paths.SetThenWalk` | src/state-machine-executor.js:283 | After setting a value at a path through objects, reading that path gives the value |
| `Paths.SetUnsettable` | src/state-machine-executor.js:283 | A path running into a value that is not an object leaves the document unchanged |
| `Paths.SetFrame` | src/state-machine-executor.js:283 | Setting leaves every location off the path unchanged |
| `JsonValues.OrEmpty` | src/state-machine-executor.js:56 | `data || {}`: the value handed on is always truthy; a truthy result is kept, and a missing or falsy one becomes `{}` |
| `JsonValues.DigitsRoundTrip` | src/state-machine-executor.js:192-195 | Reading the decimal digits of a natural number gives that number back |
| `JsonValues.NatTextRoundTrip` | src/state-machine-executor.js:192-195 | Unary `+` on the decimal text of a natural number gives the number |
| `JsonValues.NegativeTextRoundTrip` | src/state-machine-executor.js:192-195 | Unary `+` on `-` followed by the digits of `n` gives `-n` |
| `JsonValues.NumberTextRoundTrip` | src/state-machine-executor.js:192-195 | Unary `+` on the decimal text of an integer gives the integer |
| `DataFlow.InputPath` | src/state-machine-executor.js:216-228 | A `null` InputPath gives `{}`; any other gives a value reached by following members from the input, with a falsy input read as `{}` |
| `DataFlow.DefaultInputPath` | src/state-machine-executor.js:217 | The InputPath written back is never omitted, and for every input it selects the same as the original field |
| `DataFlow.InputPathNull` | src/state-machine-executor.js:218-219 | A `null` InputPath hands the work `{}`, whatever the input |
| `DataFlow.InputPathRoot` | src/state-machine-executor.js:217-224 | An omitted InputPath and `"$"` both pass the whole input, with a falsy input read as `{}` |
| `DataFlow.InputPathIdempotent` | src/state-machine-executor.js:216-228 | Applying InputPath `"$"` twice gives the same as applying it once |
| `DataFlow.InputPathSelects` | src/state-machine-executor.js:221-224 | A matching path hands on the match; a path with no match hands on the whole input |
| `DataFlow.ResultPath` | src/state-machine-executor.js:268-287 | Whenever the path `$.a.b...` can be set in the input, the value returned holds the result at `a.b...` |
| `DataFlow.ResultPathReplaces` | src/state-machine-executor.js:275-277 | An omitted ResultPath or `"$"` returns the result exactly |
| `DataFlow.ResultPathDiscards` | src/state-machine-executor.js:279-286 | A `null` ResultPath returns the input unchanged |
| `DataFlow.ResultPathStores` | src/state-machine-executor.js:279-286 | ResultPath `$.a.b` stores the result at `a.b` (the leading `$` is dropped) and leaves every location off that path as it was |
| `DataFlow.OutputPath` | src/state-machine-executor.js:300-313 | The query throws exactly when the OutputPath is not `null` and the value is falsy, with the `TypeError` for reading `[0]` of `undefined`; a value handed on without a report is truthy, or `null` from a `null` OutputPath; with a report, `true` is handed on |
| `DataFlow.OutputPathNull` | src/state-machine-executor.js:300-312 | A `null` OutputPath gives `null` and reports nothing |
| `DataFlow.OutputPathSelects` | src/state-machine-executor.js:302-309 | For a truthy value, nothing is reported if and only if the first match exists and is truthy, and then the match is the output; otherwise the error names the state and the path, and `true` is handed on |
| `DataFlow.OutputPathRoot` | src/state-machine-executor.js:303-309 | An omitted OutputPath hands on a truthy value whole; on a falsy value the query throws the `TypeError` |
| `Parameters.UnmarkedRoundTrip` | src/state-machine-executor.js:247-248 | Stripping the two-character `.$` suffix and adding it back gives the key |
| `Parameters.MarkedOf` | src/state-machine-executor.js:247-248 | Any name followed by `.$` is a marked key that binds that name |
| `Parameters.Bind` | src/state-machine-executor.js:244-257 | A template that does not throw gives an object |
| `Parameters.ParametersAbsent` | src/state-machine-executor.js:236-239 | With no Parameters field the work receives its input unchanged |
| `Parameters.ParametersNullThrows` | src/state-machine-executor.js:241-246 | A `null` template throws |
| `Parameters.BindObjectThrows` | src/state-machine-executor.js:246-254 | An object template throws if and only if one of its `.$` keys queries a falsy input, or one of its plain keys holds a nested template that throws |
| `Parameters.FalsyInputQueryThrows` | src/state-machine-executor.js:247-250 | A template with a `.$` key at any depth of nested objects and arrays throws on a falsy input |
| `Parameters.BindElementsFails` | src/state-machine-executor.js:249-253 | One element of an array template that throws makes the whole array template throw |
| `Parameters.BindMarkedKey` | src/state-machine-executor.js:247-248 | A key `k.$` binds `k` to the first match of its path |
| `Parameters.BindPlainKey` | src/state-machine-executor.js:249-253 | A plain key keeps its name and is bound to its value copied literally, or to its nested template's result |
| `Parameters.BindOnlyTemplateKeys` | src/state-machine-executor.js:245-256 | Every key of the result comes from a marked or a plain key of the template |
| `Parameters.BindElementsEntries` | src/state-machine-executor.js:246-254 | An array template gives one key per index, written in decimal, bound as that element would be, and no other key |
| `Parameters.BindElementsStaysFailed` | src/state-machine-executor.js:246-254 | Once an element throws, the whole array template throws |
| `Parameters.BindMembersStepMarked` | src/state-machine-executor.js:247-248 | Handling a marked key adds its binding when its path matches, and nothing else |
| `Parameters.BindMembersStepShadowed` | src/state-machine-executor.js:249-253 | A plain key that a marked key of the same name overrides adds nothing |
| `Parameters.BindMembersStepPlain` | src/state-machine-executor.js:249-253 | Any other plain key adds its own binding, and nothing else |
| `Parameters.HandleParameters` | src/state-machine-executor.js:244-257 | The key-by-key loop over the template builds exactly the templated object, or throws where the template is `null` |
| `Parameters.ProcessParameters` | src/state-machine-executor.js:236-257 | The work receives its input itself or an object; a template with a `.$` key anywhere in it throws when the selected input is falsy |
| `Parameters.ProcessTaskParameters` | src/state-machine-executor.js:236-242 | An omitted template passes the input through; otherwise the template is applied |
| `WaitTime.BuildWaitState` | src/state-machine-executor.js:189-204 | Every delay is a whole number of seconds in milliseconds; a non-zero delay comes from `Seconds` or `SecondsPath`; "Specified wait time is not a number" comes only from `SecondsPath`; the throw on reading `input` happens only for a `null` event with `SecondsPath` in use |
| `WaitTime.WaitFromSeconds` | src/state-machine-executor.js:192-193 | A non-zero `Seconds`, given as a number or as its text, waits that many thousand milliseconds |
| `WaitTime.WaitFromSecondsPath` | src/state-machine-executor.js:194-201 | With `Seconds` missing, falsy or not a number, `SecondsPath` is looked up in a truthy `input.input`; the delay is 1000 times the match, and "Specified wait time is not a number" is reported when there is no number |
| `WaitTime.WaitDefault` | src/state-machine-executor.js:190-203 | The delay is 0 when `Seconds` is missing, falsy or not a number and `SecondsPath` is missing or empty, or the event has no truthy `input` |
| `WaitTime.WaitNullEvent` | src/state-machine-executor.js:194 | When `SecondsPath` is used and the event is `null`, reading `event.input` throws the `TypeError` |
| `Interpreter.Start` | src/step-functions-api-simulator.js:33-37 | A run starts at `StartAt` on the request's input, with retry counter 0, no task calls and no ending |
| `Interpreter.Normalize` | src/state-machine-executor.js:217 | The record a state keeps after running differs only in its InputPath, which is `"$"` if it was omitted and unchanged otherwise, and selects the same for every input |
| `Interpreter.Settle` | src/state-machine-executor.js:135-187 | Parallel and unknown types, and only they, never settle; only Task and Wait states are rejected |
| `Interpreter.GoTo` | src/state-machine-executor.js:105-110 | `currentStateName` and the state to run become `Next`, the input becomes the output, the counter 0; records, task calls, reports and ending are kept |
| `Interpreter.OnSuccess` | src/state-machine-executor.js:50-70 | The success handler keeps the records and the task calls, and adds at most one report to those already made |
| `Interpreter.AfterOutput` | src/state-machine-executor.js:62-69 | After OutputPath, records and task calls are kept and exactly the OutputPath report, if any, is added |
| `Interpreter.OnFailure` | src/state-machine-executor.js:71-102 | The failure handler keeps records, task calls and reports; unless the run ends, the next attempt is entered directly, either the same state on the same input with the counter one higher or the catch rule's state with counter 0 |
| `Interpreter.Escalate` | src/state-machine-executor.js:84-101 | Without retries left, the run goes on only through a catch rule, entered directly with counter 0; records, task calls and reports are kept |
| `Interpreter.SyncThrow` | src/state-machine-executor.js:45-46 | An exception thrown before the work starts keeps records, task calls and reports, and stops the run when `spawnProcess` was not called by a success handler |
| `Interpreter.Attempt` | src/state-machine-executor.js:41-103 | An attempt never adds or removes a state and never takes back a report; it calls the runner of tasks at most once, and only for a Task state |
| `Interpreter.Prepare` | src/state-machine-executor.js:45-49 | Once the InputPath default is written back, the rest of the attempt keeps the state names, never takes back a report, and makes at most one task call, only for a Task |
| `Interpreter.Work` | src/state-machine-executor.js:49-102 | The work and its handler never take back a report, keep the state names with the state's own among them, and count exactly one task call for a Task state and none otherwise |
| `Interpreter.Iterate` | src/state-machine-executor.js:41-110 | An ended run stays as it is; attempts never add or remove a state or take back a report, and make at most one task call each |
| `Interpreter.Resume` | src/state-machine-executor.js:41-110 | The `n`-th attempt leaves an ended run as it is and otherwise keeps the same frame as `Iterate` |
| `Interpreter.EndedStays` | src/state-machine-executor.js:64-67 | Once the run has ended, any number of further attempts leaves it unchanged |
| `Interpreter.StartValid` | src/state-machine-executor.js:41 | A new run satisfies the retry-counter invariant |
| `Interpreter.OnFailureValid` | src/state-machine-executor.js:72-81 | The failure handler never raises the counter beyond `max(MaxAttempts, 0)` |
| `Interpreter.OnSuccessValid` | src/state-machine-executor.js:50-69 | The success handler starts the next state at counter 0, and the handler it leaves to catch that state's throws keeps a counter within its own state's bound |
| `Interpreter.WorkValid` | src/state-machine-executor.js:49-102 | Settling a state's work, by either handler, keeps the retry-counter invariant |
| `Interpreter.SyncThrowValid` | src/state-machine-executor.js:45-46 | An exception thrown before the work starts keeps the retry-counter invariant, whether it stops the run or reaches the previous state's failure handler |
| `Interpreter.AttemptValid` | src/state-machine-executor.js:41-103 | Every attempt keeps the retry counter within `max(Retry[0].MaxAttempts, 0)` of the state it belongs to |
| `Interpreter.IterateValid` | src/state-machine-executor.js:41-110 | However many attempts run, the retry counter stays within its bound |
| `Interpreter.FailedTaskRetries` | src/state-machine-executor.js:72-81 | A task failing with retries left runs again on the same pre-InputPath input, with one more retry and one more task call |
| `Interpreter.FailedTaskEscalates` | src/state-machine-executor.js:72-101 | A task failing with no retries left goes on to the catch rule, or ends the run |
| `Interpreter.FirstRetry` | src/state-machine-executor.js:72-81 | The first failure of a task with a retry left is its first retry: same state and input, counter 1, one task call |
| `Interpreter.RetryAgain` | src/state-machine-executor.js:72-81 | A failure at the `j`-th retry, with the budget not used up, is the `(j + 1)`-th retry: same state and input, one more task call |
| `Interpreter.FinalAttemptEscalates` | src/state-machine-executor.js:72-101 | The attempt at a counter equal to the budget goes to the catch rule or ends the run, with one more task call |
| `Interpreter.RetriesSoFar` | src/state-machine-executor.js:72-81 | After `i` failed attempts with retries left, the run is at the same state and input, with counter `i` |
| `Interpreter.RetryChain` | src/state-machine-executor.js:72-81 | Attempts that each lead from one retry to the next reach the `i`-th retry after `i` attempts |
| `Interpreter.RetryBound` | src/state-machine-executor.js:43-81 | A task that always fails, with `Retry[0].MaxAttempts` = `m` (default 3), runs `max(m, 0) + 1` times on the same input and then escalates with the last error |
| `Interpreter.RetriesExhausted` | src/state-machine-executor.js:72-101 | The attempt after the last retry escalates |
| `Interpreter.NoRetriesLeft` | src/state-machine-executor.js:72-101 | With `MaxAttempts` 0 or less, the first failure escalates at once |
| `Interpreter.LastRetryFails` | src/state-machine-executor.js:72-101 | With a positive budget `m`, the `(m + 1)`-th failure escalates with its own error |
| `Interpreter.CatchStoresError` | src/state-machine-executor.js:84-98 | `Catch[0]` with ResultPath `$.a.b` stores `{Error, Cause: {errorType, errorMessage, trace}}` at `a.b`, keeps every other location, and moves to `Catch[0].Next` with counter 0 |
| `Interpreter.UncaughtEnds` | src/state-machine-executor.js:84-101 | Without a Catch the run ends with the error record, whose `Error` is the error's name, and with the state's input as output |
| `Interpreter.SuccessEndsIff` | src/state-machine-executor.js:64-67 | When OutputPath does not throw, a success ends the run if and only if the type is Succeed or Fail or `End` is true, and then no error is reported |
| `Interpreter.SuccessAdvances` | src/state-machine-executor.js:69-109 | When OutputPath does not throw and the run does not end, `currentStateName` becomes `Next`, the next state runs on the output with counter 0, and the state's own handler stays the one that catches a throw from that attempt |
| `Interpreter.OutputThrowFails` | src/state-machine-executor.js:53-71 | The OutputPath query throws exactly when the state is not Fail, its OutputPath is not `null` and the value after ResultPath is falsy; the same state's failure handler then runs with the `TypeError` on that value |
| `Interpreter.ResultIgnored` | src/state-machine-executor.js:55-57 | A result is used only by Parallel, Pass and Task states |
| `Interpreter.FailOutputsNull` | src/state-machine-executor.js:51-66 | A Fail state skips OutputPath and ends the run with output `null` and no error |
| `Interpreter.ResultHandedOn` | src/state-machine-executor.js:55-62 | With default paths a Pass or Task state hands on its result, or `{}` when the result is missing or falsy |
| `Interpreter.WaitAlwaysFails` | src/state-machine-executor.js:168-171 | A Wait state's work always fails with the `TypeError` for the missing `buildWaitStateTmp`, and its failure handler runs |
| `Interpreter.UnsupportedStalls` | src/state-machine-executor.js:181-184 | Parallel and unknown state types never settle, and the run stalls there |
| `Interpreter.ChoiceRewritesNext` | src/state-machine-executor.js:178-180 | A Choice state writes the evaluator's answer into its record's `Next`, goes there, and hands on its input after OutputPath, when OutputPath does not throw |
| `Interpreter.MissingStateBlamesPrevious` | src/state-machine-executor.js:45-109 | A jump to an unknown state name lands in the previous state's failure handler, with that state's record, counter and input |
| `Interpreter.MissingStateHalts` | src/state-machine-executor.js:45-96 | An unknown state reached from the start, a retry or a catch rule stops the run with the `TypeError` |
| `Interpreter.NullParametersThrow` | src/state-machine-executor.js:236-246 | `Parameters: null` throws before any work is done |
| `Interpreter.FalsyParametersInputThrows` | src/state-machine-executor.js:45-248 | A template with a `.$` key on a falsy selected input throws the `TypeError` before any work, and stops a run entered directly |
| `Executor.StateMachineExecutor.constructor` | src/state-machine-executor.js:15-18 | The executor starts at the given state name, on the given input |
| `Executor.StateMachineExecutor.ProcessTaskInputPath` | src/state-machine-executor.js:216-228 | Writes the default InputPath back into the record, changes nothing else, and returns the InputPath selection |
| `Executor.StateMachineExecutor.WhatToRun` | src/state-machine-executor.js:135-187 | Settles the state's work as its type says; a Task counts its call, and a Choice rewrites its record's `Next` |
| `Executor.StateMachineExecutor.GoToNextStep` | src/state-machine-executor.js:105-110 | Sets `currentStateName` and the state to run to `Next`, the input to the output, and the counter to 0 |
| `Executor.StateMachineExecutor.ProcessTaskResultPath` | src/state-machine-executor.js:268-287 | Replaces the input with the ResultPath weave of the result into it, and changes nothing else |
| `Executor.StateMachineExecutor.ProcessTaskOutputPath` | src/state-machine-executor.js:300-313 | Returns the OutputPath outcome, a throw included, records its report if any, and changes nothing else |
| `Executor.StateMachineExecutor.HandleSuccess` | src/state-machine-executor.js:50-70 | Changes the executor as the success handler does, passing a throw of the OutputPath query to the failure handler |
| `Executor.StateMachineExecutor.HandleOutput` | src/state-machine-executor.js:62-71 | After OutputPath, runs the failure handler on a throw, ends the run, or goes to `Next`, as `AfterOutput` says |
| `Executor.StateMachineExecutor.HandleFailure` | src/state-machine-executor.js:71-102 | Changes the executor as the failure handler does: retry, `Catch[0]`, or the end with the error record |
| `Executor.StateMachineExecutor.Throw` | src/state-machine-executor.js:45-69 | An exception thrown before the work starts either stops the run or goes to the previous state's failure handler |
| `Executor.StateMachineExecutor.SpawnProcess` | src/state-machine-executor.js:41-103 | One attempt changes the executor exactly as `Attempt` says, and keeps the retry counter within its bound |
| `Executor.StateMachineExecutor.RunWork` | src/state-machine-executor.js:49-102 | Runs the state's work and its handler, changing the executor exactly as `Work` says |
| `Executor.StateMachineExecutor.Execute` | src/state-machine-executor.js:41-110 | Runs attempts until the run ends or the fuel is spent; the executor is then the run `Iterate` gives for that fuel, and the retry-counter invariant holds |
| `Scenarios.PassRun` | src/state-machine-executor.js:159-161 | A Pass state with a Result and `End` ends the run with a copy of that Result as output |
| `Scenarios.RetryThenSucceed` | src/state-machine-executor.js:72-81 | A task with `MaxAttempts: 3` that fails twice and then returns ends after three calls with its result |
| `Scenarios.CatchRun` | src/state-machine-executor.js:93-96 | A failing task whose catch rule stores at `$.error` moves on with the error record beside the input's members |
| `Scenarios.WaitRun` | src/state-machine-executor.js:168-171 | A Wait state without handlers ends the run with the `TypeError`, and its input is unchanged |
| `Scenarios.ChoiceRun` | src/state-machine-executor.js:178-180 | A Choice state goes where the evaluator says and records that answer as its `Next` |
| `Scenarios.MissingNextRun` | src/state-machine-executor.js:72-109 | A Pass state whose `Next` does not exist is retried once for the missing state's exception, then ends the run with that error |
| `Scenarios.NullOutputRun` | src/state-machine-executor.js:300-303 | A Pass state with `OutputPath: null` hands `null` to a Succeed state, whose OutputPath query then throws, and the run ends with that `TypeError` and output `null` |

## Left out

* **Engine errors.** A `TypeError` raised by the engine itself
  (`Definition.TypeError`: the missing `buildWaitStateTmp`, an unknown state,
  `Object.keys(null)`, a query on a falsy value, an empty retry or catch list)
  carries only the first line of its stack, `TypeError: ` followed by the
  message. In Node the stack goes on with its `at …` frames, and it is copied
  into `Cause.trace` of the error record, so the traces in the model (and in
  `Scenarios.WaitRun`, `MissingNextRun` and `NullOutputRun`) are that first
  line only. The message texts follow the wording of recent Node releases
  (`Cannot read properties of undefined (reading '0')`); other versions word
  them differently.
* **Numbers.** Numbers are integers. Floating point (fractional `Seconds`,
  `MaxAttempts` or payload numbers) is not modelled.
* **Unary `+`.** Text with blanks, or in hex, octal,
  binary or exponent form, is NaN in the model, and so are `Infinity` and
  `-Infinity` (infinite in JavaScript) and decimal text with a leading or
  trailing point such as `5.` or `.5` (a number in JavaScript). Arrays count as NaN, although
  `+[]` is 0 and `+[5]` is 5 in JavaScript.
* **Paths.** Only `$` and dotted member names are modelled. Brackets,
  wildcards, filters, array indices and recursive descent of the JSONPath and
  object-path libraries are not. A query through a value that is not an object
  matches nothing.
* **Setting through a non-object.** A path through a value that is not an object leaves the
  document unchanged. What object-path does in that case is not part of this
  model.
* **Non-string paths.** A path that is not a string in a state record, for
  example a number, is not represented. A Parameters `.$` value that is not a
  string matches nothing.
* **Parameters.** A `k.$` key whose path matches nothing is left out of the
  result. The source keeps it bound to `undefined`, which disappears once
  serialised.
* **A template that throws for two reasons.** When one template both holds a
  nested `null` and queries a falsy input, the source throws for whichever
  key comes first in `Object.keys` order; the model reports the query's
  `TypeError`.
* **Keys `k` and `k.$` in one template.** The model gives `k.$` precedence. In
  the source the later key in `Object.keys` order wins.
* **Sharing.** `objectPath.set` updates shared objects in place. The model
  works on values (`Executor.StateMachineExecutor.ProcessTaskResultPath`
  reassigns the input). No frame that is revisited sees such an update before
  it happens, so the values agree.
* **Task runner.** Service requests (`processAWSServices`), Lambda loading
  through `require` and `createLambdaContext`, the `callback`, and the writes
  of `environment` into `process.env` are inside the oracle that runs tasks.
  * A task that rejects with a value that is not an `Error` is not
    distinguished: every rejection carries a name, a message and a stack.
  * A Task record lacking `handler`, which throws inside the promise executor,
    is part of the oracle's failures.
* **Choice evaluator.** `choiceProcessor.processChoice` is an oracle that
  always answers. If it throws, the Choice state would be rejected; this is not
  modelled.
* **Retry and Catch rules.** `ErrorEquals` is not read by the source, and only
  the first rule of each list is used, so the model keeps only `MaxAttempts`,
  `ResultPath` and `Next`. `Retry` or `Catch` set to `null` or to a non-array is
  not represented. An empty list is (it throws).
* **Logging.** Console logging, the log lines of `endStateMachine`, and the
  HTTP request and response are left out.
  * `endStateMachine` appears only as its effect on the run: `Completed` with
    an error and an output, or `true` as a returned value.
  * An invalid OutputPath is kept as a reported message (`diagnostics`).
* **Time.** `Date.now`, `startDate` and `executionArn` are left out.
* **Asynchrony.** Each settled promise is one step of the model.
  `setTimeout` is never reached, because the Wait state throws first.
* **Definition loading.** The constructor's loading of `state-machine.json`
  from disk is left out. The definition is a parameter.
* **Unbounded runs.** Runs are bounded by fuel. A
  definition that loops (for example through a Choice or a catch rule) runs
  forever in the source. The model stops after `fuel` attempts.
