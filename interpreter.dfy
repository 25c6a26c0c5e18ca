/**
 * The state machine interpreter (`spawnProcess`, `whatToRun`, `goToNextStep`
 * and the success and failure handlers inside `spawnProcess`) as a function on
 * a snapshot of the executor.
 *
 * One call of `Attempt` is one `spawnProcess`: it prepares the state's input,
 * runs the state's work, and settles it by the success handler (ResultPath,
 * OutputPath, then the end of the run or the next state) or by the failure
 * handler (a retry of the same state, the first catch rule, or the end of the
 * run with an error).  The run is a chain of such attempts; `Iterate` runs
 * that chain for a bounded number of attempts.
 *
 * What the engine cannot see is a parameter: the runner of tasks (an AWS service
 * or a Lambda handler) and the choice evaluator.
 */
module Interpreter {
  import opened Wrappers
  import opened JsonValues
  import opened Paths
  import opened Definition
  import opened DataFlow
  import opened Parameters

  /** How a task invocation settles. */
  datatype TaskOutcome = Returned(data: Json) | Raised(error: Thrown)

  /**
   * The runner of tasks, given how many tasks ran before, the state record and
   * the state's input; and the choice evaluator, giving the name of the next
   * state (or `undefined`).
   */
  datatype Oracles = Oracles(
    task: (nat, State, Json) -> TaskOutcome,
    choose: (State, Json) -> Option<string>)

  /** How the promise returned by `whatToRun` settles. */
  datatype Settled = Resolved(data: Option<Json>) | Rejected(error: Thrown) | Pending

  /**
   * Who called the current `spawnProcess`, which decides where an exception it
   * throws before its promise exists goes: the start of the run, a catch rule
   * or a retry (`Direct`; the exception is unhandled and the run stops), or
   * the success handler of the previous state (the exception rejects that
   * handler, so the previous state's failure handler runs, with that state's
   * record, retry counter and input as the handler last saw them).
   */
  datatype Entry =
    | Direct
    | AfterSuccess(key: string, info: State, retry: nat, global: Json)

  datatype Ending =
    /** `endStateMachine` was called: the error record (none on success) and the output. */
    | Completed(error: Option<Json>, output: Json)
    /** An exception escaped every handler; nothing more happens. */
    | Halted(thrown: Thrown)
    /** The state's work never settles (Parallel and unknown types). */
    | Stalled(kind: StateType)

  /**
   * A snapshot of a run: the state records (which the run rewrites), the name
   * the executor reports (`currentStateName`), the record the next attempt runs
   * (`stateKey`), its input, its retry counter, who called it, how many tasks
   * ran, the reported invalid OutputPath errors, and how the run ended.
   */
  datatype Run = Run(
    states: map<string, State>,
    currentStateName: string,
    stateKey: string,
    globalInput: Json,
    retryNumber: nat,
    entry: Entry,
    taskCalls: nat,
    diagnostics: seq<string>,
    ending: Option<Ending>)

  /** A run about to execute state `startAt` of `states` on `input`. */
  function Start(states: map<string, State>, startAt: string, input: Json): (r: Run)
    ensures r.ending.None? && r.retryNumber == 0 && r.taskCalls == 0 && r.diagnostics == []
    ensures r.stateKey == startAt && r.currentStateName == startAt && r.globalInput == input
  {
    Run(states, startAt, startAt, input, 0, Direct, 0, [], None)
  }

  // The exceptions the engine itself raises.
  const MissingStateError := TypeError("Cannot read properties of undefined (reading 'InputPath')")
  const NullParametersError := TypeError("Cannot convert undefined or null to object")
  const WaitError := TypeError("this.buildWaitStateTmp is not a function")
  const NoRetrierError := TypeError("Cannot read properties of undefined (reading 'MaxAttempts')")
  const NoCatcherError := TypeError("Cannot read properties of undefined (reading 'ResultPath')")

  /** The state types whose result is woven into the input by ResultPath. */
  predicate ProducesResult(t: StateType)
  {
    t.Parallel? || t.Pass? || t.Task?
  }

  /** The state ends the run when it succeeds. */
  predicate Ends(st: State)
  {
    st.Type.Succeed? || st.Type.Fail? || st.End
  }

  /**
   * The record as it is after `processTaskInputPath` wrote its default
   * InputPath back: only that field changes, it selects what it did before,
   * and writing it back again changes nothing.
   */
  function Normalize(st: State): (n: State)
    ensures n.(InputPath := st.InputPath) == st
    ensures n.InputPath != Absent && forall input :: InputPath(input, n.InputPath) == InputPath(input, st.InputPath)
    ensures n.InputPath == Given("$") || n.InputPath == st.InputPath
  {
    st.(InputPath := DefaultInputPath(st.InputPath))
  }

  /** `MaxAttempts` of the first retry rule, 3 when omitted. */
  function RetryLimit(rs: seq<Retrier>): int
    requires |rs| > 0
  {
    rs[0].MaxAttempts.GetOr(3)
  }

  /** How many retries a state's record allows: `max(MaxAttempts, 0)` with a retry rule, else none. */
  function RetryBudget(st: State): nat
  {
    if st.Retry.Some? && |st.Retry.value| > 0 && RetryLimit(st.Retry.value) > 0
    then RetryLimit(st.Retry.value) as nat
    else 0
  }

  /**
   * `whatToRun`: how the work of a state settles on the prepared input.  Only
   * Parallel and unknown types never settle, and only Task and Wait states fail.
   */
  function Settle(o: Oracles, st: State, input: Json, calls: nat): (s: Settled)
    ensures s.Pending? <==> st.Type.Parallel? || st.Type.Unknown?
    ensures s.Rejected? ==> st.Type.Task? || st.Type.Wait?
  {
    match st.Type
    case Task =>
      (match o.task(calls, st, input)
       case Returned(d) => Resolved(Some(d))
       case Raised(e) => Rejected(e))
    case Pass => Resolved(st.Result)
    case Wait => Rejected(WaitError)
    case Succeed => Resolved(Some(JBool(true)))
    case Fail => Resolved(Some(JBool(true)))
    case Choice => Resolved(None)
    case Parallel => Pending
    case Unknown(_) => Pending
  }

  /** The records, the task count, the reported errors and the ending are the same in `r` and `s`. */
  predicate Keeps(r: Run, s: Run)
  {
    s.states == r.states && s.taskCalls == r.taskCalls && s.diagnostics == r.diagnostics && s.ending == r.ending
  }

  /**
   * `goToNextStep`: the next attempt runs the state named `next` on `value`,
   * with a fresh retry counter; nothing else about the run changes.
   */
  function GoTo(r: Run, next: Option<string>, value: Json, entry: Entry): (s: Run)
    ensures Keeps(r, s)
    ensures s.stateKey == s.currentStateName == NameOf(next) && s.globalInput == value && s.retryNumber == 0
  {
    r.(currentStateName := NameOf(next), stateKey := NameOf(next), globalInput := value,
       retryNumber := 0, entry := entry)
  }

  /** The reported error of an OutputPath, as a list of zero or one message. */
  function Reports(e: Emitted): seq<string>
  {
    if e.Emitted? && e.reported.Some? then [e.reported.value] else []
  }

  /** The output of a state that succeeded with `data`, before the run goes on. */
  function Output(r: Run, st: State, data: Option<Json>): Emitted
  {
    if st.Type.Fail? then Emitted(JNull, None)
    else OutputPath(Woven(r, st, data), st.OutputPath, r.currentStateName)
  }

  /** The state's input as the success handler leaves it: with the result woven in where the type has one. */
  function Woven(r: Run, st: State, data: Option<Json>): Json
  {
    if ProducesResult(st.Type) then ResultPath(r.globalInput, st.ResultPath, OrEmpty(data))
    else r.globalInput
  }

  /**
   * The success handler of `spawnProcess`.  An exception it throws (the
   * OutputPath query on a falsy value) rejects it, and the failure handler of
   * the same state runs on the input as the success handler left it.
   */
  function OnSuccess(r: Run, st: State, data: Option<Json>): (s: Run)
    ensures s.states == r.states && s.taskCalls == r.taskCalls
    ensures r.diagnostics <= s.diagnostics && |s.diagnostics| <= |r.diagnostics| + 1
  {
    AfterOutput(r.(globalInput := Woven(r, st, data)), st, Output(r, st, data))
  }

  /** The success handler once OutputPath has run on the input `r.globalInput` it wove. */
  function AfterOutput(r: Run, st: State, out: Emitted): (s: Run)
    ensures s.states == r.states && s.taskCalls == r.taskCalls
    ensures s.diagnostics == r.diagnostics + Reports(out)
  {
    match out
    case OutputThrew(e) => OnFailure(r, st, e)
    case Emitted(v, _) =>
      var r1 := r.(diagnostics := r.diagnostics + Reports(out));
      if Ends(st) then r1.(ending := Some(Completed(None, v)))
      else GoTo(r1, st.Next, v, AfterSuccess(r.stateKey, st, r.retryNumber, r.globalInput))
  }

  /**
   * The failure handler of `spawnProcess`, for the attempt whose frame is `r`
   * and whose record is `st`.  Unless the run ends, the same state runs again
   * on the same input with the counter one higher, or the catch rule's state
   * runs with a fresh counter.
   */
  function OnFailure(r: Run, st: State, e: Thrown): (s: Run)
    ensures s.states == r.states && s.taskCalls == r.taskCalls && s.diagnostics == r.diagnostics
    ensures s.ending.None? ==>
              && s.entry == Direct
              && ((s.stateKey == r.stateKey && s.globalInput == r.globalInput && s.retryNumber == r.retryNumber + 1)
                  || (st.Catch.Some? && s.retryNumber == 0))
  {
    if st.Retry.Some? && |st.Retry.value| == 0 then r.(ending := Some(Halted(NoRetrierError)))
    else if st.Retry.Some? && r.retryNumber + 1 <= RetryLimit(st.Retry.value) then
      r.(retryNumber := r.retryNumber + 1, entry := Direct)
    else Escalate(r, st, e)
  }

  /** The failure handler once retries are used up: the first catch rule, or the end of the run. */
  function Escalate(r: Run, st: State, e: Thrown): (s: Run)
    ensures s.states == r.states && s.taskCalls == r.taskCalls && s.diagnostics == r.diagnostics
    ensures s.ending.None? ==> st.Catch.Some? && s.entry == Direct && s.retryNumber == 0
  {
    match st.Catch
    case None => r.(ending := Some(Completed(Some(ErrorRecord(e)), r.globalInput)))
    case Some(cs) =>
      if |cs| == 0 then r.(ending := Some(Halted(NoCatcherError)))
      else GoTo(r, cs[0].Next, ResultPath(r.globalInput, cs[0].ResultPath, ErrorRecord(e)), Direct)
  }

  /**
   * An exception `spawnProcess` throws before its work starts, landing where
   * its caller was: it stops the run unless a success handler called it.
   */
  function SyncThrow(r: Run, e: Thrown): (s: Run)
    ensures s.states == r.states && s.taskCalls == r.taskCalls && s.diagnostics == r.diagnostics
    ensures r.entry.Direct? ==> s.ending == Some(Halted(e))
  {
    match r.entry
    case Direct => r.(ending := Some(Halted(e)))
    case AfterSuccess(k, info, n, g) =>
      OnFailure(r.(stateKey := k, retryNumber := n, globalInput := g), info, e)
  }

  /**
   * One `spawnProcess` of the state `r.stateKey`, settled by its handlers.
   * It never adds or removes a state, only appends to the reported errors,
   * and calls the runner of tasks once when the state is a Task, else never.
   */
  function Attempt(o: Oracles, r: Run): (s: Run)
    ensures s.states.Keys == r.states.Keys && r.diagnostics <= s.diagnostics
    ensures s.taskCalls == r.taskCalls
            || (s.taskCalls == r.taskCalls + 1 && r.stateKey in r.states && r.states[r.stateKey].Type.Task?)
  {
    if r.stateKey !in r.states then SyncThrow(r, MissingStateError)
    else Prepare(o, r.(states := r.states[r.stateKey := Normalize(r.states[r.stateKey])]))
  }

  /** The rest of an attempt once the record's InputPath default is written back: the Parameters template. */
  function Prepare(o: Oracles, r: Run): (s: Run)
    requires r.stateKey in r.states
    ensures s.states.Keys == r.states.Keys && r.diagnostics <= s.diagnostics
    ensures s.taskCalls == r.taskCalls || (s.taskCalls == r.taskCalls + 1 && r.states[r.stateKey].Type.Task?)
  {
    var st := r.states[r.stateKey];
    var selected := InputPath(r.globalInput, st.InputPath);
    match ProcessParameters(selected, st.Parameters)
    case None => SyncThrow(r, ParametersError(selected, st.Parameters))
    case Some(input) => Work(o, r, st, input)
  }

  /**
   * The exception a throwing Parameters template raises: the failed query's
   * when the template queries a falsy input, `Object.keys(null)`'s otherwise.
   */
  function ParametersError(input: Json, params: Option<Json>): Thrown
  {
    if !Truthy(input) && params.Some? && UsesPaths(params.value) then QueryError else NullParametersError
  }

  /**
   * The state's work on its prepared input (`whatToRun`), settled by the
   * success or failure handler; a Task counts one call of the runner of tasks.
   */
  function Work(o: Oracles, r: Run, st: State, input: Json): (s: Run)
    ensures s.states.Keys == r.states.Keys + {r.stateKey} && r.diagnostics <= s.diagnostics
    ensures s.taskCalls == if st.Type.Task? then r.taskCalls + 1 else r.taskCalls
  {
    var st2 := if st.Type.Choice? then st.(Next := o.choose(st, input)) else st;
    var r2 := r.(states := r.states[r.stateKey := st2],
                 taskCalls := if st.Type.Task? then r.taskCalls + 1 else r.taskCalls);
    match Settle(o, st, input, r.taskCalls)
    case Resolved(d) => OnSuccess(r2, st2, d)
    case Rejected(e) => OnFailure(r2, st2, e)
    case Pending => r2.(ending := Some(Stalled(st.Type)))
  }

  /**
   * The run after at most `n` attempts, stopping when it ends: an ended run
   * stays as it is, and no attempt adds or removes a state, takes back a
   * reported error, or calls the runner of tasks more than once.
   */
  function Iterate(o: Oracles, r: Run, n: nat): (s: Run)
    ensures r.ending.Some? ==> s == r
    ensures s.states.Keys == r.states.Keys && r.diagnostics <= s.diagnostics
    ensures r.taskCalls <= s.taskCalls <= r.taskCalls + n
    decreases n, 1
  {
    if n == 0 then r else Resume(o, r, n)
  }

  /** The run after `n - 1` attempts, attempted once more unless it has ended. */
  function Resume(o: Oracles, r: Run, n: nat): (s: Run)
    requires n >= 1
    ensures r.ending.Some? ==> s == r
    ensures s.states.Keys == r.states.Keys && r.diagnostics <= s.diagnostics
    ensures r.taskCalls <= s.taskCalls <= r.taskCalls + n
    decreases n, 0
  {
    var p := Iterate(o, r, n - 1);
    if p.ending.Some? then p else Attempt(o, p)
  }

  /** Once the run has ended, further attempts leave it as it is. */
  lemma {:induction false} EndedStays(o: Oracles, r: Run, n: nat, m: nat)
    requires n <= m && Iterate(o, r, n).ending.Some?
    ensures Iterate(o, r, m) == Iterate(o, r, n)
    decreases m
  {
    if m > n {
      EndedStays(o, r, n, m - 1);
    }
  }

  // ---------------------------------------------------------------------
  // The retry counter

  /**
   * The retry counter never exceeds what the record of its state allows, and
   * a success handler that may still be re-entered refers to a record that
   * keeps its retry rules.
   */
  ghost predicate Valid(r: Run)
  {
    && (r.stateKey in r.states ==> r.retryNumber <= RetryBudget(r.states[r.stateKey]))
    && EntryValid(r)
  }

  /** The success handler that may be re-entered refers to a record that keeps its retry rules. */
  ghost predicate EntryValid(r: Run)
  {
    r.entry.AfterSuccess? ==>
      && r.entry.key in r.states
      && r.states[r.entry.key].Retry == r.entry.info.Retry
      && r.entry.retry <= RetryBudget(r.entry.info)
  }

  lemma StartValid(states: map<string, State>, startAt: string, input: Json)
    ensures Valid(Start(states, startAt, input))
  {
  }

  lemma OnFailureValid(r: Run, st: State, e: Thrown)
    requires r.stateKey in r.states && r.states[r.stateKey].Retry == st.Retry
    requires r.retryNumber <= RetryBudget(st)
    requires EntryValid(r)
    ensures Valid(OnFailure(r, st, e))
  {
  }

  lemma OnSuccessValid(r: Run, st: State, data: Option<Json>)
    requires r.stateKey in r.states && r.states[r.stateKey].Retry == st.Retry
    requires r.retryNumber <= RetryBudget(st)
    requires EntryValid(r)
    ensures Valid(OnSuccess(r, st, data))
  {
    if Output(r, st, data).OutputThrew? {
      OnFailureValid(r.(globalInput := Woven(r, st, data)), st, Output(r, st, data).error);
    }
  }

  /** The work of a state keeps the retry counter within its bound. */
  lemma WorkValid(o: Oracles, r: Run, st: State, input: Json)
    requires Valid(r) && r.stateKey in r.states && r.states[r.stateKey] == st
    ensures Valid(Work(o, r, st, input))
  {
    var st2 := if st.Type.Choice? then st.(Next := o.choose(st, input)) else st;
    var r2 := r.(states := r.states[r.stateKey := st2],
                 taskCalls := if st.Type.Task? then r.taskCalls + 1 else r.taskCalls);
    assert r2.states[r2.stateKey].Retry == st2.Retry && r2.retryNumber <= RetryBudget(st2);
    assert EntryValid(r2);
    match Settle(o, st, input, r.taskCalls)
    case Resolved(d) =>
      assert Work(o, r, st, input) == OnSuccess(r2, st2, d);
      OnSuccessValid(r2, st2, d);
    case Rejected(e) =>
      assert Work(o, r, st, input) == OnFailure(r2, st2, e);
      OnFailureValid(r2, st2, e);
    case Pending =>
      assert Work(o, r, st, input) == r2.(ending := Some(Stalled(st.Type)));
  }

  /** An exception thrown before the work starts keeps the retry counter within its bound. */
  lemma SyncThrowValid(r: Run, e: Thrown)
    requires Valid(r)
    ensures Valid(SyncThrow(r, e))
  {
    if r.entry.AfterSuccess? {
      var AfterSuccess(k, info, n, g) := r.entry;
      OnFailureValid(r.(stateKey := k, retryNumber := n, globalInput := g), info, e);
    }
  }

  /** Every attempt keeps the retry counter within its bound. */
  lemma AttemptValid(o: Oracles, r: Run)
    requires Valid(r)
    ensures Valid(Attempt(o, r))
  {
    if r.stateKey !in r.states {
      SyncThrowValid(r, MissingStateError);
    } else {
      var r1 := r.(states := r.states[r.stateKey := Normalize(r.states[r.stateKey])]);
      assert Valid(r1);
      var st := r1.states[r1.stateKey];
      var selected := InputPath(r1.globalInput, st.InputPath);
      match ProcessParameters(selected, st.Parameters)
      case None =>
        SyncThrowValid(r1, ParametersError(selected, st.Parameters));
      case Some(input) =>
        WorkValid(o, r1, st, input);
    }
  }

  /** However many attempts run, the retry counter stays within its bound. */
  lemma {:induction false} IterateValid(o: Oracles, r: Run, n: nat)
    requires Valid(r)
    ensures Valid(Iterate(o, r, n))
    decreases n
  {
    if n > 0 {
      IterateValid(o, r, n - 1);
      if Iterate(o, r, n - 1).ending.None? {
        AttemptValid(o, Iterate(o, r, n - 1));
      }
    }
  }

  // ---------------------------------------------------------------------
  // Retry and catch

  /** A task whose invocation fails with retries left is run again: same state, same input, one more retry. */
  lemma FailedTaskRetries(o: Oracles, r: Run, st: State, input: Json)
    requires r.stateKey in r.states && Normalize(r.states[r.stateKey]) == st && st.Type.Task?
    requires ProcessParameters(InputPath(r.globalInput, st.InputPath), st.Parameters) == Some(input)
    requires o.task(r.taskCalls, st, input).Raised?
    requires st.Retry.Some? && |st.Retry.value| > 0 && r.retryNumber + 1 <= RetryLimit(st.Retry.value)
    ensures Attempt(o, r) == r.(states := r.states[r.stateKey := st], retryNumber := r.retryNumber + 1,
                                 entry := Direct, taskCalls := r.taskCalls + 1)
  {
  }

  /** A task whose invocation fails with no retries left goes to the catch rule or ends the run. */
  lemma FailedTaskEscalates(o: Oracles, r: Run, st: State, input: Json)
    requires r.stateKey in r.states && Normalize(r.states[r.stateKey]) == st && st.Type.Task?
    requires ProcessParameters(InputPath(r.globalInput, st.InputPath), st.Parameters) == Some(input)
    requires o.task(r.taskCalls, st, input).Raised?
    requires st.Retry.None? || (|st.Retry.value| > 0 && r.retryNumber + 1 > RetryLimit(st.Retry.value))
    ensures Attempt(o, r) == Escalate(r.(states := r.states[r.stateKey := st], taskCalls := r.taskCalls + 1),
                                      st, o.task(r.taskCalls, st, input).error)
  {
  }

  /** The run after `n` failed attempts of the state it started on, with retries left. */
  function Retried(r: Run, st: State, n: nat): Run
  {
    r.(states := r.states[r.stateKey := st], retryNumber := n,
       entry := if n == 0 then r.entry else Direct, taskCalls := r.taskCalls + n)
  }

  /** The first failed attempt, with a retry left, is the first retry. */
  lemma FirstRetry(o: Oracles, r: Run, st: State, input: Json)
    requires r.stateKey in r.states && Normalize(r.states[r.stateKey]) == st && st.Type.Task?
    requires ProcessParameters(InputPath(r.globalInput, st.InputPath), st.Parameters) == Some(input)
    requires forall n: nat :: o.task(n, st, input).Raised?
    requires st.Retry.Some? && |st.Retry.value| > 0
    requires r.retryNumber == 0 && r.ending.None?
    requires RetryBudget(st) >= 1
    ensures Attempt(o, r) == Retried(r, st, 1)
  {
    FailedTaskRetries(o, r, st, input);
  }

  /** The attempt made with the whole retry budget used escalates. */
  lemma FinalAttemptEscalates(o: Oracles, r: Run, st: State, input: Json)
    requires r.stateKey in r.states && Normalize(r.states[r.stateKey]) == st && st.Type.Task?
    requires ProcessParameters(InputPath(r.globalInput, st.InputPath), st.Parameters) == Some(input)
    requires forall n: nat :: o.task(n, st, input).Raised?
    requires st.Retry.Some? && |st.Retry.value| > 0
    requires r.ending.None? && RetryBudget(st) >= 1
    ensures var m := RetryBudget(st);
            Attempt(o, Retried(r, st, m))
            == Escalate(Retried(r, st, m).(taskCalls := r.taskCalls + m + 1), st,
                        o.task(r.taskCalls + m, st, input).error)
  {
    var s := Retried(r, st, RetryBudget(st));
    assert s.states[s.stateKey] == st;
    FailedTaskEscalates(o, s, st, input);
    assert s.states[s.stateKey := st] == s.states;
  }

  /** After `i` failed attempts, all within the budget, a Task state is at its `i`-th retry. */
  lemma RetriesSoFar(o: Oracles, r: Run, st: State, input: Json, i: nat)
    requires r.stateKey in r.states && Normalize(r.states[r.stateKey]) == st && st.Type.Task?
    requires ProcessParameters(InputPath(r.globalInput, st.InputPath), st.Parameters) == Some(input)
    requires forall n: nat :: o.task(n, st, input).Raised?
    requires st.Retry.Some? && |st.Retry.value| > 0
    requires r.retryNumber == 0 && r.ending.None?
    requires 1 <= i <= RetryBudget(st)
    ensures Iterate(o, r, i) == Retried(r, st, i)
  {
    FirstRetry(o, r, st, input);
    forall j | 1 <= j < i
      ensures Attempt(o, Retried(r, st, j)) == Retried(r, st, j + 1)
    {
      RetryAgain(o, r, st, input, j);
    }
    RetryChain(o, r, st, i);
  }

  /** Attempts that each lead from one retry to the next reach the `i`-th retry after `i` attempts. */
  lemma {:induction false} RetryChain(o: Oracles, r: Run, st: State, i: nat)
    requires 1 <= i && r.ending.None? && Attempt(o, r) == Retried(r, st, 1)
    requires forall j | 1 <= j < i :: Attempt(o, Retried(r, st, j)) == Retried(r, st, j + 1)
    ensures Iterate(o, r, i) == Retried(r, st, i)
    decreases i
  {
    if i > 1 {
      RetryChain(o, r, st, i - 1);
      IterateOnce(o, r, i, Retried(r, st, i - 1), Retried(r, st, i));
    }
  }

  /** A failed attempt at the `j`-th retry, with the budget not used up, is the next retry. */
  lemma RetryAgain(o: Oracles, r: Run, st: State, input: Json, j: nat)
    requires r.stateKey in r.states && Normalize(r.states[r.stateKey]) == st && st.Type.Task?
    requires ProcessParameters(InputPath(r.globalInput, st.InputPath), st.Parameters) == Some(input)
    requires forall n: nat :: o.task(n, st, input).Raised?
    requires st.Retry.Some? && |st.Retry.value| > 0
    requires r.ending.None? && 1 <= j < RetryBudget(st)
    ensures Attempt(o, Retried(r, st, j)) == Retried(r, st, j + 1)
  {
    var s := Retried(r, st, j);
    assert s.states[s.stateKey] == st;
    FailedTaskRetries(o, s, st, input);
    assert s.states[s.stateKey := st] == s.states;
  }

  /** The run after `n` attempts is one attempt after the run after `n - 1`, while it has not ended. */
  lemma IterateOnce(o: Oracles, r: Run, n: nat, p: Run, q: Run)
    requires n >= 1 && Iterate(o, r, n - 1) == p && p.ending.None? && Attempt(o, p) == q
    ensures Iterate(o, r, n) == q
  {
  }

  /**
   * A task that always fails, whose first retry rule allows `m` attempts,
   * runs `max(m, 0) + 1` times on the same input, each retry counted, and
   * then goes to its catch rule or ends the run with the last error.
   */
  lemma RetryBound(o: Oracles, r: Run, st: State, input: Json)
    requires r.stateKey in r.states && Normalize(r.states[r.stateKey]) == st && st.Type.Task?
    requires ProcessParameters(InputPath(r.globalInput, st.InputPath), st.Parameters) == Some(input)
    requires forall n: nat :: o.task(n, st, input).Raised?
    requires st.Retry.Some? && |st.Retry.value| > 0
    requires r.retryNumber == 0 && r.ending.None?
    ensures forall i | 1 <= i <= RetryBudget(st) :: Iterate(o, r, i) == Retried(r, st, i)
    ensures var m := RetryBudget(st);
            Iterate(o, r, m + 1)
            == Escalate(Retried(r, st, m).(taskCalls := r.taskCalls + m + 1), st,
                        o.task(r.taskCalls + m, st, input).error)
  {
    forall i | 1 <= i <= RetryBudget(st)
      ensures Iterate(o, r, i) == Retried(r, st, i)
    {
      RetriesSoFar(o, r, st, input, i);
    }
    RetriesExhausted(o, r, st, input);
  }

  /** The attempt after the last retry escalates. */
  lemma RetriesExhausted(o: Oracles, r: Run, st: State, input: Json)
    requires r.stateKey in r.states && Normalize(r.states[r.stateKey]) == st && st.Type.Task?
    requires ProcessParameters(InputPath(r.globalInput, st.InputPath), st.Parameters) == Some(input)
    requires forall n: nat :: o.task(n, st, input).Raised?
    requires st.Retry.Some? && |st.Retry.value| > 0
    requires r.retryNumber == 0 && r.ending.None?
    ensures var m := RetryBudget(st);
            Iterate(o, r, m + 1)
            == Escalate(Retried(r, st, m).(taskCalls := r.taskCalls + m + 1), st,
                        o.task(r.taskCalls + m, st, input).error)
  {
    if RetryBudget(st) == 0 {
      NoRetriesLeft(o, r, st, input);
    } else {
      LastRetryFails(o, r, st, input);
    }
  }

  lemma NoRetriesLeft(o: Oracles, r: Run, st: State, input: Json)
    requires r.stateKey in r.states && Normalize(r.states[r.stateKey]) == st && st.Type.Task?
    requires ProcessParameters(InputPath(r.globalInput, st.InputPath), st.Parameters) == Some(input)
    requires o.task(r.taskCalls, st, input).Raised?
    requires st.Retry.Some? && |st.Retry.value| > 0
    requires r.retryNumber == 0 && r.ending.None?
    requires RetryBudget(st) == 0
    ensures Iterate(o, r, 1)
            == Escalate(Retried(r, st, 0).(taskCalls := r.taskCalls + 1), st, o.task(r.taskCalls, st, input).error)
  {
    FailedTaskEscalates(o, r, st, input);
    assert r.(states := r.states[r.stateKey := st], taskCalls := r.taskCalls + 1)
           == Retried(r, st, 0).(taskCalls := r.taskCalls + 1);
  }

  lemma {:induction false} LastRetryFails(o: Oracles, r: Run, st: State, input: Json)
    requires r.stateKey in r.states && Normalize(r.states[r.stateKey]) == st && st.Type.Task?
    requires ProcessParameters(InputPath(r.globalInput, st.InputPath), st.Parameters) == Some(input)
    requires forall n: nat :: o.task(n, st, input).Raised?
    requires st.Retry.Some? && |st.Retry.value| > 0
    requires r.retryNumber == 0 && r.ending.None?
    requires RetryBudget(st) >= 1
    ensures var m := RetryBudget(st);
            Iterate(o, r, m + 1)
            == Escalate(Retried(r, st, m).(taskCalls := r.taskCalls + m + 1), st,
                        o.task(r.taskCalls + m, st, input).error)
  {
    RetriesSoFar(o, r, st, input, RetryBudget(st));
    FinalAttemptEscalates(o, r, st, input);
  }

  /**
   * With a catch rule whose ResultPath is `$.a.b...`, the error record is
   * stored at `a.b...` of the state's input, every location off that path is
   * kept, and the catch rule's next state runs on it, with a fresh retry counter.
   */
  lemma {:induction false} CatchStoresError(r: Run, st: State, e: Thrown, steps: seq<string>)
    requires r.ending.None?
    requires st.Catch.Some? && |st.Catch.value| > 0
    requires |steps| >= 1 && forall i | 0 <= i < |steps| :: '.' !in steps[i]
    requires st.Catch.value[0].ResultPath == Given("$." + Join(steps))
    requires Settable(r.globalInput, steps)
    ensures var s := Escalate(r, st, e);
            && s.ending.None? && s.retryNumber == 0 && s.entry == Direct
            && s.stateKey == NameOf(st.Catch.value[0].Next) == s.currentStateName
            && Walk(s.globalInput, steps) == Some(ErrorRecord(e))
            && forall q :: Diverge(steps, q) ==> Walk(s.globalInput, q) == Walk(r.globalInput, q)
  {
    var c := st.Catch.value[0];
    var rec := ErrorRecord(e);
    var g := ResultPath(r.globalInput, c.ResultPath, rec);
    assert Escalate(r, st, e) == GoTo(r, c.Next, g, Direct);
    ResultPathStores(r.globalInput, steps, rec);
  }

  /** Without a catch rule, the run ends reporting the error record, with the state's input as output. */
  lemma UncaughtEnds(r: Run, st: State, e: Thrown)
    requires st.Catch.None?
    ensures Escalate(r, st, e).ending == Some(Completed(Some(ErrorRecord(e)), r.globalInput))
    ensures Escalate(r, st, e).ending.value.error.value.fields["Error"] == JStr(e.name)
  {
  }

  // ---------------------------------------------------------------------
  // The success handler

  /**
   * The OutputPath query throws exactly when the state is not a Fail state,
   * its OutputPath is not `null`, and the input as the success handler left
   * it is falsy; the state's own failure handler then runs on that input.
   */
  lemma OutputThrowFails(r: Run, st: State, data: Option<Json>)
    ensures Output(r, st, data).OutputThrew? <==>
            !st.Type.Fail? && !st.OutputPath.Null? && !Truthy(Woven(r, st, data))
    ensures Output(r, st, data).OutputThrew? ==>
            OnSuccess(r, st, data) == OnFailure(r.(globalInput := Woven(r, st, data)), st, QueryError)
  {
  }

  /** When the output is produced, the run ends exactly when the state is Succeed or Fail or marked `End`. */
  lemma SuccessEndsIff(r: Run, st: State, data: Option<Json>)
    requires r.ending.None? && Output(r, st, data).Emitted?
    ensures OnSuccess(r, st, data).ending.Some? <==> Ends(st)
    ensures Ends(st) ==> OnSuccess(r, st, data).ending.value.Completed?
                         && OnSuccess(r, st, data).ending.value.error.None?
  {
  }

  /**
   * Otherwise the next state runs with a fresh retry counter, on the state's
   * output, and the state's own success handler stays the place where an
   * exception of that next attempt is caught.
   */
  lemma SuccessAdvances(r: Run, st: State, data: Option<Json>)
    requires !Ends(st) && r.ending.None? && Output(r, st, data).Emitted?
    ensures var s := OnSuccess(r, st, data);
            && s.ending.None? && s.retryNumber == 0
            && s.stateKey == NameOf(st.Next) == s.currentStateName
            && s.globalInput == Output(r, st, data).value
            && s.entry == AfterSuccess(r.stateKey, st, r.retryNumber, Woven(r, st, data))
            && s.states == r.states && s.taskCalls == r.taskCalls
  {
  }

  /** Only Parallel, Pass and Task states use their result: for every other type it is ignored. */
  lemma ResultIgnored(r: Run, st: State, d1: Option<Json>, d2: Option<Json>)
    requires !ProducesResult(st.Type)
    ensures OnSuccess(r, st, d1) == OnSuccess(r, st, d2)
  {
  }

  /** A Fail state ends the run with output `null` and no error, whatever its OutputPath. */
  lemma FailOutputsNull(r: Run, st: State, data: Option<Json>)
    requires st.Type.Fail?
    ensures OnSuccess(r, st, data).ending == Some(Completed(None, JNull))
    ensures OnSuccess(r, st, data).diagnostics == r.diagnostics
  {
  }

  /**
   * A Pass or Task state with the default paths hands on its result, or `{}`
   * when there is none or it is falsy; an invalid OutputPath is reported.
   */
  lemma ResultHandedOn(r: Run, st: State, data: Option<Json>)
    requires ProducesResult(st.Type) && st.ResultPath.Absent? && st.OutputPath.Absent?
    ensures Output(r, st, data) == Emitted(OrEmpty(data), None)
    ensures data.Some? && Truthy(data.value) ==> Output(r, st, data).value == data.value
  {
    OutputPathRoot(OrEmpty(data), r.currentStateName);
  }

  // ---------------------------------------------------------------------
  // What each state type does

  /** A Wait state never waits: its work always fails, and its failure handler runs. */
  lemma WaitAlwaysFails(o: Oracles, r: Run, input: Json)
    requires r.stateKey in r.states && r.states[r.stateKey].Type.Wait?
    requires var st := Normalize(r.states[r.stateKey]);
             ProcessParameters(InputPath(r.globalInput, st.InputPath), st.Parameters) == Some(input)
    ensures var st := Normalize(r.states[r.stateKey]);
            Attempt(o, r) == OnFailure(r.(states := r.states[r.stateKey := st]), st, WaitError)
  {
    var st := Normalize(r.states[r.stateKey]);
    var r1 := r.(states := r.states[r.stateKey := st]);
    assert r1.states[r1.stateKey := st] == r1.states;
    assert Attempt(o, r) == Work(o, r1, st, input);
  }

  /** Parallel and unknown states never settle: the run stalls there. */
  lemma UnsupportedStalls(o: Oracles, r: Run, input: Json)
    requires r.stateKey in r.states
    requires r.states[r.stateKey].Type.Parallel? || r.states[r.stateKey].Type.Unknown?
    requires var st := Normalize(r.states[r.stateKey]);
             ProcessParameters(InputPath(r.globalInput, st.InputPath), st.Parameters) == Some(input)
    ensures Attempt(o, r).ending == Some(Stalled(r.states[r.stateKey].Type))
    ensures Attempt(o, r).taskCalls == r.taskCalls
  {
  }

  /**
   * A Choice state overwrites its record's `Next` with the evaluator's answer
   * and then goes there (unless marked `End`); its input is not replaced by a result.
   */
  lemma ChoiceRewritesNext(o: Oracles, r: Run, input: Json)
    requires r.stateKey in r.states && r.states[r.stateKey].Type.Choice? && !r.states[r.stateKey].End
    requires r.ending.None?
    requires var st := Normalize(r.states[r.stateKey]);
             ProcessParameters(InputPath(r.globalInput, st.InputPath), st.Parameters) == Some(input)
    requires OutputPath(r.globalInput, r.states[r.stateKey].OutputPath, r.currentStateName).Emitted?
    ensures var st := Normalize(r.states[r.stateKey]);
            var s := Attempt(o, r);
            && s.states[r.stateKey] == st.(Next := o.choose(st, input))
            && s.stateKey == NameOf(o.choose(st, input))
            && s.globalInput == OutputPath(r.globalInput, st.OutputPath, r.currentStateName).value
            && s.ending.None? && s.taskCalls == r.taskCalls
  {
  }

  /**
   * When the state a success handler moved to does not exist, the exception
   * lands in the previous state's failure handler: the previous state is
   * retried, caught or ends the run, while the reported name stays the missing one.
   */
  lemma MissingStateBlamesPrevious(o: Oracles, r: Run)
    requires r.stateKey !in r.states && r.entry.AfterSuccess?
    ensures var AfterSuccess(k, info, n, g) := r.entry;
            Attempt(o, r) == OnFailure(r.(stateKey := k, retryNumber := n, globalInput := g),
                                       info, MissingStateError)
    ensures Attempt(o, r).ending.None? ==> Attempt(o, r).currentStateName == r.currentStateName
                                           || Attempt(o, r).retryNumber == 0
  {
  }

  /** A missing state reached from the start, a retry or a catch rule stops the run. */
  lemma MissingStateHalts(o: Oracles, r: Run)
    requires r.stateKey !in r.states && r.entry.Direct?
    ensures Attempt(o, r).ending == Some(Halted(MissingStateError))
  {
  }

  /**
   * A Parameters template that queries a falsy input (the state's input after
   * InputPath) makes the attempt throw before any work.
   */
  lemma FalsyParametersInputThrows(o: Oracles, r: Run)
    requires r.stateKey in r.states && r.entry.Direct?
    requires var st := r.states[r.stateKey];
             st.Parameters.Some? && UsesPaths(st.Parameters.value)
             && !Truthy(InputPath(r.globalInput, st.InputPath))
    ensures Attempt(o, r).ending == Some(Halted(QueryError))
  {
  }

  /** `Parameters: null` makes the attempt throw before any work. */
  lemma NullParametersThrow(o: Oracles, r: Run)
    requires r.stateKey in r.states && r.states[r.stateKey].Parameters == Some(JNull)
    requires r.entry.Direct?
    ensures Attempt(o, r).ending == Some(Halted(NullParametersError))
  {
    var st := Normalize(r.states[r.stateKey]);
    ParametersNullThrows(InputPath(r.globalInput, st.InputPath));
  }
}
