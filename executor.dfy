/**
 * The executor object (`StateMachineExecutor`): its fields change as the run
 * goes from state to state, and each method is proved to change them as the
 * interpreter's functions say.
 */
module Executor {
  import opened Wrappers
  import opened JsonValues
  import opened Paths
  import opened Definition
  import opened DataFlow
  import opened Parameters
  import opened Interpreter

  class StateMachineExecutor {
    /** The state records of the definition; the run writes InputPath defaults and Choice answers back into them. */
    var states: map<string, State>
    /** The name the executor reports (used in the invalid OutputPath message). */
    var currentStateName: string
    /** The record the next `spawnProcess` runs, its input, its retry counter and its caller. */
    var stateKey: string
    var globalInput: Json
    var retryNumber: nat
    var entry: Entry
    /** How many task invocations were made. */
    var taskCalls: nat
    /** The invalid OutputPath errors reported so far. */
    var diagnostics: seq<string>
    /** How the run ended, once it has. */
    var ending: Option<Ending>

    function Snapshot(): Run
      reads this
    {
      Run(states, currentStateName, stateKey, globalInput, retryNumber, entry, taskCalls, diagnostics, ending)
    }

    ghost predicate Valid()
      reads this
    {
      Interpreter.Valid(Snapshot())
    }

    /** An executor about to run state `stateName` of `definition` on `input`. */
    constructor (definition: map<string, State>, stateName: string, input: Json)
      ensures Snapshot() == Start(definition, stateName, input)
      ensures Valid()
    {
      states := definition;
      currentStateName := stateName;
      stateKey := stateName;
      globalInput := input;
      retryNumber := 0;
      entry := Direct;
      taskCalls := 0;
      diagnostics := [];
      ending := None;
      StartValid(definition, stateName, input);
    }

    /** Writes the default InputPath back into the current record and selects the work's input. */
    method ProcessTaskInputPath(input: Json) returns (r: Json)
      requires stateKey in states
      modifies this
      ensures Snapshot() == old(Snapshot()).(states := old(states[stateKey := Normalize(states[stateKey])]))
      ensures r == InputPath(input, states[stateKey].InputPath)
    {
      var info := states[stateKey];
      info := info.(InputPath := if info.InputPath.Absent? then Given("$") else info.InputPath);
      states := states[stateKey := info];
      r := InputPath(input, info.InputPath);
    }

    /**
     * Starts the work of the current record; a Task counts its invocation and
     * a Choice writes the evaluator's answer into its record's `Next`.
     */
    method WhatToRun(o: Oracles, input: Json) returns (s: Settled)
      requires stateKey in states
      modifies this
      ensures s == Settle(o, old(states[stateKey]), input, old(taskCalls))
      ensures var st := old(states[stateKey]);
              Snapshot() == old(Snapshot()).(
                states := if st.Type.Choice? then old(states)[stateKey := st.(Next := o.choose(st, input))]
                          else old(states),
                taskCalls := if st.Type.Task? then old(taskCalls) + 1 else old(taskCalls))
    {
      var info := states[stateKey];
      match info.Type {
        case Task =>
          var outcome := o.task(taskCalls, info, input);
          taskCalls := taskCalls + 1;
          match outcome {
            case Returned(d) => s := Resolved(Some(d));
            case Raised(e) => s := Rejected(e);
          }
        case Pass => s := Resolved(info.Result);
        case Wait => s := Rejected(WaitError);
        case Succeed => s := Resolved(Some(JBool(true)));
        case Fail => s := Resolved(Some(JBool(true)));
        case Choice =>
          states := states[stateKey := info.(Next := o.choose(info, input))];
          s := Resolved(None);
        case Parallel => s := Pending;
        case Unknown(_) => s := Pending;
      }
    }

    /** Moves on to the state named `next`, with `output` as its input and a fresh retry counter. */
    method GoToNextStep(next: Option<string>, output: Json, caller: Entry)
      modifies this
      ensures Snapshot() == GoTo(old(Snapshot()), next, output, caller)
    {
      currentStateName := NameOf(next);
      stateKey := currentStateName;
      globalInput := output;
      retryNumber := 0;
      entry := caller;
    }

    /** Selects a state's output, reporting an invalid path; the query on a falsy value throws. */
    method ProcessTaskOutputPath(data: Json, path: Field<string>) returns (e: Emitted)
      modifies this
      ensures e == OutputPath(data, path, old(currentStateName))
      ensures Snapshot() == old(Snapshot()).(diagnostics := old(diagnostics) + Reports(e))
    {
      e := OutputPath(data, path, currentStateName);
      if e.Emitted? && e.reported.Some? {
        diagnostics := diagnostics + [e.reported.value];
      }
    }

    /** Weaves `data` into the current input at `resultPath`, in place. */
    method ProcessTaskResultPath(resultPath: Field<string>, data: Json)
      modifies this
      ensures Snapshot() == old(Snapshot()).(globalInput := ResultPath(old(globalInput), resultPath, data))
    {
      if resultPath.Absent? || resultPath == Given("$") {
        globalInput := data;
      } else if resultPath.Given? {
        globalInput := SetAt(globalInput, ResultSteps(Split(resultPath.value)), data);
      }
    }

    /**
     * The success handler: ResultPath and OutputPath, then the end of the run
     * or the next state; when the OutputPath query throws, the failure handler.
     */
    method HandleSuccess(st: State, data: Option<Json>)
      modifies this
      ensures Snapshot() == Interpreter.OnSuccess(old(Snapshot()), st, data)
    {
      ghost var r0 := Snapshot();
      if st.Type.Parallel? || st.Type.Pass? || st.Type.Task? {
        ProcessTaskResultPath(st.ResultPath, OrEmpty(data));
      }
      ghost var r1 := Snapshot();
      assert r1 == r0.(globalInput := Woven(r0, st, data));
      var emitted := Emitted(JNull, None);
      if !st.Type.Fail? {
        emitted := ProcessTaskOutputPath(globalInput, st.OutputPath);
      }
      assert emitted == Output(r0, st, data);
      ghost var r2 := Snapshot();
      assert r2 == r1.(diagnostics := r1.diagnostics + Reports(emitted));
      HandleOutput(st, emitted, r1);
    }

    /**
     * The rest of the success handler, once OutputPath produced `emitted` on
     * the run `before` (whose only change since is the reported error): the
     * end of the run or the next state, or the failure handler when the query threw.
     */
    method HandleOutput(st: State, emitted: Emitted, ghost before: Run)
      requires Snapshot() == before.(diagnostics := before.diagnostics + Reports(emitted))
      modifies this
      ensures Snapshot() == AfterOutput(before, st, emitted)
    {
      if emitted.OutputThrew? {
        HandleFailure(st, emitted.error);
        return;
      }
      if st.Type.Succeed? || st.Type.Fail? || st.End {
        ending := Some(Completed(None, emitted.value));
        return;
      }
      GoToNextStep(st.Next, emitted.value, AfterSuccess(stateKey, st, retryNumber, globalInput));
    }

    /** The failure handler: a retry, the first catch rule, or the end of the run with the error. */
    method HandleFailure(st: State, e: Thrown)
      modifies this
      ensures Snapshot() == Interpreter.OnFailure(old(Snapshot()), st, e)
    {
      if st.Retry.Some? {
        if |st.Retry.value| == 0 {
          ending := Some(Halted(NoRetrierError));
          return;
        }
        var n := retryNumber + 1;
        var maxAttempts := if st.Retry.value[0].MaxAttempts.Some? then st.Retry.value[0].MaxAttempts.value else 3;
        if n <= maxAttempts {
          retryNumber := n;
          entry := Direct;
          return;
        }
      }
      var errorJson := ErrorRecord(e);
      if st.Catch.Some? {
        if |st.Catch.value| == 0 {
          ending := Some(Halted(NoCatcherError));
          return;
        }
        var catcher := st.Catch.value[0];
        ProcessTaskResultPath(catcher.ResultPath, errorJson);
        GoToNextStep(catcher.Next, globalInput, Direct);
        return;
      }
      ending := Some(Completed(Some(errorJson), globalInput));
    }

    /** An exception thrown before the work starts: unhandled, or caught by the previous state's handler. */
    method Throw(e: Thrown)
      modifies this
      ensures Snapshot() == SyncThrow(old(Snapshot()), e)
    {
      match entry {
        case Direct =>
          ending := Some(Halted(e));
        case AfterSuccess(k, info, n, g) =>
          stateKey := k;
          retryNumber := n;
          globalInput := g;
          HandleFailure(info, e);
      }
    }

    /**
     * `spawnProcess`: one attempt at the current state, settled by its
     * handlers; the retry counter stays within its bound.
     */
    method SpawnProcess(o: Oracles)
      requires Valid()
      modifies this
      ensures Snapshot() == Attempt(o, old(Snapshot()))
      ensures Valid()
    {
      AttemptValid(o, Snapshot());
      if stateKey !in states {
        Throw(MissingStateError);
        return;
      }
      var input := ProcessTaskInputPath(globalInput);
      var params := ProcessTaskParameters(input, states[stateKey].Parameters);
      if params.None? {
        Throw(ParametersError(input, states[stateKey].Parameters));
        return;
      }
      RunWork(o, params.value);
    }

    /** Runs the current state's work on its prepared input and settles it by the handlers. */
    method RunWork(o: Oracles, input: Json)
      requires stateKey in states
      modifies this
      ensures Snapshot() == Work(o, old(Snapshot()), old(states[stateKey]), input)
    {
      var st := states[stateKey];
      ghost var r0 := Snapshot();
      assert r0.states[r0.stateKey := st] == r0.states;
      var settled := WhatToRun(o, input);
      var info := states[stateKey];
      ghost var r2 := Snapshot();
      assert r2 == r0.(states := r0.states[r0.stateKey := info],
                       taskCalls := if st.Type.Task? then r0.taskCalls + 1 else r0.taskCalls);
      match settled {
        case Resolved(d) => HandleSuccess(info, d);
        case Rejected(e) => HandleFailure(info, e);
        case Pending => ending := Some(Stalled(st.Type));
      }
    }

    /**
     * Runs attempts until the run ends or `fuel` attempts were made, which is
     * `Iterate` with that fuel; the retry counter stays within its bound throughout.
     */
    method Execute(o: Oracles, fuel: nat) returns (steps: nat)
      requires Valid()
      modifies this
      ensures steps <= fuel && Snapshot() == Iterate(o, old(Snapshot()), fuel)
      ensures steps < fuel ==> ending.Some?
      ensures Valid()
    {
      ghost var s0 := Snapshot();
      steps := 0;
      while steps < fuel && ending.None?
        invariant steps <= fuel
        invariant Snapshot() == Iterate(o, s0, steps)
        invariant Valid()
        decreases fuel - steps
      {
        SpawnProcess(o);
        steps := steps + 1;
      }
      if steps < fuel {
        EndedStays(o, s0, steps, fuel);
      }
    }
  }
}
