/**
 * Whole runs of small definitions, start to finish.
 */
module Scenarios {
  import opened Wrappers
  import opened JsonValues
  import opened Paths
  import opened Definition
  import opened DataFlow
  import opened Parameters
  import opened Interpreter

  /** A state of type `t` with every optional field omitted. */
  function Blank(t: StateType): State
  {
    State(t, Absent, None, Absent, Absent, None, false, None, None, None, None, None, None, None)
  }

  /** An evaluator for definitions without Choice states. */
  function NoChoice(): (State, Json) -> Option<string>
  {
    (s: State, x: Json) => None
  }

  /** A task runner whose first `k` invocations raise `e` and whose later ones return `d`. */
  function FailsThenReturns(k: nat, e: Thrown, d: Json): (nat, State, Json) -> TaskOutcome
  {
    (n: nat, s: State, x: Json) => if n < k then Raised(e) else Returned(d)
  }

  /** A single Pass state with a Result and `End` hands its Result on as the run's output. */
  lemma PassRun(task: (nat, State, Json) -> TaskOutcome)
    ensures var result := JObj(map["ok" := JBool(true)]);
            var states := map["P" := Blank(Pass).(Result := Some(result), End := true)];
            var s := Iterate(Oracles(task, NoChoice()), Start(states, "P", JObj(map["x" := JNum(1)])), 1);
            s.ending == Some(Completed(None, result)) && s.taskCalls == 0
  {
    var result := JObj(map["ok" := JBool(true)]);
    SelectRoot(JObj(map["x" := JNum(1)]));
    SelectRoot(result);
  }

  /**
   * A task with `Retry: [{MaxAttempts: 3}]` that fails twice and then returns
   * ends the run after three invocations with what it returned.
   */
  lemma RetryThenSucceed()
    ensures var done := JObj(map["done" := JBool(true)]);
            var task := FailsThenReturns(2, TypeError("boom"), done);
            var st := Blank(Task).(Retry := Some([Retrier(Some(3))]), End := true);
            var s := Iterate(Oracles(task, NoChoice()), Start(map["T" := st], "T", Empty), 3);
            s.ending == Some(Completed(None, done)) && s.taskCalls == 3 && s.retryNumber == 2
  {
    var done := JObj(map["done" := JBool(true)]);
    var task := FailsThenReturns(2, TypeError("boom"), done);
    var o := Oracles(task, NoChoice());
    var st := Blank(Task).(Retry := Some([Retrier(Some(3))]), End := true);
    var r := Start(map["T" := st], "T", Empty);
    var nst := Normalize(st);
    SelectRoot(Empty);
    assert ProcessParameters(InputPath(Empty, nst.InputPath), nst.Parameters) == Some(Empty);
    FailedTaskRetries(o, r, nst, Empty);
    var r1 := Attempt(o, r);
    assert Iterate(o, r, 1) == r1;
    FailedTaskRetries(o, r1, nst, Empty);
    var r2 := Attempt(o, r1);
    assert r2.stateKey == "T" && r2.states["T"] == nst && r2.taskCalls == 2 && r2.retryNumber == 2;
    SelectRoot(done);
    ResultHandedOn(r2.(taskCalls := 3), nst, Some(done));
  }

  /**
   * A task that fails, with a catch rule storing the error at `$.error` and
   * naming `Recover`, moves on to `Recover` with the error record stored
   * beside the input's own members.
   */
  lemma CatchRun()
    ensures var e := TypeError("boom");
            var task := FailsThenReturns(1, e, Empty);
            var st := Blank(Task).(Catch := Some([Catcher(Given("$.error"), Some("Recover"))]), Next := Some("Done"));
            var input := JObj(map["a" := JNum(1)]);
            var s := Iterate(Oracles(task, NoChoice()), Start(map["T" := st], "T", input), 1);
            && s.ending.None? && s.stateKey == "Recover" && s.retryNumber == 0
            && s.globalInput == JObj(map["a" := JNum(1), "error" := ErrorRecord(e)])
  {
    var e := TypeError("boom");
    var rec := ErrorRecord(e);
    var o := Oracles(FailsThenReturns(1, e, Empty), NoChoice());
    var st := Blank(Task).(Catch := Some([Catcher(Given("$.error"), Some("Recover"))]), Next := Some("Done"));
    var input := JObj(map["a" := JNum(1)]);
    var r := Start(map["T" := st], "T", input);
    var nst := Normalize(st);
    SelectRoot(input);
    assert ProcessParameters(InputPath(input, nst.InputPath), nst.Parameters) == Some(input);
    FailedTaskEscalates(o, r, nst, input);
    SplitAfterToken("$", "error");
    SplitAfterToken("error", "");
    assert "$" + "." + "error" == "$.error";
    assert ResultSteps(Split("$.error")) == ["error"];
    assert ResultPath(input, Given("$.error"), rec) == JObj(map["a" := JNum(1), "error" := rec]);
  }

  /** A Wait state without handlers ends the run with the TypeError its work raises, output unchanged. */
  lemma WaitRun(task: (nat, State, Json) -> TaskOutcome)
    ensures var input := JObj(map["t" := JNum(5)]);
            var st := Blank(Wait).(Seconds := Some(JNum(5)), Next := Some("Done"));
            var s := Iterate(Oracles(task, NoChoice()), Start(map["W" := st], "W", input), 1);
            s.ending == Some(Completed(Some(ErrorRecord(WaitError)), input))
  {
    SelectRoot(JObj(map["t" := JNum(5)]));
  }

  /**
   * A Choice state goes where the evaluator says, records that answer as its
   * `Next`, and hands its input on unchanged.
   */
  lemma ChoiceRun(task: (nat, State, Json) -> TaskOutcome)
    ensures var choose := (s: State, x: Json) => if x.JObj? && "go" in x.fields then Some("Yes") else Some("No");
            var input := JObj(map["go" := JBool(true)]);
            var s := Iterate(Oracles(task, choose), Start(map["C" := Blank(Choice)], "C", input), 1);
            && s.ending.None? && s.stateKey == "Yes" && s.globalInput == input
            && s.states["C"].Next == Some("Yes")
  {
    SelectRoot(JObj(map["go" := JBool(true)]));
  }

  /**
   * A Pass state with `Retry: [{MaxAttempts: 1}]` whose `Next` names a state
   * that does not exist runs twice (the missing state's exception is blamed
   * on it and retried once) and then ends the run with that exception as its
   * error, while the reported state name is the missing one.
   */
  lemma MissingNextRun(task: (nat, State, Json) -> TaskOutcome)
    ensures var st := Blank(Pass).(Retry := Some([Retrier(Some(1))]), Next := Some("Gone"));
            var input := JObj(map["k" := JNum(7)]);
            var o := Oracles(task, NoChoice());
            var r := Start(map["P" := st], "P", input);
            && Iterate(o, r, 2).ending.None? && Iterate(o, r, 2).stateKey == "P"
            && Iterate(o, r, 2).retryNumber == 1 && Iterate(o, r, 2).currentStateName == "Gone"
            && Iterate(o, r, 4).ending == Some(Completed(Some(ErrorRecord(MissingStateError)), Empty))
  {
    var st := Blank(Pass).(Retry := Some([Retrier(Some(1))]), Next := Some("Gone"));
    var input := JObj(map["k" := JNum(7)]);
    var o := Oracles(task, NoChoice());
    var r := Start(map["P" := st], "P", input);
    SelectRoot(input);
    SelectRoot(Empty);
    var r1 := Attempt(o, r);
    assert r1.stateKey == "Gone" && r1.globalInput == Empty;
    assert Iterate(o, r, 1) == r1;
    var r2 := Attempt(o, r1);
    assert r2.stateKey == "P" && r2.retryNumber == 1 && r2.globalInput == Empty;
    var r3 := Attempt(o, r2);
    assert r3.stateKey == "Gone" && r3.entry.retry == 1;
  }

  /**
   * A Pass state with `OutputPath: null` hands `null` on to a Succeed state,
   * whose default OutputPath `$` then queries that falsy input and throws:
   * with no handler the run ends with the TypeError as its error and `null`
   * as its output.
   */
  lemma NullOutputRun(task: (nat, State, Json) -> TaskOutcome)
    ensures var a := Blank(Pass).(OutputPath := Null, Next := Some("S"));
            var o := Oracles(task, NoChoice());
            var r := Start(map["A" := a, "S" := Blank(Succeed)], "A", JObj(map["k" := JNum(1)]));
            && Iterate(o, r, 1).ending.None? && Iterate(o, r, 1).stateKey == "S"
            && Iterate(o, r, 1).globalInput == JNull
            && Iterate(o, r, 2).ending == Some(Completed(Some(ErrorRecord(QueryError)), JNull))
  {
    var a := Blank(Pass).(OutputPath := Null, Next := Some("S"));
    var o := Oracles(task, NoChoice());
    var input := JObj(map["k" := JNum(1)]);
    var r := Start(map["A" := a, "S" := Blank(Succeed)], "A", input);
    SelectRoot(input);
    var r1 := Attempt(o, r);
    assert r1.stateKey == "S" && r1.globalInput == JNull && r1.ending.None?;
    assert Iterate(o, r, 1) == r1;
  }
}
