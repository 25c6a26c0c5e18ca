/**
 * The records a state-machine definition is made of, and the error values
 * the interpreter builds.
 */
module Definition {
  import opened Wrappers
  import opened JsonValues

  /** A field of a state record that may be omitted (`undefined`), `null`, or given. */
  datatype Field<+T> = Absent | Null | Given(value: T)

  datatype StateType =
    | Task
    | Pass
    | Wait
    | Choice
    | Succeed
    | Fail
    | Parallel
    | Unknown(name: string)

  /** A retry rule; only `MaxAttempts` is read. */
  datatype Retrier = Retrier(MaxAttempts: Option<int>)

  /** A catch rule: where the error record goes, and which state runs next. */
  datatype Catcher = Catcher(ResultPath: Field<string>, Next: Option<string>)

  /**
   * One state of a definition.  `End` is whether the field is the boolean
   * `true`; `Parameters` is `None` when the field is omitted (a `null` there is
   * `Some(JNull)`).  `Resource` and `Handler` only matter to the runner of tasks.
   */
  datatype State = State(
    Type: StateType,
    InputPath: Field<string>,
    Parameters: Option<Json>,
    ResultPath: Field<string>,
    OutputPath: Field<string>,
    Next: Option<string>,
    End: bool,
    Retry: Option<seq<Retrier>>,
    Catch: Option<seq<Catcher>>,
    Result: Option<Json>,
    Seconds: Option<Json>,
    SecondsPath: Option<string>,
    Resource: Option<string>,
    Handler: Option<string>)

  /** A JavaScript error value: its `name`, `message` and `stack`. */
  datatype Thrown = Thrown(name: string, message: string, stack: string)

  /** A `TypeError` raised by the engine itself; its stack is its first line. */
  function TypeError(message: string): Thrown
  {
    Thrown("TypeError", message, "TypeError: " + message)
  }

  /**
   * What `jsonPath({json, path})[0]` throws when `json` is falsy: the query
   * then returns `undefined` instead of a list of matches.
   */
  const QueryError := TypeError("Cannot read properties of undefined (reading '0')")

  /**
   * The error record a catch rule stores:
   * `{Error: name, Cause: {errorType: name, errorMessage: message, trace: stack}}`.
   */
  function ErrorRecord(e: Thrown): Json
  {
    JObj(map[
      "Error" := JStr(e.name),
      "Cause" := JObj(map[
        "errorType" := JStr(e.name),
        "errorMessage" := JStr(e.message),
        "trace" := JStr(e.stack)])])
  }

  /** The name under which `goToNextStep` looks a successor up: `undefined` becomes `"undefined"`. */
  function NameOf(next: Option<string>): string
  {
    next.GetOr("undefined")
  }
}
