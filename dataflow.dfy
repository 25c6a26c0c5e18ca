/**
 * The InputPath, ResultPath and OutputPath transforms that run around each
 * state's work (`processTaskInputPath`, `processTaskResultPath`,
 * `processTaskOutputPath`).
 */
module DataFlow {
  import opened Wrappers
  import opened JsonValues
  import opened Paths
  import opened Definition

  // ---------------------------------------------------------------------
  // InputPath

  /** The value InputPath queries: a falsy input is read as `{}`. */
  function Document(input: Json): Json
  {
    if Truthy(input) then input else Empty
  }

  /**
   * The work's input: `{}` for a `null` path; otherwise a copy of the path's
   * match in the input (a falsy input is read as `{}`), or that input itself
   * when the path matches nothing.  Either way it is a part of the input.
   */
  function InputPath(input: Json, path: Field<string>): (r: Json)
    ensures path.Null? ==> r == Empty
    ensures !path.Null? ==> exists steps :: Walk(Document(input), steps) == Some(r)
  {
    if path.Null? then Empty
    else
      var p := if path.Given? then path.value else "$";
      var doc := Document(input);
      assert Walk(doc, []) == Some(doc);
      assert Walk(doc, QuerySteps(Split(p))) == Select(doc, p);
      Select(doc, p).GetOr(doc)
  }

  /**
   * The InputPath a state record holds once it has run: an omitted one is
   * written back as `"$"`, which selects exactly what the omitted one did.
   */
  function DefaultInputPath(f: Field<string>): (g: Field<string>)
    ensures !g.Absent?
    ensures forall input :: InputPath(input, g) == InputPath(input, f)
  {
    if f.Absent? then Given("$") else f
  }

  /** A `null` InputPath hands the work `{}`, whatever the input. */
  lemma InputPathNull(input: Json)
    ensures InputPath(input, Null) == Empty
  {
  }

  /** An omitted InputPath and `"$"` both pass the whole input (a falsy one as `{}`). */
  lemma InputPathRoot(input: Json)
    ensures InputPath(input, Absent) == InputPath(input, Given("$"))
    ensures InputPath(input, Given("$")) == if Truthy(input) then input else Empty
  {
    SelectRoot(if Truthy(input) then input else Empty);
  }

  /** Applying InputPath `"$"` a second time changes nothing. */
  lemma InputPathIdempotent(input: Json)
    ensures InputPath(InputPath(input, Given("$")), Given("$")) == InputPath(input, Given("$"))
  {
    InputPathRoot(input);
    InputPathRoot(InputPath(input, Given("$")));
  }

  /** A path that matches hands the work the match; one that matches nothing hands it the whole input. */
  lemma InputPathSelects(input: Json, p: string)
    requires Truthy(input)
    ensures Select(input, p).Some? ==> InputPath(input, Given(p)) == Select(input, p).value
    ensures Select(input, p).None? ==> InputPath(input, Given(p)) == input
  {
  }

  // ---------------------------------------------------------------------
  // ResultPath

  /** The tokens `objectPath.set` receives: a leading `$` is dropped only when more tokens follow. */
  function ResultSteps(tokens: seq<string>): (steps: seq<string>)
    requires |tokens| >= 1
    ensures |steps| >= 1
  {
    if tokens[0] == "$" && |tokens| > 1 then tokens[1..] else tokens
  }

  /**
   * Weaves a state's result into its input: an omitted path or `"$"` gives the
   * result, `null` gives the input, any other path stores the result at that
   * location of the input.
   */
  function ResultPath(input: Json, path: Field<string>, data: Json): (r: Json)
    ensures path.Given? && path.value != "$" && Settable(input, ResultSteps(Split(path.value)))
            ==> Walk(r, ResultSteps(Split(path.value))) == Some(data)
  {
    match path
    case Absent => data
    case Null => input
    case Given(p) =>
      if p == "$" then data
      else
        var steps := ResultSteps(Split(p));
        assert Settable(input, steps) ==> Walk(SetAt(input, steps, data), steps) == Some(data) by {
          if Settable(input, steps) {
            SetThenWalk(input, steps, data);
          }
        }
        SetAt(input, steps, data)
  }

  /** An omitted ResultPath or `"$"` makes the result replace the input. */
  lemma ResultPathReplaces(input: Json, data: Json)
    ensures ResultPath(input, Absent, data) == data
    ensures ResultPath(input, Given("$"), data) == data
  {
  }

  /** A `null` ResultPath discards the result. */
  lemma ResultPathDiscards(input: Json, data: Json)
    ensures ResultPath(input, Null, data) == input
  {
  }

  /**
   * ResultPath `$.a.b...` stores the result at `a.b...` and leaves every
   * location off that path as it was.
   */
  lemma ResultPathStores(input: Json, steps: seq<string>, data: Json)
    requires |steps| >= 1
    requires forall i | 0 <= i < |steps| :: '.' !in steps[i]
    requires Settable(input, steps)
    ensures Walk(ResultPath(input, Given("$." + Join(steps)), data), steps) == Some(data)
    ensures forall q :: Diverge(steps, q) ==>
              Walk(ResultPath(input, Given("$." + Join(steps)), data), q) == Walk(input, q)
  {
    var p := "$." + Join(steps);
    SplitAfterToken("$", Join(steps));
    SplitJoin(steps);
    assert "$" + "." + Join(steps) == p;
    assert Split(p) == ["$"] + steps;
    assert p != "$" by { assert |p| > 1; }
    assert ResultSteps(Split(p)) == steps;
    SetThenWalk(input, steps, data);
    forall q | Diverge(steps, q)
      ensures Walk(ResultPath(input, Given(p), data), q) == Walk(input, q)
    {
      SetFrame(input, steps, data, q);
    }
  }

  // ---------------------------------------------------------------------
  // OutputPath

  datatype Emitted =
    /** What `processTaskOutputPath` returns, and the error it reports, if any. */
    | Emitted(value: Json, reported: Option<string>)
    /** The query itself threw: a falsy value has no list of matches to index. */
    | OutputThrew(error: Thrown)

  /** How the path appears in the error text: an omitted path prints as `undefined`. */
  function PathText(path: Field<string>): string
  {
    match path
    case Given(p) => p
    case Null => "null"
    case Absent => "undefined"
  }

  function InvalidOutputPathMessage(stateName: string, pathText: string): string
  {
    "An error occurred while executing the state '" + stateName + "'. Invalid OutputPath '"
    + pathText + "': The Output path references an invalid value."
  }

  /**
   * The state's output: `null` for a `null` path; otherwise the first match of
   * the path (`"$"` when omitted or empty).  A missing or falsy match is
   * reported as an invalid OutputPath, and the value handed on is then `true`
   * (what the reporting routine returns).  Querying a falsy value throws.
   */
  function OutputPath(data: Json, path: Field<string>, stateName: string): (e: Emitted)
    ensures e.OutputThrew? <==> !path.Null? && !Truthy(data)
    ensures e.OutputThrew? ==> e.error == QueryError
    ensures e.Emitted? && e.reported.None? ==> Truthy(e.value) || (path.Null? && e.value == JNull)
    ensures e.Emitted? && e.reported.Some? ==> e.value == JBool(true)
  {
    if path.Null? then Emitted(JNull, None)
    else if !Truthy(data) then OutputThrew(QueryError)
    else
      var p := if path.Given? && path.value != "" then path.value else "$";
      var invalid := Emitted(JBool(true), Some(InvalidOutputPathMessage(stateName, PathText(path))));
      match Select(data, p)
      case None => invalid
      case Some(v) => if Truthy(v) then Emitted(v, None) else invalid
  }

  /** A `null` OutputPath hands on `null` and reports nothing. */
  lemma OutputPathNull(data: Json, stateName: string)
    ensures OutputPath(data, Null, stateName) == Emitted(JNull, None)
  {
  }

  /**
   * For a path that is not `null`, applied to a truthy value: nothing is
   * reported exactly when the path's first match exists and is truthy, and
   * then that match is the output; otherwise the error names the state and the
   * path, and `true` is handed on.
   */
  lemma OutputPathSelects(data: Json, p: string, stateName: string)
    requires p != "" && Truthy(data)
    ensures var e := OutputPath(data, Given(p), stateName);
            && e.Emitted?
            && (e.reported.None? <==> Select(data, p).Some? && Truthy(Select(data, p).value))
            && (e.reported.None? ==> e.value == Select(data, p).value)
            && (e.reported.Some? ==>
                  e.value == JBool(true) && e.reported.value == InvalidOutputPathMessage(stateName, p))
  {
  }

  /** An omitted OutputPath hands on the whole value when it is truthy; on a falsy one the query throws. */
  lemma OutputPathRoot(data: Json, stateName: string)
    ensures Truthy(data) ==> OutputPath(data, Absent, stateName) == Emitted(data, None)
    ensures !Truthy(data) ==> OutputPath(data, Absent, stateName) == OutputThrew(QueryError)
  {
    SelectRoot(data);
  }
}
