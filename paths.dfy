/**
 * Path expressions over JSON values: the part of JSONPath and object-path the
 * interpreter uses, restricted to the root `$` and dotted member names.
 *
 * A path string is split into tokens at every `.` (the role of
 * `jsonPath.toPathArray`).  A query (`jsonPath({json, path})`) treats a leading
 * `$` token as the root and then walks object members; setting a value
 * (`objectPath.set`) walks the same way and creates missing members as `{}`.
 */
module Paths {
  import opened Wrappers
  import opened JsonValues

  // ---------------------------------------------------------------------
  // Tokens

  /** The tokens of a path string, split at each `.`. */
  function Split(s: string): (r: seq<string>)
    ensures |r| >= 1
    ensures forall i | 0 <= i < |r| :: '.' !in r[i]
  {
    if s == [] then [""]
    else if s[0] == '.' then [""] + Split(s[1..])
    else
      var rest := Split(s[1..]);
      [[s[0]] + rest[0]] + rest[1..]
  }

  /** The path string of a token sequence: the tokens joined with `.`. */
  function Join(tokens: seq<string>): string
    requires |tokens| >= 1
  {
    if |tokens| == 1 then tokens[0] else tokens[0] + "." + Join(tokens[1..])
  }

  /** Prepending a character to the first token prepends it to the joined string. */
  lemma {:induction false} JoinPrepend(c: char, tokens: seq<string>)
    requires |tokens| >= 1
    ensures Join([[c] + tokens[0]] + tokens[1..]) == [c] + Join(tokens)
  {
    var u := [[c] + tokens[0]] + tokens[1..];
    assert u[0] == [c] + tokens[0] && u[1..] == tokens[1..];
  }

  /** Splitting loses nothing: joining the tokens gives back the path string. */
  lemma {:induction false} JoinSplit(s: string)
    ensures Join(Split(s)) == s
  {
    if s == [] {
    } else if s[0] == '.' {
      JoinSplit(s[1..]);
      assert s == "." + s[1..];
    } else {
      JoinSplit(s[1..]);
      JoinPrepend(s[0], Split(s[1..]));
      assert [s[0]] + s[1..] == s;
    }
  }

  /** A token free of dots followed by `.` and more text splits at that dot. */
  lemma {:induction false} SplitAfterToken(t: string, more: string)
    requires '.' !in t
    ensures Split(t + "." + more) == [t] + Split(more)
    ensures Split(t) == [t]
  {
    if t != [] {
      assert (t + "." + more)[1..] == t[1..] + "." + more;
      SplitAfterToken(t[1..], more);
      assert [t[0]] + t[1..] == t;
    }
  }

  /** Tokens without dots survive a join and a split unchanged. */
  lemma {:induction false} SplitJoin(tokens: seq<string>)
    requires |tokens| >= 1
    requires forall i | 0 <= i < |tokens| :: '.' !in tokens[i]
    ensures Split(Join(tokens)) == tokens
  {
    SplitAfterToken(tokens[0], "");
    if |tokens| > 1 {
      SplitJoin(tokens[1..]);
      SplitAfterToken(tokens[0], Join(tokens[1..]));
      assert [tokens[0]] + tokens[1..] == tokens;
    }
  }

  // ---------------------------------------------------------------------
  // Queries

  /** The member names a query walks: a leading `$` token stands for the root. */
  function QuerySteps(tokens: seq<string>): seq<string>
    requires |tokens| >= 1
  {
    if tokens[0] == "$" then tokens[1..] else tokens
  }

  /** The value reached by following object members named by `steps`; `None` when one is missing. */
  function Walk(doc: Json, steps: seq<string>): Option<Json>
  {
    if steps == [] then Some(doc)
    else
      match doc
      case JObj(m) => if steps[0] in m then Walk(m[steps[0]], steps[1..]) else None
      case _ => None
  }

  /** `jsonPath({json: doc, path})[0]`: the first (and only) match of the path, `None` if none. */
  function Select(doc: Json, path: string): Option<Json>
  {
    Walk(doc, QuerySteps(Split(path)))
  }

  /** `$` selects the whole document. */
  lemma SelectRoot(doc: Json)
    ensures Select(doc, "$") == Some(doc)
  {
    assert "$" == ['$'] + "";
    assert Split("$") == ["$"];
  }

  /** `$.a.b...` selects what walking the members `a`, `b`, ... reaches. */
  lemma SelectDotted(doc: Json, steps: seq<string>)
    requires |steps| >= 1
    requires forall i | 0 <= i < |steps| :: '.' !in steps[i]
    ensures Select(doc, "$." + Join(steps)) == Walk(doc, steps)
  {
    SplitAfterToken("$", Join(steps));
    SplitJoin(steps);
    assert "$" + "." + Join(steps) == "$." + Join(steps);
    assert QuerySteps(["$"] + steps) == steps;
  }

  // ---------------------------------------------------------------------
  // Setting a value at a path

  /**
   * `objectPath.set(doc, steps, v)` as a value: the member named by the last
   * step is bound to `v`; missing members on the way are created as `{}`.
   * A value that is not an object on the way is left as it is.
   */
  function SetAt(doc: Json, steps: seq<string>, v: Json): Json
    decreases |steps|
  {
    if steps == [] then doc
    else
      match doc
      case JObj(m) =>
        if |steps| == 1 then JObj(m[steps[0] := v])
        else
          var child := if steps[0] in m then m[steps[0]] else Empty;
          JObj(m[steps[0] := SetAt(child, steps[1..], v)])
      case _ => doc
  }

  /** Every value met on the way down `steps` is an object (or missing, and then created). */
  predicate Settable(doc: Json, steps: seq<string>)
    requires |steps| >= 1
  {
    && doc.JObj?
    && (|steps| == 1
        || steps[0] !in doc.fields
        || Settable(doc.fields[steps[0]], steps[1..]))
  }

  /** Two step sequences that part ways: neither is a prefix of the other. */
  predicate Diverge(p: seq<string>, q: seq<string>)
  {
    |p| >= 1 && |q| >= 1 && (p[0] != q[0] || Diverge(p[1..], q[1..]))
  }

  /** After setting, the path leads to the stored value. */
  lemma {:induction false} SetThenWalk(doc: Json, steps: seq<string>, v: Json)
    requires |steps| >= 1 && Settable(doc, steps)
    ensures Walk(SetAt(doc, steps, v), steps) == Some(v)
    decreases |steps|
  {
    if |steps| > 1 {
      var m := doc.fields;
      var child := if steps[0] in m then m[steps[0]] else Empty;
      SetThenWalk(child, steps[1..], v);
    }
  }

  /** Where the path runs into a value that is not an object, nothing is changed. */
  lemma {:induction false} SetUnsettable(doc: Json, steps: seq<string>, v: Json)
    requires |steps| >= 1 && !Settable(doc, steps)
    ensures SetAt(doc, steps, v) == doc
  {
    if doc.JObj? {
      var m := doc.fields;
      SetUnsettable(m[steps[0]], steps[1..], v);
      assert m[steps[0] := m[steps[0]]] == m;
    }
  }

  /** Setting leaves every location that the path does not lead through or into unchanged. */
  lemma {:induction false} SetFrame(doc: Json, steps: seq<string>, v: Json, q: seq<string>)
    requires Diverge(steps, q)
    ensures Walk(SetAt(doc, steps, v), q) == Walk(doc, q)
    decreases |steps|
  {
    if doc.JObj? && steps[0] == q[0] && |steps| > 1 {
      var m := doc.fields;
      var child := if steps[0] in m then m[steps[0]] else Empty;
      SetFrame(child, steps[1..], v, q[1..]);
      if steps[0] !in m {
        assert Walk(Empty, q[1..]) == None;
      }
    }
  }
}
