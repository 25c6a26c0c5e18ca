/**
 * The Parameters template (`processTaskParameters` / `handleParameters`): a
 * new object is built from the template's keys.  A key ending in `.$` is
 * bound, under its name without that suffix, to the first match of its path
 * in the input; a value that is itself an object (or array, or `null`) is a
 * nested template; any other value is copied as it is.
 *
 * The keys are those `Object.keys` lists: an object's own keys, an array's
 * indices and a string's character positions (as decimal text); a number or
 * boolean has none.  `Object.keys(null)` throws, so a `null` template, at any
 * depth, makes the whole call throw; so does a marked key when the input is
 * falsy, since the query then has no list of matches to index.  `None` stands
 * for the `TypeError` thrown.
 */
module Parameters {
  import opened Wrappers
  import opened JsonValues
  import opened Paths

  /** The template marker: a key ending in `.$` takes its value from a path. */
  predicate Marked(k: string) {
    |k| >= 2 && k[|k| - 2..] == ".$"
  }

  /** The key a marked key binds: the key without its `.$`. */
  function Unmarked(k: string): string
    requires Marked(k)
  {
    k[..|k| - 2]
  }

  lemma UnmarkedRoundTrip(k: string)
    requires Marked(k)
    ensures Unmarked(k) + ".$" == k
  {
  }

  lemma MarkedOf(o: string)
    ensures Marked(o + ".$") && Unmarked(o + ".$") == o
  {
  }

  /** `jsonPath({json: input, path: v})[0]`: a value that is not a path string matches nothing. */
  function PathValue(input: Json, v: Json): Option<Json>
  {
    if v.JStr? then Select(input, v.s) else None
  }

  /** What a plain key of the template is bound to: a nested template's result, or the value itself. */
  function Literal(input: Json, v: Json): Option<Json>
    decreases v, 3
  {
    if IsObjectLike(v) then Bind(input, v) else Some(v)
  }

  /** `handleParameters(input, params)`; `None` when it throws. */
  function Bind(input: Json, params: Json): (r: Option<Json>)
    ensures r.Some? ==> r.value.JObj?
    decreases params, 2
  {
    match params
    case JNull => None
    case JBool(_) => Some(Empty)
    case JNum(_) => Some(Empty)
    case JStr(s) => Some(JObj(CharEntries(s, |s|)))
    case JArr(a) =>
      (match BindElements(input, a, |a|)
       case None => None
       case Some(m) => Some(JObj(m)))
    case JObj(m) =>
      if exists k | k in m :: KeyThrows(input, m, k) then None
      else Some(JObj(BindMembers(input, m, m.Keys)))
  }

  /** Handling template key `k` throws: a marked key queries a falsy input, or a nested template throws. */
  predicate KeyThrows(input: Json, m: map<string, Json>, k: string)
    requires k in m
    decreases JObj(m), 1
  {
    if Marked(k) then !Truthy(input) else Literal(input, m[k]).None?
  }

  /** Whether a template queries its input anywhere: a marked key in it or in a nested template. */
  predicate UsesPaths(t: Json)
  {
    match t
    case JObj(m) => exists k | k in m :: Marked(k) || (IsObjectLike(m[k]) && UsesPaths(m[k]))
    case JArr(a) => exists i | 0 <= i < |a| :: IsObjectLike(a[i]) && UsesPaths(a[i])
    case _ => false
  }

  /** The keys an object template can produce: its plain keys and its marked keys without the marker. */
  function Candidates(m: map<string, Json>): set<string>
  {
    m.Keys + set k | k in m && Marked(k) :: Unmarked(k)
  }

  /**
   * Whether result key `o` is produced once the template keys in `done` are
   * handled: a marked key `o.$` whose path matched, or a plain key `o` that no
   * marked `o.$` overrides.
   */
  predicate Produces(input: Json, m: map<string, Json>, done: set<string>, o: string)
  {
    || (o + ".$" in done && o + ".$" in m && PathValue(input, m[o + ".$"]).Some?)
    || (o in done && o in m && !Marked(o) && o + ".$" !in m)
  }

  /** The result object for the template keys in `done`. */
  function BindMembers(input: Json, m: map<string, Json>, done: set<string>): map<string, Json>
    decreases JObj(m), 1
  {
    map o | o in Candidates(m) && Produces(input, m, done, o) :: MemberValue(input, m, o)
  }

  /** The value result key `o` is bound to: from its marked key if there is one, else from its plain key. */
  function MemberValue(input: Json, m: map<string, Json>, o: string): Json
    decreases JObj(m), 0
  {
    if o + ".$" in m then PathValue(input, m[o + ".$"]).GetOr(JNull)
    else if o in m then Literal(input, m[o]).GetOr(JNull)
    else JNull
  }

  /** The result entries for the first `n` elements of an array template. */
  function BindElements(input: Json, a: seq<Json>, n: nat): Option<map<string, Json>>
    requires n <= |a|
    decreases JArr(a), 1, n
  {
    if n == 0 then Some(map[])
    else
      match BindElements(input, a, n - 1)
      case None => None
      case Some(mp) =>
        match Literal(input, a[n - 1])
        case None => None
        case Some(v) => Some(mp[NatToString(n - 1) := v])
  }

  /** The result entries for the first `n` characters of a string template. */
  function CharEntries(s: string, n: nat): map<string, Json>
    requires n <= |s|
  {
    if n == 0 then map[] else CharEntries(s, n - 1)[NatToString(n - 1) := JStr([s[n - 1]])]
  }

  /** `processTaskParameters`: an omitted template passes the input through. */
  function ProcessParameters(input: Json, params: Option<Json>): (r: Option<Json>)
    ensures r.Some? ==> r.value == input || r.value.JObj?
    ensures params.Some? && !Truthy(input) && UsesPaths(params.value) ==> r.None?
  {
    match params
    case None => Some(input)
    case Some(p) =>
      assert !Truthy(input) && UsesPaths(p) ==> Bind(input, p).None? by {
        if !Truthy(input) && UsesPaths(p) {
          FalsyInputQueryThrows(input, p);
        }
      }
      Bind(input, p)
  }

  // ---------------------------------------------------------------------
  // What the template produces

  /** With no Parameters field the work receives its input unchanged. */
  lemma ParametersAbsent(input: Json)
    ensures ProcessParameters(input, None) == Some(input)
  {
  }

  /** A `null` template throws. */
  lemma ParametersNullThrows(input: Json)
    ensures ProcessParameters(input, Some(JNull)) == None
  {
  }

  /**
   * An object template throws exactly when it has a marked key and the input
   * is falsy, or one of its plain keys holds a nested template that throws.
   */
  lemma BindObjectThrows(input: Json, m: map<string, Json>)
    ensures Bind(input, JObj(m)).None? <==>
            || (!Truthy(input) && exists k | k in m :: Marked(k))
            || (exists k | k in m :: !Marked(k) && IsObjectLike(m[k]) && Bind(input, m[k]).None?)
  {
    if Bind(input, JObj(m)).None? {
      var k :| k in m && KeyThrows(input, m, k);
      if !Marked(k) {
        assert Literal(input, m[k]).None?;
        assert IsObjectLike(m[k]) && Bind(input, m[k]).None?;
      }
    } else {
      forall k | k in m && !Marked(k) && IsObjectLike(m[k])
        ensures Bind(input, m[k]).Some?
      {
        assert !KeyThrows(input, m, k);
        assert Literal(input, m[k]).Some?;
      }
      forall k | k in m && Marked(k)
        ensures Truthy(input)
      {
        assert !KeyThrows(input, m, k);
      }
    }
  }

  /** On a falsy input, every template that queries it, at any depth, throws. */
  lemma {:induction false} FalsyInputQueryThrows(input: Json, t: Json)
    requires !Truthy(input) && UsesPaths(t)
    ensures Bind(input, t).None?
    decreases t
  {
    match t
    case JObj(m) =>
      var k :| k in m && (Marked(k) || (IsObjectLike(m[k]) && UsesPaths(m[k])));
      if !Marked(k) {
        FalsyInputQueryThrows(input, m[k]);
        assert KeyThrows(input, m, k);
      }
    case JArr(a) =>
      var i :| 0 <= i < |a| && IsObjectLike(a[i]) && UsesPaths(a[i]);
      FalsyInputQueryThrows(input, a[i]);
      BindElementsFails(input, a, i);
  }

  /** An element that throws makes the array template throw. */
  lemma BindElementsFails(input: Json, a: seq<Json>, i: nat)
    requires i < |a| && Literal(input, a[i]).None?
    ensures BindElements(input, a, |a|).None?
  {
    assert BindElements(input, a, i + 1).None?;
    BindElementsStaysFailed(input, a, i + 1, |a|);
  }

  /** A marked key `k.$` binds `k` to the first match of its path, or leaves `k` out when nothing matches. */
  lemma BindMarkedKey(input: Json, m: map<string, Json>, k: string)
    requires k in m && Marked(k)
    requires Bind(input, JObj(m)).Some?
    ensures var r := Bind(input, JObj(m)).value;
            && r.JObj?
            && (PathValue(input, m[k]).Some? ==>
                  Unmarked(k) in r.fields && r.fields[Unmarked(k)] == PathValue(input, m[k]).value)
            && (PathValue(input, m[k]).None? ==> Unmarked(k) !in r.fields)
  {
    UnmarkedRoundTrip(k);
    assert Unmarked(k) in Candidates(m);
    assert MemberValue(input, m, Unmarked(k)) == PathValue(input, m[k]).GetOr(JNull);
  }

  /**
   * A plain key that no marked key overrides keeps its name and is bound to
   * its value copied as it is, or to its nested template's result.
   */
  lemma BindPlainKey(input: Json, m: map<string, Json>, k: string)
    requires k in m && !Marked(k) && k + ".$" !in m
    requires Bind(input, JObj(m)).Some?
    ensures var r := Bind(input, JObj(m)).value;
            && r.JObj? && k in r.fields
            && (!IsObjectLike(m[k]) ==> r.fields[k] == m[k])
            && (IsObjectLike(m[k]) ==> Bind(input, m[k]) == Some(r.fields[k]))
  {
    assert k in Candidates(m);
    assert Produces(input, m, m.Keys, k);
    assert Literal(input, m[k]).Some?;
    assert MemberValue(input, m, k) == Literal(input, m[k]).value;
  }

  /** Every key of the result comes from the template: a marked key without its marker, or a plain key. */
  lemma BindOnlyTemplateKeys(input: Json, m: map<string, Json>, o: string)
    requires Bind(input, JObj(m)).Some?
    requires o in Bind(input, JObj(m)).value.fields
    ensures (o + ".$" in m && Marked(o + ".$")) || (o in m && !Marked(o))
  {
    MarkedOf(o);
  }

  /** The result of an array template has one key per index, bound as that element would be. */
  lemma {:induction false} BindElementsEntries(input: Json, a: seq<Json>, n: nat)
    requires n <= |a|
    requires BindElements(input, a, n).Some?
    ensures var mp := BindElements(input, a, n).value;
            && (forall i | 0 <= i < n :: NatToString(i) in mp && Literal(input, a[i]) == Some(mp[NatToString(i)]))
            && (forall k | k in mp :: exists i | 0 <= i < n :: k == NatToString(i))
  {
    if n > 0 {
      BindElementsEntries(input, a, n - 1);
      var prev := BindElements(input, a, n - 1).value;
      var v := Literal(input, a[n - 1]);
      var last := NatToString(n - 1);
      assert v.Some?;
      var mp := prev[last := v.value];
      assert BindElements(input, a, n) == Some(mp);
      forall i | 0 <= i < n
        ensures NatToString(i) in mp && Literal(input, a[i]) == Some(mp[NatToString(i)])
      {
        if i < n - 1 {
          if NatToString(i) == last {
            NatToStringInjective(i, n - 1);
          }
        }
      }
      forall k | k in mp
        ensures exists i | 0 <= i < n :: k == NatToString(i)
      {
        if k != last {
          assert k in prev;
        }
      }
    }
  }

  /** Once an element throws, the whole array template throws. */
  lemma {:induction false} BindElementsStaysFailed(input: Json, a: seq<Json>, j: nat, n: nat)
    requires j <= n <= |a|
    requires BindElements(input, a, j).None?
    ensures BindElements(input, a, n).None?
    decreases n - j
  {
    if j < n {
      BindElementsStaysFailed(input, a, j + 1, n);
    }
  }

  /** Handling one more marked template key adds its binding when its path matched. */
  lemma BindMembersStepMarked(input: Json, m: map<string, Json>, done: set<string>, k: string)
    requires k in m && k !in done && Marked(k)
    ensures BindMembers(input, m, done + {k}) ==
            (match PathValue(input, m[k])
             case Some(v) => BindMembers(input, m, done)[Unmarked(k) := v]
             case None => BindMembers(input, m, done))
  {
    var before := BindMembers(input, m, done);
    var after := BindMembers(input, m, done + {k});
    var u := Unmarked(k);
    UnmarkedRoundTrip(k);
    assert u in Candidates(m);
    forall o | o != u
      ensures Produces(input, m, done + {k}, o) <==> Produces(input, m, done, o)
    {
      if o + ".$" == k {
        MarkedOf(o);
      }
    }
    assert Produces(input, m, done + {k}, u) <==> PathValue(input, m[k]).Some?;
    assert MemberValue(input, m, u) == PathValue(input, m[k]).GetOr(JNull);
    match PathValue(input, m[k])
    case Some(v) =>
      assert after.Keys == before.Keys + {u};
    case None =>
      assert after.Keys == before.Keys;
  }

  /** A plain key that a marked key overrides adds nothing. */
  lemma BindMembersStepShadowed(input: Json, m: map<string, Json>, done: set<string>, k: string)
    requires k in m && k !in done && !Marked(k) && k + ".$" in m
    ensures BindMembers(input, m, done + {k}) == BindMembers(input, m, done)
  {
    var before := BindMembers(input, m, done);
    var after := BindMembers(input, m, done + {k});
    forall o ensures Produces(input, m, done + {k}, o) <==> Produces(input, m, done, o) {
      if o + ".$" == k {
        MarkedOf(o);
      }
    }
    assert after.Keys == before.Keys;
  }

  /** Any other plain key adds its own binding. */
  lemma {:induction false} BindMembersStepPlain(input: Json, m: map<string, Json>, done: set<string>, k: string)
    requires k in m && k !in done && !Marked(k) && k + ".$" !in m
    ensures BindMembers(input, m, done + {k}) ==
            BindMembers(input, m, done)[k := Literal(input, m[k]).GetOr(JNull)]
  {
    var before := BindMembers(input, m, done);
    var after := BindMembers(input, m, done + {k});
    forall o | o != k
      ensures Produces(input, m, done + {k}, o) <==> Produces(input, m, done, o)
    {
      MarkedOf(o);
    }
    assert Produces(input, m, done + {k}, k);
    assert MemberValue(input, m, k) == Literal(input, m[k]).GetOr(JNull);
    assert after.Keys == before.Keys + {k};
  }

  // ---------------------------------------------------------------------
  // The loop

  /**
   * `handleParameters`: walks the template's keys one by one, building the
   * result; a nested template is handled by a recursive call.
   */
  method HandleParameters(input: Json, params: Json) returns (r: Option<Json>)
    ensures r == Bind(input, params)
    decreases params
  {
    match params {
      case JNull =>
        r := None;
      case JBool(_) =>
        r := Some(Empty);
      case JNum(_) =>
        r := Some(Empty);
      case JStr(s) =>
        var acc: map<string, Json> := map[];
        var i := 0;
        while i < |s|
          invariant 0 <= i <= |s|
          invariant acc == CharEntries(s, i)
        {
          acc := acc[NatToString(i) := JStr([s[i]])];
          i := i + 1;
        }
        r := Some(JObj(acc));
      case JArr(a) =>
        var acc: map<string, Json> := map[];
        var i := 0;
        while i < |a|
          invariant 0 <= i <= |a|
          invariant BindElements(input, a, i) == Some(acc)
        {
          var bound: Option<Json>;
          if IsObjectLike(a[i]) {
            bound := HandleParameters(input, a[i]);
          } else {
            bound := Some(a[i]);
          }
          if bound.None? {
            BindElementsStaysFailed(input, a, i + 1, |a|);
            return None;
          }
          acc := acc[NatToString(i) := bound.value];
          i := i + 1;
        }
        r := Some(JObj(acc));
      case JObj(m) =>
        var acc: map<string, Json> := map[];
        var todo := m.Keys;
        while todo != {}
          invariant todo <= m.Keys
          invariant acc == BindMembers(input, m, m.Keys - todo)
          invariant forall k | k in m && k !in todo :: !KeyThrows(input, m, k)
          decreases todo
        {
          var k :| k in todo;
          assert (m.Keys - todo) + {k} == m.Keys - (todo - {k});
          if Marked(k) {
            if !Truthy(input) {
              assert KeyThrows(input, m, k);
              return None;
            }
            BindMembersStepMarked(input, m, m.Keys - todo, k);
            var found := PathValue(input, m[k]);
            if found.Some? {
              acc := acc[Unmarked(k) := found.value];
            }
          } else {
            var bound: Option<Json>;
            if IsObjectLike(m[k]) {
              bound := HandleParameters(input, m[k]);
            } else {
              bound := Some(m[k]);
            }
            if bound.None? {
              assert KeyThrows(input, m, k);
              return None;
            }
            if k + ".$" !in m {
              BindMembersStepPlain(input, m, m.Keys - todo, k);
              acc := acc[k := bound.value];
            } else {
              BindMembersStepShadowed(input, m, m.Keys - todo, k);
            }
          }
          todo := todo - {k};
        }
        assert m.Keys - todo == m.Keys;
        r := Some(JObj(acc));
    }
  }

  /** `processTaskParameters`. */
  method ProcessTaskParameters(input: Json, params: Option<Json>) returns (r: Option<Json>)
    ensures r == ProcessParameters(input, params)
  {
    if params.None? {
      return Some(input);
    }
    r := HandleParameters(input, params.value);
  }
}
