/**
 The score/filter registration and the rendering rules of the structured
 fallback query, as its tests pin them down: views are registered in order,
 every registered view is called exactly once per render with the variable
 store, falsy results are dropped and the others kept in registration order,
 and a clause carries a `boost` key only when its boost variable is set.
 */
module FallbackQuery {
  import opened Values
  import Seqs
  import AdminView

  /** One call of a view during a render: the position of the view in its
      registration list and the store it was given. */
  datatype Invocation = Invocation(index: nat, arg: Store)

  function ApplyTo(vs: Store): View -> JsValue
  {
    (v: View) => v(vs)
  }

  /** What a render keeps from a list of views: every view applied to the
      store, then the falsy results dropped. */
  function Kept(views: seq<View>, vs: Store): seq<JsValue>
  {
    Seqs.Filter(IsTruthy, Seqs.Map(ApplyTo(vs), views))
  }

  /** The call log of a render over `n` views: view 0, 1, ..., n - 1 in
      turn, each once, each given the store. */
  predicate EachInvokedOnce(calls: seq<Invocation>, n: nat, vs: Store)
  {
    |calls| == n && forall k :: 0 <= k < |calls| ==> calls[k] == Invocation(k, vs)
  }

  /** Registering views one after another concatenates what they keep. */
  lemma {:induction false} KeptAppend(a: seq<View>, b: seq<View>, vs: Store)
    ensures Kept(a + b, vs) == Kept(a, vs) + Kept(b, vs)
  {
    Seqs.MapAppend(ApplyTo(vs), a, b);
    Seqs.FilterAppend(IsTruthy, Seqs.Map(ApplyTo(vs), a), Seqs.Map(ApplyTo(vs), b));
  }

  /** A single view contributes its result, unless the result is falsy. */
  lemma KeptSingle(v: View, vs: Store)
    ensures Kept([v], vs) == if IsFalsy(v(vs)) then [] else [v(vs)]
  {
  }

  /** No falsy value ever reaches the output list. */
  lemma {:induction false} KeptSound(views: seq<View>, vs: Store)
    ensures forall x :: x in Kept(views, vs) ==> !IsFalsy(x)
  {
    Seqs.FilterSound(IsTruthy, Seqs.Map(ApplyTo(vs), views));
  }

  /** Every truthy result of a registered view reaches the output list. */
  lemma {:induction false} KeptComplete(views: seq<View>, vs: Store, i: nat)
    requires i < |views| && !IsFalsy(views[i](vs))
    ensures views[i](vs) in Kept(views, vs)
  {
    Seqs.MapAt(ApplyTo(vs), views, i);
    Seqs.FilterComplete(IsTruthy, Seqs.Map(ApplyTo(vs), views), i);
  }

  /** When every view answers falsy the list is empty (but still a list). */
  lemma {:induction false} KeptAllFalsy(views: seq<View>, vs: Store)
    requires forall i :: 0 <= i < |views| ==> IsFalsy(views[i](vs))
    ensures Kept(views, vs) == []
  {
    var results := Seqs.Map(ApplyTo(vs), views);
    forall i | 0 <= i < |results|
      ensures !IsTruthy(results[i])
    {
      Seqs.MapAt(ApplyTo(vs), views, i);
    }
    Seqs.FilterAllOrNone(IsTruthy, results);
  }

  /** An admin field-match view registered with the query contributes its
      clause exactly when the property name is non-empty and its four keys
      are set, and nothing otherwise. */
  lemma AdminViewKept(property: string, vs: Store)
    ensures Kept([AdminView.AdminFactory(property)], vs) ==
      if property != "" && AdminView.RequiredKeys(property) <= vs.Keys
      then [AdminView.AdminFactory(property)(vs)] else []
  {
    AdminView.AdminViewNullIff(property, vs);
    KeptSingle(AdminView.AdminFactory(property), vs);
  }

  /** Calls every view in turn, with no short-circuit after a falsy result,
      and collects the truthy results. */
  method Evaluate(views: seq<View>, vs: Store) returns (kept: seq<JsValue>, calls: seq<Invocation>)
    ensures kept == Kept(views, vs)
    ensures EachInvokedOnce(calls, |views|, vs)
  {
    kept, calls := [], [];
    var i := 0;
    while i < |views|
      invariant 0 <= i <= |views|
      invariant kept == Kept(views[..i], vs)
      invariant EachInvokedOnce(calls, i, vs)
    {
      var result := views[i](vs);
      calls := calls + [Invocation(i, vs)];
      if !IsFalsy(result) {
        kept := kept + [result];
      }
      assert views[..i + 1] == views[..i] + [views[i]];
      KeptAppend(views[..i], [views[i]], vs);
      KeptSingle(views[i], vs);
      i := i + 1;
    }
    assert views[..i] == views;
  }

  /** The rendered request: the scoring wrapper around the boolean query,
      whose alternatives are the should-list, whose filter groups the kept
      filter results under `bool.must`, and whose scoring functions are the
      kept score results. */
  function Tree(size: JsValue, trackScores: JsValue, should: seq<JsValue>,
                must: seq<JsValue>, functions: seq<JsValue>): JsValue
  {
    Obj(map[
      "size" := size,
      "track_scores" := trackScores,
      "query" := Obj(map[
        "function_score" := Obj(map[
          "query" := Obj(map[
            "bool" := Obj(map[
              "should" := Arr(should),
              "filter" := Obj(map["bool" := Obj(map["must" := Arr(must)])])])]),
          "functions" := Arr(functions)])])])
  }

  function ShouldPath(): seq<string> { ["query", "function_score", "query", "bool", "should"] }
  function MustPath(): seq<string> { ["query", "function_score", "query", "bool", "filter", "bool", "must"] }
  function FunctionsPath(): seq<string> { ["query", "function_score", "functions"] }

  lemma GetStep(v: JsValue, key: string, rest: seq<string>)
    requires v.Obj? && key in v.props
    ensures Get(v, [key] + rest) == Get(v.props[key], rest)
  {
    assert ([key] + rest)[1..] == rest;
  }

  /** The three lists always sit at their fixed places in the request, as
      arrays, even when they are empty. */
  lemma TreeLayout(size: JsValue, trackScores: JsValue, should: seq<JsValue>,
                   must: seq<JsValue>, functions: seq<JsValue>)
    ensures Get(Tree(size, trackScores, should, must, functions), ShouldPath()) == Some(Arr(should))
    ensures Get(Tree(size, trackScores, should, must, functions), MustPath()) == Some(Arr(must))
    ensures Get(Tree(size, trackScores, should, must, functions), FunctionsPath()) == Some(Arr(functions))
  {
    var t := Tree(size, trackScores, should, must, functions);
    var fs := t.props["query"].props["function_score"];
    var b := fs.props["query"].props["bool"];
    var fb := b.props["filter"].props["bool"];
    GetStep(t, "query", ShouldPath()[1..]);
    GetStep(t.props["query"], "function_score", ShouldPath()[2..]);
    GetStep(fs, "query", ShouldPath()[3..]);
    GetStep(fs.props["query"], "bool", ShouldPath()[4..]);
    GetStep(b, "should", []);
    GetStep(t, "query", MustPath()[1..]);
    GetStep(t.props["query"], "function_score", MustPath()[2..]);
    GetStep(fs, "query", MustPath()[3..]);
    GetStep(fs.props["query"], "bool", MustPath()[4..]);
    GetStep(b, "filter", MustPath()[5..]);
    GetStep(b.props["filter"], "bool", MustPath()[6..]);
    GetStep(fb, "must", []);
    GetStep(t, "query", FunctionsPath()[1..]);
    GetStep(t.props["query"], "function_score", FunctionsPath()[2..]);
    GetStep(fs, "functions", []);
  }

  /** Adds the `boost` key to a clause only when the boost variable is set;
      otherwise the clause is left as it is. */
  function WithBoost(clause: map<string, JsValue>, vs: Store, boostKey: string): (r: map<string, JsValue>)
    ensures IsSet(vs, boostKey) ==> "boost" in r && r["boost"] == vs[boostKey]
    ensures !IsSet(vs, boostKey) ==> r == clause
    ensures forall k :: k in clause && k != "boost" ==> k in r && r[k] == clause[k]
    ensures r.Keys <= clause.Keys + {"boost"}
  {
    if IsSet(vs, boostKey) then clause["boost" := Var(vs, boostKey)] else clause
  }

  /** A structured clause `{ bool: { ... } }` of the fallback layers. */
  function BoolClause(body: map<string, JsValue>, vs: Store, boostKey: string): JsValue
  {
    Obj(map["bool" := Obj(WithBoost(body, vs, boostKey))])
  }

  /** A clause whose body has no boost of its own carries a `boost` key
      exactly when its boost variable is set: with the variable unset the
      key is absent, not present with an empty value. */
  lemma BoostPresentIffSet(body: map<string, JsValue>, vs: Store, boostKey: string)
    requires "boost" !in body
    ensures Get(BoolClause(body, vs, boostKey), ["bool"]).Some?
    ensures HasOwnProperty(Get(BoolClause(body, vs, boostKey), ["bool"]).value, "boost")
        <==> IsSet(vs, boostKey)
  {
    GetStep(BoolClause(body, vs, boostKey), "bool", []);
  }

  class StructuredFallbackQuery {
    var scores: seq<View>
    var filters: seq<View>

    constructor ()
      ensures scores == [] && filters == []
    {
      scores := [];
      filters := [];
    }

    /** Registers a score view; no deduplication, no check of its shape. */
    method Score(view: View)
      modifies this
      ensures scores == old(scores) + [view]
      ensures filters == old(filters)
    {
      scores := scores + [view];
    }

    /** Registers a filter view; no deduplication, no check of its shape. */
    method Filter(view: View)
      modifies this
      ensures filters == old(filters) + [view]
      ensures scores == old(scores)
    {
      filters := filters + [view];
    }

    /** Renders the request for a store. `should` is the list of match
        clauses the fallback layers produce for that store. Every filter
        and score view is called once, in registration order; the request
        holds the truthy results, in that order. The registrations are
        left unchanged, so rendering again gives the same request. */
    method Render(vs: Store, should: seq<JsValue>)
      returns (request: JsValue, filterCalls: seq<Invocation>, scoreCalls: seq<Invocation>)
      ensures request == Tree(Lookup(vs, "size"), Lookup(vs, "track_scores"), should,
                              Kept(filters, vs), Kept(scores, vs))
      ensures EachInvokedOnce(filterCalls, |filters|, vs)
      ensures EachInvokedOnce(scoreCalls, |scores|, vs)
    {
      var must, functions;
      must, filterCalls := Evaluate(filters, vs);
      functions, scoreCalls := Evaluate(scores, vs);
      request := Tree(Lookup(vs, "size"), Lookup(vs, "track_scores"), should, must, functions);
    }
  }

  /** A view that ignores the store and returns a fixed value. */
  function Const(value: JsValue): View
  {
    (vs: Store) => value
  }

  /** Views that return fixed values keep exactly the truthy values. */
  lemma {:induction false} ConstViewsKept(values: seq<JsValue>, vs: Store)
    ensures Kept(Seqs.Map(Const, values), vs) == Seqs.Filter(IsTruthy, values)
  {
    var views := Seqs.Map(Const, values);
    var results := Seqs.Map(ApplyTo(vs), views);
    forall i | 0 <= i < |values|
      ensures results[i] == values[i]
    {
      Seqs.MapAt(Const, values, i);
      Seqs.MapAt(ApplyTo(vs), views, i);
    }
    assert results == values;
  }

  /** A truthy value at both ends and every kind of falsy value between. */
  function Mixed(first: JsValue, last: JsValue): seq<JsValue>
  {
    [first, Bool(false), Str(""), Num(0), Null, Undefined, NaN, last]
  }

  lemma MixedKeepsEnds(first: JsValue, last: JsValue)
    requires first.Obj? && last.Obj?
    ensures Seqs.Filter(IsTruthy, Mixed(first, last)) == [first, last]
  {
    var s := Mixed(first, last);
    var falsy := s[1..7];
    assert s == [first] + falsy + [last];
    assert forall i :: 0 <= i < |falsy| ==> !IsTruthy(falsy[i]);
    Seqs.FilterAllOrNone(IsTruthy, falsy);
    Seqs.FilterAppend(IsTruthy, [first] + falsy, [last]);
    Seqs.FilterAppend(IsTruthy, [first], falsy);
  }

  /** The store the score and filter tests render with. */
  function BaseStore(): Store
  {
    map["size" := Str("size value"), "track_scores" := Str("track_scores value")]
  }

  /** Registers a view returning each value in turn, as the tests do, and
      renders with the base store. */
  method RegisterAndRender(values: seq<JsValue>, asScores: bool)
    returns (request: JsValue, calls: seq<Invocation>)
    ensures Get(request, if asScores then FunctionsPath() else MustPath())
         == Some(Arr(Seqs.Filter(IsTruthy, values)))
    ensures EachInvokedOnce(calls, |values|, BaseStore())
  {
    var query := new StructuredFallbackQuery();
    var i := 0;
    while i < |values|
      invariant 0 <= i <= |values|
      invariant (if asScores then query.scores else query.filters) == Seqs.Map(Const, values[..i])
    {
      if asScores {
        query.Score(Const(values[i]));
      } else {
        query.Filter(Const(values[i]));
      }
      assert values[..i + 1] == values[..i] + [values[i]];
      Seqs.MapAppend(Const, values[..i], [values[i]]);
      i := i + 1;
    }
    assert values[..i] == values;
    var filterCalls, scoreCalls;
    request, filterCalls, scoreCalls := query.Render(BaseStore(), []);
    calls := if asScores then scoreCalls else filterCalls;
    ConstViewsKept(values, BaseStore());
    TreeLayout(Lookup(BaseStore(), "size"), Lookup(BaseStore(), "track_scores"), [],
               Kept(query.filters, BaseStore()), Kept(query.scores, BaseStore()));
  }

  /** Score views answering false, '', 0, null, undefined and NaN add
      nothing to `functions`; all eight views are called. */
  method ScoresFalsyDropped() returns (functions: Option<JsValue>, called: nat)
    ensures functions == Some(Arr([Obj(map["score field 1" := Str("score value 1")]),
                                   Obj(map["score field 2" := Str("score value 2")])]))
    ensures called == 8
  {
    var first := Obj(map["score field 1" := Str("score value 1")]);
    var last := Obj(map["score field 2" := Str("score value 2")]);
    var request, calls := RegisterAndRender(Mixed(first, last), true);
    MixedKeepsEnds(first, last);
    functions := Get(request, FunctionsPath());
    called := |calls|;
  }

  /** Filter views answering false, '', 0, null, undefined and NaN add
      nothing to `bool.must`; all eight views are called. */
  method FiltersFalsyDropped() returns (must: Option<JsValue>, called: nat)
    ensures must == Some(Arr([Obj(map["filter field 1" := Str("filter value 1")]),
                              Obj(map["filter field 2" := Str("filter value 2")])]))
    ensures called == 8
  {
    var first := Obj(map["filter field 1" := Str("filter value 1")]);
    var last := Obj(map["filter field 2" := Str("filter value 2")]);
    var request, calls := RegisterAndRender(Mixed(first, last), false);
    MixedKeepsEnds(first, last);
    must := Get(request, MustPath());
    called := |calls|;
  }
}
