# pelias-query: admin field-match view and score/filter rendering

This project models two pieces of the pelias-query structured query builder
in Dafny and proves properties about them.

- **The admin field-match view** (`view/admin.js`). A factory takes an admin
  property name (`locality`, `region`, ...) and returns a view. The view
  reads `input:<p>`, `admin:<p>:analyzer`, `admin:<p>:field` and
  `admin:<p>:boost` from the variable store. It returns `null` when the name is
  empty or any of those keys is unset. Otherwise it returns
  `{ match: { <field>: { analyzer, boost, query } } }`. The model is pure: the
  store is a `map<string, JsValue>`, with `isset(k)` as `k in vs` and
  `var(k)` as `vs[k]`. `Admin` gives the clause as an `Option`, and
  `AdminFactory(p)` is the view itself (a `Store -> JsValue` function).
  The `<field>` property name is the stored field value converted the way
  JavaScript converts a value used as a property name (`PropertyKey`; the
  TypeError JavaScript throws for an object with its own `toString` property
  is left out). The
  name `__proto__` is the exception: assigning it replaces the prototype of
  the `match` object instead of adding a property. `match` then stays an
  empty object (`ToJs`, `AdminViewProtoField`).
- **Score and filter registration and rendering in the structured fallback
  query**, as `test/layout/StructuredFallbackQuery.js` pins them down. The
  class `StructuredFallbackQuery` has two `seq<View>` fields, `scores` and
  `filters`. `Score` and `Filter` append to them. `Render` runs `Evaluate`
  over each list. `Evaluate` is a loop that calls every view once with the
  store, logs each call and keeps the results that are not falsy. Its
  contract ties the output to `Kept(views, vs)`, which is
  `Filter(IsTruthy, Map(v => v(vs), views))`, and says the call log holds
  exactly views `0 .. n-1` in order, each given the store. Falsiness is the
  explicit predicate `IsFalsy` over a closed `JsValue` variant. It is true
  exactly for `false`, `''`, `0`, `null`, `undefined` and `NaN`; `NaN` is a
  tag of its own.
- **Boost omission.** A structured clause gets a `boost` key only when its
  boost variable is set (`WithBoost`, `BoolClause`).

The tests' two scenarios are written as methods: `ScoresFalsyDropped` and
`FiltersFalsyDropped`. Each registers the eight views of the test, renders,
and proves that two values survive and that eight calls were made.

Files: `values.dfy` (JavaScript values, falsiness, store, property-name
conversion, path lookup), `seqs.dfy` (`Map`/`Filter` and their lemmas),
`admin.dfy` (module `AdminView`), `fallback_query.dfy` (module
`FallbackQuery`).

## Model

| member | source | states |
|---|---|---|
| Values.FalsyValues | test/layout/StructuredFallbackQuery.js:188-196 | `IsFalsy` holds exactly for false, '', 0, null, undefined and NaN |
| AdminView.Admin | view/admin.js:11-27 | a clause exists iff the property name is non-empty and all four namespaced keys are set; its field, analyzer, boost and query are the stored values |
| AdminView.AdminViewNullIff | view/admin.js:11-17 | the view returns null, and equally returns a falsy value, iff the name is empty or one of the four keys is unset (so an empty name gives null whatever the store holds) |
| AdminView.ToJs | view/admin.js:19-29 | the built object has the single key `match`. For a field name other than `__proto__`, `match` has that one key, holding exactly analyzer, boost and query. For `__proto__`, `match` has no own key. The object is never falsy |
| AdminView.AdminFactory | view/admin.js:7-30 | the exported factory: for every store, the view it returns is falsy iff the name is empty or a required key is unset, and otherwise answers an object (null or an object, nothing else) |
| AdminView.AdminViewShape | view/admin.js:19-29 | for a field value that does not convert to `__proto__`, a non-null answer has the single key `match`. That object has the single key named by the stored field value. Under it sit the stored analyzer, boost and input, verbatim |
| AdminView.AdminViewProtoField | view/admin.js:23-27 | when the stored field value converts to `__proto__`, the answer is `{ match: {} }`: the assignment sets the prototype, so no own key is added |
| AdminView.AdminViewFrame | view/admin.js:8-30 | the answer depends on the store only through the four required keys; the view is a pure function of the store, so two calls on one store agree |
| AdminView.RequiredKeysDisjoint | view/admin.js:12-15 | views for two different property names read disjoint key sets |
| AdminView.AdminViewIndependent | view/admin.js:12-26 | setting or overwriting any key of another property's view leaves this property's answer unchanged |
| FallbackQuery.AdminViewKept | view/admin.js:7-30 | an admin view registered with the query contributes its clause iff the name is non-empty and its keys are set, nothing otherwise |
| FallbackQuery.KeptAppend | test/layout/StructuredFallbackQuery.js:197-219 | the kept results of views registered one after another are the concatenation of each part's kept results, in registration order |
| FallbackQuery.KeptSingle | test/layout/StructuredFallbackQuery.js:188-205 | a single view contributes its result unless the result is falsy |
| FallbackQuery.KeptSound | test/layout/StructuredFallbackQuery.js:188-219 | no falsy value ever reaches the kept list |
| FallbackQuery.KeptComplete | test/layout/StructuredFallbackQuery.js:214-219 | every truthy result of a registered view reaches the kept list |
| FallbackQuery.KeptAllFalsy | test/layout/StructuredFallbackQuery.js:188-219 | when every view answers falsy, the kept list is empty |
| FallbackQuery.Evaluate | test/layout/StructuredFallbackQuery.js:197-220 | calls views 0..n-1 once each, in order, each with the store, with no short-circuit; returns exactly `Filter(IsTruthy, Map(apply, views))` |
| FallbackQuery.TreeLayout | test/layout/StructuredFallbackQuery.js:211-261 | `query.function_score.functions`, `query.function_score.query.bool.filter.bool.must` and `...bool.should` are always arrays holding the given lists |
| FallbackQuery.WithBoost | test/layout/StructuredFallbackQuery.js:163-176 | with the boost variable set, the clause gains `boost` equal to it, keeps its other keys and gains no other key; with it unset, the clause is returned unchanged |
| FallbackQuery.BoostPresentIffSet | test/layout/StructuredFallbackQuery.js:163-176 | a `bool` clause whose body has no boost has a `boost` property iff its boost variable is set; when unset the key is absent, not empty |
| FallbackQuery.StructuredFallbackQuery.constructor | test/layout/StructuredFallbackQuery.js:186 | a new query has no score and no filter views |
| FallbackQuery.StructuredFallbackQuery.Score | test/layout/StructuredFallbackQuery.js:197-205 | appends the view to `scores`; `filters` unchanged |
| FallbackQuery.StructuredFallbackQuery.Filter | test/layout/StructuredFallbackQuery.js:239-247 | appends the view to `filters`; `scores` unchanged |
| FallbackQuery.StructuredFallbackQuery.Render | test/layout/StructuredFallbackQuery.js:207-261 | the request's `functions` and `must` are the kept score and filter results; each registered view is called exactly once with the store; registrations are not modified |
| FallbackQuery.ConstViewsKept | test/layout/StructuredFallbackQuery.js:188-205 | views that each return a fixed value keep exactly the truthy values, in order |
| FallbackQuery.MixedKeepsEnds | test/layout/StructuredFallbackQuery.js:188-217 | of an object, the six falsy values and another object, only the two objects remain |
| FallbackQuery.RegisterAndRender | test/layout/StructuredFallbackQuery.js:197-212 | registering one view per value and rendering yields the truthy values at the functions (or must) path, with one call per value |
| FallbackQuery.ScoresFalsyDropped | test/layout/StructuredFallbackQuery.js:183-223 | the score test: `functions` is the two score objects and the views were called 8 times |
| FallbackQuery.FiltersFalsyDropped | test/layout/StructuredFallbackQuery.js:228-264 | the filter test: `bool.must` is the two filter objects and the views were called 8 times |

## Left out

- The fallback-cascade layers (neighbourhood-only, postcode-only, address, query-first, locality-as-borough) and the tests at test/layout/StructuredFallbackQuery.js:7-158. layout/StructuredFallbackQuery.js and the expected JSON fixtures are not part of this model. `Render` therefore takes the should-list as a parameter, and the boost rule is modelled only as the generic `WithBoost`/`BoolClause` helpers.
- AdminView.ToJs: when the stored `admin:<p>:field` value is an object with its own `toString` property, or an array holding one, JavaScript's property-name conversion at view/admin.js:23 throws a TypeError. That exception path is not modelled. `PropertyKey` converts such an object to `"[object Object]"`, so the model returns a clause where the source throws. Modelling it would need views that can fail, which the `Store -> JsValue` view type does not express.
- FallbackQuery.StructuredFallbackQuery.Render: the order in which the filter and score views are evaluated relative to each other is not stated. The tests do not fix it, so each list has its own call log.
- The variable store (lib/VariableStore) is not part of this model. It is an abstract `map` with `isset`/`var`. What `var` does for an unset key is unknown; `Lookup` reads such a key as `undefined` (used only for `size` and `track_scores`).
- AdminView.Admin: the property name is modelled as a string, with "falsy" meaning the empty string. Non-string arguments (`null`, `undefined`, numbers) and their conversion when concatenated into keys are not modelled.
- Numbers are integers, and `NaN` is a separate tag. Non-integer numbers, `-0`, `Infinity` and floating-point conversion to strings are not modelled.
- JavaScript objects are `map`s, so property insertion order is not modelled. It does not affect the deep-equality the tests use.
- The `JSON.parse(JSON.stringify(...))` round trips, `deep-diff`, the `tape` harness and `console.assert`. Views here are total functions of a `Store`, which is a value and never null; that each view receives the store is recorded in the call log.
- Side effects inside views, such as the tests' counters, are not modelled. Views are pure functions here, so a view cannot count its own calls. Instead `Evaluate` writes a call log next to each call it makes. That the loop really calls each view once is therefore visible in its body, not forced by its contract.
