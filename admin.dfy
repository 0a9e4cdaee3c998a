/**
 The admin field-match view (view/admin.js). The factory takes an admin
 property name such as `locality` or `region` and returns a view that reads
 four keys namespaced by that name and builds one `match` clause from them,
 or returns null when the name is empty or a key is unset.
 */
module AdminView {
  import opened Values

  function InputKey(property: string): string
  {
    "input:" + property
  }

  function AdminKey(property: string, suffix: string): string
  {
    "admin:" + property + ":" + suffix
  }

  function AnalyzerKey(property: string): string { AdminKey(property, "analyzer") }
  function FieldKey(property: string): string { AdminKey(property, "field") }
  function BoostKey(property: string): string { AdminKey(property, "boost") }

  /** The keys the view consults. */
  function RequiredKeys(property: string): set<string>
  {
    {InputKey(property), AnalyzerKey(property), FieldKey(property), BoostKey(property)}
  }

  /** The content of the clause the view builds: the target field value
      (used as the property name inside `match`) and the three values of
      the inner object. */
  datatype MatchClause = MatchClause(field: JsValue, analyzer: JsValue, boost: JsValue, query: JsValue)

  /** The required-key check followed by the clause construction. The
      result is present exactly when the property name is non-empty and
      every required key is set; its parts are the stored values. */
  function Admin(property: string, vs: Store): (r: Option<MatchClause>)
    ensures r.Some? <==> property != "" && RequiredKeys(property) <= vs.Keys
    ensures r.Some? ==>
      && r.value.field == vs[FieldKey(property)]
      && r.value.analyzer == vs[AnalyzerKey(property)]
      && r.value.boost == vs[BoostKey(property)]
      && r.value.query == vs[InputKey(property)]
  {
    if property == ""
       || !IsSet(vs, InputKey(property))
       || !IsSet(vs, AnalyzerKey(property))
       || !IsSet(vs, FieldKey(property))
       || !IsSet(vs, BoostKey(property))
    then None
    else
      Some(MatchClause(
        Var(vs, FieldKey(property)),
        Var(vs, AnalyzerKey(property)),
        Var(vs, BoostKey(property)),
        Var(vs, InputKey(property))))
  }

  /** The one property name that an assignment `obj[name] = value` does not
      add as an own property: it goes through the inherited setter and
      replaces the object's prototype instead. */
  const ProtoKey: string := "__proto__"

  /** The object `{ match: { <field>: { analyzer, boost, query } } }`. When
      the field value converts to `__proto__`, the assignment into `match`
      adds no own property and `match` stays an empty object. */
  function ToJs(c: MatchClause): (r: JsValue)
    ensures r.Obj? && r.props.Keys == {"match"} && r.props["match"].Obj?
    ensures PropertyKey(c.field) == ProtoKey ==> r.props["match"].props == map[]
    ensures PropertyKey(c.field) != ProtoKey ==>
      && r.props["match"].props.Keys == {PropertyKey(c.field)}
      && r.props["match"].props[PropertyKey(c.field)] ==
           Obj(map["analyzer" := c.analyzer, "boost" := c.boost, "query" := c.query])
    ensures !IsFalsy(r)
  {
    var key := PropertyKey(c.field);
    var section := Obj(map["analyzer" := c.analyzer, "boost" := c.boost, "query" := c.query]);
    Obj(map["match" := if key == ProtoKey then Obj(map[]) else Obj(map[key := section])])
  }

  /** The factory: the view for one admin property. The view answers null,
      its only falsy answer, exactly when the property name is empty or one
      of the four keys is unset, and an object otherwise. */
  function AdminFactory(property: string): (view: View)
    ensures forall vs :: IsFalsy(view(vs))
              <==> property == "" || !(RequiredKeys(property) <= vs.Keys)
    ensures forall vs :: view(vs) == Null || view(vs).Obj?
  {
    vs => match Admin(property, vs)
          case None => Null
          case Some(c) => ToJs(c)
  }

  /** The view returns null exactly when the property name is empty or one
      of the four keys is unset; null is then the only falsy answer it gives,
      so a renderer drops its output in exactly those cases. */
  lemma AdminViewNullIff(property: string, vs: Store)
    ensures AdminFactory(property)(vs) == Null
        <==> property == "" || !(RequiredKeys(property) <= vs.Keys)
    ensures IsFalsy(AdminFactory(property)(vs))
        <==> property == "" || !(RequiredKeys(property) <= vs.Keys)
  {
  }

  /** A non-null answer has the single top-level key `match`, whose object
      has the single key named by the stored field value, whose object holds
      the stored analyzer, boost and input verbatim. */
  lemma AdminViewShape(property: string, vs: Store)
    requires property != "" && RequiredKeys(property) <= vs.Keys
    requires PropertyKey(vs[FieldKey(property)]) != ProtoKey
    ensures var r := AdminFactory(property)(vs);
      && r.Obj? && r.props.Keys == {"match"}
      && r.props["match"].Obj?
      && r.props["match"].props.Keys == {PropertyKey(vs[FieldKey(property)])}
      && Get(r, ["match", PropertyKey(vs[FieldKey(property)])]) ==
           Some(Obj(map["analyzer" := vs[AnalyzerKey(property)],
                        "boost" := vs[BoostKey(property)],
                        "query" := vs[InputKey(property)]]))
  {
    var key := PropertyKey(vs[FieldKey(property)]);
    var r := AdminFactory(property)(vs);
    var m := r.props["match"];
    assert ["match", key][1..] == [key] && [key][1..] == [];
    assert Get(r, ["match", key]) == Get(m, [key]) == Get(m.props[key], []);
  }

  /** The other case of the shape: a stored field value that converts to
      `__proto__` leaves `match` an empty object, so none of the stored
      values appears as an own property of the answer. */
  lemma AdminViewProtoField(property: string, vs: Store)
    requires property != "" && RequiredKeys(property) <= vs.Keys
    requires PropertyKey(vs[FieldKey(property)]) == ProtoKey
    ensures var r := AdminFactory(property)(vs);
      && r.Obj? && r.props.Keys == {"match"}
      && r.props["match"] == Obj(map[])
      && Get(r, ["match", ProtoKey]) == None
  {
    var r := AdminFactory(property)(vs);
    assert ["match", ProtoKey][1..] == [ProtoKey];
    assert Get(r, ["match", ProtoKey]) == Get(r.props["match"], [ProtoKey]);
  }

  /** The answer depends on the store only through the required keys. */
  lemma AdminViewFrame(property: string, vs: Store, vs': Store)
    requires forall k :: k in RequiredKeys(property) ==>
               (k in vs <==> k in vs') && (k in vs ==> vs[k] == vs'[k])
    ensures AdminFactory(property)(vs) == AdminFactory(property)(vs')
  {
    if property != "" && RequiredKeys(property) <= vs.Keys {
      assert RequiredKeys(property) <= vs'.Keys;
    }
  }

  lemma {:induction false} AdminKeyInjective(p: string, s: string, q: string, t: string)
    requires s in {"analyzer", "field", "boost"} && t in {"analyzer", "field", "boost"}
    ensures AdminKey(p, s) == AdminKey(q, t) ==> p == q && s == t
  {
    var k, k' := AdminKey(p, s), AdminKey(q, t);
    if k == k' {
      assert k[|k| - 1] == s[|s| - 1];
      assert k'[|k'| - 1] == t[|t| - 1];
      assert s == t;
      assert p == k[6..6 + |p|];
      assert q == k'[6..6 + |q|];
    }
  }

  /** Views for different property names consult disjoint key sets. */
  lemma {:induction false} RequiredKeysDisjoint(p: string, q: string)
    requires p != q
    ensures RequiredKeys(p) !! RequiredKeys(q)
  {
    assert InputKey(p)[6..] == p && InputKey(q)[6..] == q;
    assert InputKey(p)[0] == InputKey(q)[0] == 'i';
    var suffixes := ["analyzer", "field", "boost"];
    forall i, j | 0 <= i < 3 && 0 <= j < 3
      ensures AdminKey(p, suffixes[i]) != AdminKey(q, suffixes[j])
      ensures AdminKey(p, suffixes[i]) != InputKey(q)
      ensures InputKey(p) != AdminKey(q, suffixes[j])
    {
      AdminKeyInjective(p, suffixes[i], q, suffixes[j]);
      assert AdminKey(p, suffixes[i])[0] == AdminKey(q, suffixes[j])[0] == 'a';
    }
    assert AnalyzerKey(p) == AdminKey(p, suffixes[0]) && AnalyzerKey(q) == AdminKey(q, suffixes[0]);
    assert FieldKey(p) == AdminKey(p, suffixes[1]) && FieldKey(q) == AdminKey(q, suffixes[1]);
    assert BoostKey(p) == AdminKey(p, suffixes[2]) && BoostKey(q) == AdminKey(q, suffixes[2]);
  }

  /** Setting or overwriting a key of another property's view never changes
      this property's answer. */
  lemma {:induction false} AdminViewIndependent(p: string, q: string, vs: Store, k: string, v: JsValue)
    requires p != q && k in RequiredKeys(q)
    ensures AdminFactory(p)(vs[k := v]) == AdminFactory(p)(vs)
  {
    RequiredKeysDisjoint(p, q);
    AdminViewFrame(p, vs[k := v], vs);
  }
}
