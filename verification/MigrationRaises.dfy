/** When the migration raises. */
module MigrationRaises {
  import opened Options
  import opened Json
  import opened Migration
  import opened MigrationIdempotent
  import opened MigrationGraph
  import R = References

  /** A list that holds a list or a dictionary, where ids are looked up. */
  predicate BadIds(v: Json) { v.List? && exists i :: 0 <= i < |v.items| && (v.items[i].List? || v.items[i].Obj?) }

  /** A component object whose name is a list or a dictionary. */
  predicate BadName(v: Json) {
    v.Obj? && match Get(v.fields, "component_name") case Some(n) => n.List? || n.Obj? case None => false
  }

  predicate At(v: Json, key: string, bad: Json -> bool) { v.Obj? && Get(v.fields, key).Some? && bad(Get(v.fields, key).value) }

  predicate BadComponent(v: Json) { At(v, "obj", BadName) || At(v, "downstream", BadIds) || At(v, "upstream", BadIds) }

  // ---------------------------------------------------------------- pipes

  predicate Fails(fields: seq<Field>, s: Step) { Get(fields, s.key).Some? && s.edit(Get(fields, s.key).value).None? }

  /** A pipe raises if and only if one of its edits would raise on the fields as they were. */
  lemma {:induction false} PipeFails(fields: seq<Field>, steps: seq<Step>)
    requires DistinctSteps(steps)
    ensures Pipe(fields, steps).None? <==> exists i :: 0 <= i < |steps| && Fails(fields, steps[i])
    decreases |steps|
  {
    if steps != [] && !Fails(fields, steps[0]) {
      var f1, rest := Apply(fields, steps[0]).value, steps[1..];
      forall i | 0 <= i < |rest| ensures rest[i] == steps[i + 1] && Fails(f1, rest[i]) == Fails(fields, steps[i + 1]) {
        assert steps[0].key != steps[i + 1].key;
      }
      assert DistinctSteps(rest) by {
        forall a, b | 0 <= a < b < |rest| ensures rest[a].key != rest[b].key { assert steps[a + 1].key != steps[b + 1].key; }
      }
      hide Fails, Pipe;
      PipeUnfolds(fields, steps);
      PipeFails(f1, rest);
      if i :| 0 <= i < |steps| && Fails(fields, steps[i]) { assert Fails(f1, rest[i - 1]); }
    }
  }

  lemma {:induction false} PipeUnfolds(fields: seq<Field>, steps: seq<Step>)
    requires steps != [] && Apply(fields, steps[0]).Some?
    ensures Pipe(fields, steps) == Pipe(Apply(fields, steps[0]).value, steps[1..])
  {
  }

  predicate Total(e: Json -> Option<Json>, v: Json) { e(v).Some? }

  lemma {:induction false} OnItemsTotal(items: seq<Json>, e: Json -> Option<Json>)
    requires forall i | 0 <= i < |items| :: Total(e, items[i])
    ensures OnItems(items, e).Some?
    decreases |items|
  {
    if items != [] {
      assert Total(e, items[0]);
      forall i | 0 <= i < |items[1..]| ensures Total(e, items[1..][i]) { assert Total(e, items[i + 1]); }
      OnItemsTotal(items[1..], e);
    }
  }

  // ---------------------------------------------------------------- the parts of a document

  lemma {:induction false} IdsFail(f: map<string, string>, v: Json)
    ensures EditIds(f, v).None? <==> BadIds(v)
  {
  }

  lemma {:induction false} RewrittenBad(f: map<string, string>, v: Json)
    ensures BadIds(RewriteValue(f, v)) == BadIds(v) && BadName(RewriteValue(f, v)) == BadName(v)
  {
    if v.Obj? {
      GetRewritten(f, v.fields, "component_name");
    } else if v.List? {
      var r := RewriteValue(f, v).items;
      forall i | 0 <= i < |r| ensures (r[i].List? || r[i].Obj?) == (v.items[i].List? || v.items[i].Obj?) {
        SameShape(f, v.items[i]);
      }
    }
  }

  lemma {:induction false} ComponentFails(f: map<string, string>, v: Json)
    ensures EditComponent(f, v).None? <==> BadComponent(v)
  {
    hide RewriteValue, EditIds, EditObj, BadIds, BadName;
    var w, steps := RewriteValue(f, v), ComponentSteps(f);
    SameShape(f, v);
    if v.Obj? {
      PipeFails(w.fields, steps);
      FieldFails(f, v, steps[0], BadName);
      FieldFails(f, v, steps[1], BadIds);
      FieldFails(f, v, steps[2], BadIds);
      assert !Fails(w.fields, steps[3]);
      if i :| 0 <= i < |steps| && Fails(w.fields, steps[i]) { assert i == 0 || i == 1 || i == 2 || i == 3; }
    }
  }

  lemma {:induction false} SameShape(f: map<string, string>, v: Json)
    ensures RewriteValue(f, v).Obj? == v.Obj? && RewriteValue(f, v).List? == v.List?
  {
  }

  lemma {:induction false} FieldFails(f: map<string, string>, v: Json, s: Step, bad: Json -> bool)
    requires v.Obj? && s in ComponentSteps(f)[..3] && bad == (if s.key == "obj" then BadName else BadIds)
    ensures RewriteValue(f, v).Obj? && (Fails(RewriteValue(f, v).fields, s) <==> At(v, s.key, bad))
  {
    hide BadIds, BadName, EditIds, EditObj;
    GetRewritten(f, v.fields, s.key);
    if Get(v.fields, s.key).Some? {
      var x := Get(v.fields, s.key).value;
      RewrittenBad(f, x);
      IdsFail(f, RewriteValue(f, x));
      ObjFails(RewriteValue(f, x));
    }
  }

  lemma {:induction false} ObjFails(v: Json)
    ensures EditObj(v).None? <==> BadName(v)
  {
  }

  lemma {:induction false} RekeyedFails(f: map<string, string>, done: seq<Field>, cs: seq<Field>)
    ensures Rekeyed(f, done, cs).None? <==> exists i :: 0 <= i < |cs| && BadComponent(cs[i].value)
    decreases |cs|
  {
    hide EditComponent, BadComponent;
    if cs != [] {
      ComponentFails(f, cs[0].value);
      var rest := cs[1..];
      assert forall i | 0 <= i < |rest| :: rest[i] == cs[i + 1];
      var c := EditComponent(f, cs[0].value);
      if c.Some? {
        RekeyedFails(f, Put(done, R.Renamed(f, cs[0].key), c.value), rest);
        if i :| 0 <= i < |cs| && BadComponent(cs[i].value) { assert BadComponent(rest[i - 1].value); }
      }
    }
  }

  lemma {:induction false} NodeTotal(f: map<string, string>, n: Json)
    ensures OnObj(n, NodeSteps(f)).Some?
  {
    if n.Obj? {
      var steps := NodeSteps(f);
      PipeFails(n.fields, steps);
      forall v ensures OnObj(v, DataSteps(f)).Some? { DataTotal(f, v); }
      forall i | 0 <= i < |steps| ensures !Fails(n.fields, steps[i]) { assert i == 0 || i == 1 || i == 2 || i == 3; }
    }
  }

  lemma {:induction false} DataTotal(f: map<string, string>, v: Json)
    ensures OnObj(v, DataSteps(f)).Some?
  {
    if v.Obj? {
      var steps := DataSteps(f);
      PipeFails(v.fields, steps);
      forall i | 0 <= i < |steps| ensures !Fails(v.fields, steps[i]) { assert i == 0 || i == 1 || i == 2; }
    }
  }

  lemma {:induction false} EdgeTotal(f: map<string, string>, ids: seq<string>, e: Json)
    ensures OnObj(e, EdgeSteps(f, ids)).Some?
  {
    if e.Obj? {
      var steps := EdgeSteps(f, ids);
      PipeFails(e.fields, steps);
      forall i | 0 <= i < |steps| ensures !Fails(e.fields, steps[i]) { assert i == 0 || i == 1 || i == 2; }
    }
  }

  lemma {:induction false} GraphTotal(f: map<string, string>, ids: seq<string>, v: Json)
    ensures OnObj(v, GraphSteps(f, ids)).Some?
  {
    hide NodeSteps, EdgeSteps, OnItems;
    if v.Obj? {
      var steps := GraphSteps(f, ids);
      PipeFails(v.fields, steps);
      forall i | 0 <= i < |steps| ensures !Fails(v.fields, steps[i]) {
        if Get(v.fields, steps[i].key).Some? { GraphFieldTotal(f, ids, Get(v.fields, steps[i].key).value); }
      }
    }
  }

  lemma {:induction false} GraphFieldTotal(f: map<string, string>, ids: seq<string>, v: Json)
    ensures forall i | 0 <= i < 2 :: GraphSteps(f, ids)[i].edit(v).Some?
  {
    hide NodeSteps, EdgeSteps, OnItems;
    if v.List? {
      var node: Json -> Option<Json>, edge: Json -> Option<Json> := n => OnObj(n, NodeSteps(f)), n => OnObj(n, EdgeSteps(f, ids));
      forall i | 0 <= i < |v.items| ensures Total(node, v.items[i]) && Total(edge, v.items[i]) {
        NodeTotal(f, v.items[i]);
        EdgeTotal(f, ids, v.items[i]);
      }
      OnItemsTotal(v.items, node);
      OnItemsTotal(v.items, edge);
    }
  }

  /** The migration raises if and only if an id list of a component or the saved path holds a list or a dictionary, or the
      name of a component object is one. */
  lemma {:induction false} RaisesExactly(dsl: Json)
    ensures Normalize(dsl).None? <==>
      ComponentsOf(dsl).Some? &&
      ((exists i :: 0 <= i < |ComponentsOf(dsl).value| && BadComponent(ComponentsOf(dsl).value[i].value)) || At(dsl, "path", BadIds))
  {
    hide EditIds, EditAll, EditComponents, GraphSteps, BadComponent, BadIds, OnObj;
    if ComponentsOf(dsl).Some? {
      var cs := ComponentsOf(dsl).value;
      var f, ids := IdMap(cs), Keys(cs);
      var steps := DslSteps(f, ids);
      DslFails(dsl, f, ids);
      ComponentsFail(f, Get(dsl.fields, "components").value);
      if Get(dsl.fields, "path").Some? { IdsFail(f, Get(dsl.fields, "path").value); }
    }
  }

  lemma {:induction false} ComponentsFail(f: map<string, string>, v: Json)
    requires v.Obj?
    ensures EditComponents(f, v).None? <==> exists i :: 0 <= i < |v.fields| && BadComponent(v.fields[i].value)
  {
    RekeyedFails(f, [], v.fields);
  }

  lemma {:induction false} DslFails(dsl: Json, f: map<string, string>, ids: seq<string>)
    requires dsl.Obj?
    ensures var c, p := Get(dsl.fields, "components"), Get(dsl.fields, "path");
      OnObj(dsl, DslSteps(f, ids)).None? <==> (c.Some? && EditComponents(f, c.value).None?) || (p.Some? && EditIds(f, p.value).None?)
  {
    hide EditIds, EditComponents, GraphSteps, Fails;
    var steps := DslSteps(f, ids);
    PipeFails(dsl.fields, steps);
    DslStepFails(dsl, f, ids);
    if i :| 0 <= i < |steps| && Fails(dsl.fields, steps[i]) { assert i <= 1; }
  }

  lemma {:induction false} DslStepFails(dsl: Json, f: map<string, string>, ids: seq<string>)
    requires dsl.Obj?
    ensures var c, p, steps := Get(dsl.fields, "components"), Get(dsl.fields, "path"), DslSteps(f, ids);
      && (Fails(dsl.fields, steps[0]) <==> c.Some? && EditComponents(f, c.value).None?)
      && (Fails(dsl.fields, steps[1]) <==> p.Some? && EditIds(f, p.value).None?)
      && forall i | 2 <= i < |steps| :: !Fails(dsl.fields, steps[i])
  {
    hide EditIds, EditComponents, GraphSteps;
    if Get(dsl.fields, "graph").Some? { GraphTotal(f, ids, Get(dsl.fields, "graph").value); }
  }
}
