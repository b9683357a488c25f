/** Normalising a DSL twice is normalising it once. */
module MigrationIdempotent {
  import opened Options
  import opened Json
  import opened Migration
  import R = References

  predicate Idle(f: map<string, string>) { forall k | k in f :: f[k] == k }

  // ---------------------------------------------------------------- ids and names

  lemma {:induction false} NewIdSettles(id: string)
    ensures NewId(NewId(id)) == NewId(id)
  {
    hide NewId;
    NewIdUnfold(id);
    NewIdUnfold(NewId(id));
    if |id| >= 9 { NoLegacyPrefix("TokenChunker:", id[9..]); }
    if |id| >= 19 { NoLegacyPrefix("TitleChunker:", id[19..]); }
    if |id| >= 13 { NoLegacyPrefix("DocGenerator:", id[13..]); }
  }

  lemma {:induction false} NewIdUnfold(id: string)
    ensures NewId(id) ==
      if StartsWith(id, "Splitter:") then "TokenChunker:" + id[9..]
      else if StartsWith(id, "HierarchicalMerger:") then "TitleChunker:" + id[19..]
      else if StartsWith(id, "PDFGenerator:") then "DocGenerator:" + id[13..]
      else id
  {
    var r1 := [("HierarchicalMerger", "TitleChunker"), ("PDFGenerator", "DocGenerator")];
    var r2 := [("PDFGenerator", "DocGenerator")];
    assert COMPONENT_RENAMES[1..] == r1 && r1[1..] == r2 && r2[1..] == [];
    assert NewIdBy([], id) == id;
    assert "Splitter" + ":" == "Splitter:" && "TokenChunker" + ":" == "TokenChunker:";
    assert "HierarchicalMerger" + ":" == "HierarchicalMerger:" && "TitleChunker" + ":" == "TitleChunker:";
    assert "PDFGenerator" + ":" == "PDFGenerator:" && "DocGenerator" + ":" == "DocGenerator:";
    assert NewIdBy(r2, id) == if StartsWith(id, "PDFGenerator:") then "DocGenerator:" + id[13..] else id;
    assert NewIdBy(r1, id) == if StartsWith(id, "HierarchicalMerger:") then "TitleChunker:" + id[19..] else NewIdBy(r2, id);
  }

  lemma {:induction false} NoLegacyPrefix(p: string, s: string)
    requires p != "" && p[0] in ['T', 'D']
    ensures !StartsWith(p + s, "Splitter:") && !StartsWith(p + s, "HierarchicalMerger:") && !StartsWith(p + s, "PDFGenerator:")
  {
    var t := p + s;
    assert t[0] == p[0];
    forall q | q in ["Splitter:", "HierarchicalMerger:", "PDFGenerator:"] ensures !StartsWith(t, q) {
      if |t| >= |q| { assert t[..|q|][0] == t[0]; }
    }
  }

  lemma {:induction false} NewNameUnfold(name: string)
    ensures NewName(name) ==
      if name == "Splitter" then "TokenChunker" else if name == "HierarchicalMerger" then "TitleChunker"
      else if name == "PDFGenerator" then "DocGenerator" else name
  {
    var r1 := [("HierarchicalMerger", "TitleChunker"), ("PDFGenerator", "DocGenerator")];
    var r2 := [("PDFGenerator", "DocGenerator")];
    assert COMPONENT_RENAMES[1..] == r1 && r1[1..] == r2 && r2[1..] == [];
    assert NewNameBy([], name) == name;
    assert NewNameBy(r2, name) == if name == "PDFGenerator" then "DocGenerator" else name;
    assert NewNameBy(r1, name) == if name == "HierarchicalMerger" then "TitleChunker" else NewNameBy(r2, name);
  }

  lemma {:induction false} NewNameSettles(name: string)
    ensures NewName(NewName(name)) == NewName(name)
  {
    NewNameUnfold(name);
    NewNameUnfold(NewName(name));
    assert "TokenChunker"[0] == 'T' && "TitleChunker"[0] == 'T' && "DocGenerator"[0] == 'D';
    assert "Splitter"[0] == 'S' && "HierarchicalMerger"[0] == 'H' && "PDFGenerator"[0] == 'P';
  }

  // ---------------------------------------------------------------- edits with an idle map

  lemma {:induction false} RewriteIdle(f: map<string, string>, v: Json)
    requires Idle(f)
    ensures RewriteValue(f, v) == v
  {
    match v
    case Str(t) => R.RewriteIdentity(f, t);
    case List(items) =>
      forall i | 0 <= i < |items| ensures RewriteValue(f, items[i]) == items[i] { RewriteIdle(f, items[i]); }
    case Obj(fields) =>
      forall i | 0 <= i < |fields| ensures RewriteValue(f, fields[i].value) == fields[i].value {
        RewriteIdle(f, fields[i].value);
      }
    case _ =>
  }

  lemma {:induction false} EditIdsSettles(f: map<string, string>, f': map<string, string>)
    requires Idle(f')
    ensures Settles(v => EditIds(f, v), v => EditIds(f', v))
  {
    forall v | EditIds(f, v).Some? ensures EditIds(f', EditIds(f, v).value) == Some(EditIds(f, v).value) {
      var r := EditIds(f, v).value;
      if v.List? {
        forall i | 0 <= i < |r.items| ensures Hashable(r.items[i]) && LookUp(f', r.items[i]) == r.items[i] {
          assert Hashable(v.items[i]);
        }
        assert EditIds(f', r).value.items == r.items;
      }
    }
  }

  lemma {:induction false} ObjSettles(steps: seq<Step>, steps': seq<Step>)
    requires DistinctSteps(steps) && |steps| == |steps'|
    requires forall i | 0 <= i < |steps| :: steps[i].key == steps'[i].key && Settles(steps[i].edit, steps'[i].edit)
    ensures Settles(v => OnObj(v, steps), v => OnObj(v, steps'))
  {
    forall v | OnObj(v, steps).Some? ensures OnObj(OnObj(v, steps).value, steps') == Some(OnObj(v, steps).value) {
      if v.Obj? { PipeSettles(v.fields, steps, steps'); }
    }
  }

  lemma {:induction false} ItemsSettle(items: seq<Json>, e: Json -> Option<Json>, e': Json -> Option<Json>)
    requires Settles(e, e') && OnItems(items, e).Some?
    ensures OnItems(OnItems(items, e).value, e') == Some(OnItems(items, e).value)
    decreases |items|
  {
    if items != [] {
      ItemsSettle(items[1..], e, e');
      var r := OnItems(items, e).value;
      assert r[1..] == OnItems(items[1..], e).value;
    }
  }

  lemma {:induction false} ListSettles(e: Json -> Option<Json>, e': Json -> Option<Json>)
    requires Settles(e, e')
    ensures Settles(v => OnList(v, e), v => OnList(v, e'))
  {
    forall v | OnList(v, e).Some? ensures OnList(OnList(v, e).value, e') == Some(OnList(v, e).value) {
      if v.List? { ItemsSettle(v.items, e, e'); }
    }
  }

  lemma {:induction false} EditObjSettles()
    ensures Settles(EditObj, EditObj)
  {
    forall v | EditObj(v).Some? ensures EditObj(EditObj(v).value) == Some(EditObj(v).value) {
      if v.Obj? {
        var name := Get(v.fields, "component_name");
        var n := if name.Some? then name.value else Null;
        if n.Str? { NewNameSettles(n.text); }
        var r := EditObj(v).value.fields;
        PutSame(r, "component_name", Get(r, "component_name").value);
      }
    }
  }

  // ---------------------------------------------------------------- components

  lemma {:induction false} ComponentStepsSettle(f: map<string, string>, f': map<string, string>)
    requires Idle(f')
    ensures var s, s' := ComponentSteps(f), ComponentSteps(f');
      DistinctSteps(s) && |s| == |s'| &&
      forall i | 0 <= i < |s| :: s[i].key == s'[i].key && Settles(s[i].edit, s'[i].edit)
  {
    EditObjSettles();
    EditIdsSettles(f, f');
  }

  lemma {:induction false} EditComponentSettles(f: map<string, string>, f': map<string, string>)
    requires Idle(f')
    ensures Settles(v => EditComponent(f, v), v => EditComponent(f', v))
  {
    ComponentStepsSettle(f, f');
    ObjSettles(ComponentSteps(f), ComponentSteps(f'));
    forall v | EditComponent(f, v).Some?
      ensures EditComponent(f', EditComponent(f, v).value) == Some(EditComponent(f, v).value)
    {
      RewriteIdle(f', EditComponent(f, v).value);
      var e := (x: Json) => OnObj(x, ComponentSteps(f));
      assert e(RewriteValue(f, v)).Some?;
    }
  }

  /** What rekeying produces: distinct new ids, and edited components. */
  predicate Settled(f': map<string, string>, fields: seq<Field>) {
    && Distinct(fields)
    && forall i | 0 <= i < |fields| :: EditComponent(f', fields[i].value) == Some(fields[i].value)
  }

  lemma {:induction false} PutSettled(f': map<string, string>, fields: seq<Field>, key: string, v: Json)
    requires Settled(f', fields) && EditComponent(f', v) == Some(v)
    ensures Settled(f', Put(fields, key, v))
  {
    hide EditComponent;
    PutKeys(fields, key, v);
    PutValues(fields, key, v);
  }

  lemma {:induction false} PutValues(fields: seq<Field>, key: string, v: Json)
    ensures var r := Put(fields, key, v);
      forall i | 0 <= i < |r| :: r[i].value == v || (i < |fields| && r[i] == fields[i])
    decreases |fields|
  {
    if fields != [] && fields[0].key != key { PutValues(fields[1..], key, v); }
  }

  lemma {:induction false} RekeyedSettled(f: map<string, string>, f': map<string, string>, done: seq<Field>, components: seq<Field>)
    requires Idle(f') && Settled(f', done) && Rekeyed(f, done, components).Some?
    ensures Settled(f', Rekeyed(f, done, components).value)
    decreases |components|
  {
    hide EditComponent;
    if components != [] {
      EditComponentSettles(f, f');
      var e := (x: Json) => EditComponent(f, x);
      var c := e(components[0].value).value;
      PutSettled(f', done, R.Renamed(f, components[0].key), c);
      RekeyedSettled(f, f', Put(done, R.Renamed(f, components[0].key), c), components[1..]);
    }
  }

  lemma {:induction false} RekeyedIdle(f': map<string, string>, done: seq<Field>, rest: seq<Field>)
    requires Idle(f') && Settled(f', done + rest)
    ensures Rekeyed(f', done, rest) == Some(done + rest)
    decreases |rest|
  {
    hide EditComponent;
    if rest == [] {
      assert done + rest == done;
    } else {
      var x := rest[0];
      assert (done + rest)[|done|] == x;
      forall i | 0 <= i < |done| ensures done[i].key != x.key { assert (done + rest)[i] == done[i]; }
      GetHas(done, x.key);
      PutNew(done, x.key, x.value);
      assert done + [x] + rest[1..] == done + rest;
      RekeyedIdle(f', done + [x], rest[1..]);
    }
  }

  lemma {:induction false} EditComponentsSettles(f: map<string, string>, f': map<string, string>)
    requires Idle(f')
    ensures Settles(v => EditComponents(f, v), v => EditComponents(f', v))
  {
    forall v | EditComponents(f, v).Some?
      ensures EditComponents(f', EditComponents(f, v).value) == Some(EditComponents(f, v).value)
    {
      if v.Obj? {
        RekeyedSettled(f, f', [], v.fields);
        var r := Rekeyed(f, [], v.fields).value;
        assert [] + r == r;
        RekeyedIdle(f', [], r);
      }
    }
  }

  // ---------------------------------------------------------------- the graph

  lemma {:induction false} ReplaceSame(s: string, x: string)
    ensures Replace(s, x, x) == s
    decreases |s|
  {
    if x == "" {
      InterleaveNothing(s);
    } else if |s| >= |x| {
      if s[..|x|] == x {
        ReplaceSame(s[|x|..], x);
        assert s == x + s[|x|..];
      } else {
        ReplaceSame(s[1..], x);
      }
    }
  }

  lemma {:induction false} InterleaveNothing(s: string)
    ensures Interleave(s, "") == s
  {
    if s != "" { InterleaveNothing(s[1..]); }
  }

  lemma {:induction false} ReplaceAllIdle(f: map<string, string>, ids: seq<string>, s: string)
    requires Idle(f)
    ensures ReplaceAll(f, ids, s) == s
    decreases |ids|
  {
    if ids != [] {
      ReplaceSame(s, ids[0]);
      ReplaceAllIdle(f, ids[1..], s);
    }
  }

  lemma {:induction false} DataStepsSettle(f: map<string, string>, f': map<string, string>)
    requires Idle(f')
    ensures Settles(v => OnObj(v, DataSteps(f)), v => OnObj(v, DataSteps(f')))
  {
    NameSettles();
    EditAllSettles(f, f');
    ObjSettles(DataSteps(f), DataSteps(f'));
  }

  lemma {:induction false} NameSettles()
    ensures Settles(EditName, EditName) && Settles(EditType, EditType)
  {
    forall v | EditName(v).Some? ensures EditName(EditName(v).value) == Some(EditName(v).value) {
      if v.Str? { NewNameSettles(v.text); }
    }
  }

  lemma {:induction false} EditAllSettles(f: map<string, string>, f': map<string, string>)
    requires Idle(f')
    ensures Settles(v => EditAll(f, v), v => EditAll(f', v))
  {
    forall v ensures EditAll(f', EditAll(f, v).value) == Some(EditAll(f, v).value) {
      RewriteIdle(f', EditAll(f, v).value);
    }
  }

  lemma {:induction false} EditIdSettles(f: map<string, string>, f': map<string, string>)
    requires Idle(f')
    ensures Settles(v => EditId(f, v), v => EditId(f', v))
  {
  }

  lemma {:induction false} EdgeIdSettles(f: map<string, string>, ids: seq<string>, f': map<string, string>, ids': seq<string>)
    requires Idle(f')
    ensures Settles(v => EditEdgeId(f, ids, v), v => EditEdgeId(f', ids', v))
  {
    forall v ensures EditEdgeId(f', ids', EditEdgeId(f, ids, v).value) == Some(EditEdgeId(f, ids, v).value) {
      if v.Str? { ReplaceAllIdle(f', Longest(ids'), EditEdgeId(f, ids, v).value.text); }
    }
  }

  lemma {:induction false} NodeSettles(f: map<string, string>, f': map<string, string>)
    requires Idle(f')
    ensures Settles(v => OnList(v, n => OnObj(n, NodeSteps(f))), v => OnList(v, n => OnObj(n, NodeSteps(f'))))
  {
    EditIdSettles(f, f');
    NameSettles();
    DataStepsSettle(f, f');
    ObjSettles(NodeSteps(f), NodeSteps(f'));
    ListSettles(n => OnObj(n, NodeSteps(f)), n => OnObj(n, NodeSteps(f')));
  }

  lemma {:induction false} EdgeSettles(f: map<string, string>, ids: seq<string>, f': map<string, string>, ids': seq<string>)
    requires Idle(f')
    ensures Settles(v => OnList(v, e => OnObj(e, EdgeSteps(f, ids))), v => OnList(v, e => OnObj(e, EdgeSteps(f', ids'))))
  {
    EditIdSettles(f, f');
    EdgeIdSettles(f, ids, f', ids');
    ObjSettles(EdgeSteps(f, ids), EdgeSteps(f', ids'));
    ListSettles(e => OnObj(e, EdgeSteps(f, ids)), e => OnObj(e, EdgeSteps(f', ids')));
  }

  lemma {:induction false} GraphSettles(f: map<string, string>, ids: seq<string>, f': map<string, string>, ids': seq<string>)
    requires Idle(f')
    ensures Settles(v => OnObj(v, GraphSteps(f, ids)), v => OnObj(v, GraphSteps(f', ids')))
  {
    NodeSettles(f, f');
    EdgeSettles(f, ids, f', ids');
    ObjSettles(GraphSteps(f, ids), GraphSteps(f', ids'));
  }

  // ---------------------------------------------------------------- the whole DSL

  lemma {:induction false} DslStepsSettle(f: map<string, string>, ids: seq<string>, f': map<string, string>, ids': seq<string>)
    requires Idle(f')
    ensures var s, s' := DslSteps(f, ids), DslSteps(f', ids');
      DistinctSteps(s) && |s| == |s'| &&
      forall i | 0 <= i < |s| :: s[i].key == s'[i].key && Settles(s[i].edit, s'[i].edit)
  {
    EditComponentsSettles(f, f');
    EditIdsSettles(f, f');
    GraphSettles(f, ids, f', ids');
    EditAllSettles(f, f');
  }

  predicate NewKeys(fields: seq<Field>) { forall i | 0 <= i < |fields| :: IsNew(fields[i].key) }

  predicate IsNew(k: string) { NewId(k) == k }

  lemma {:induction false} RekeyedKeys(components: seq<Field>, done: seq<Field>, rest: seq<Field>)
    requires NewKeys(done) && (forall i | 0 <= i < |rest| :: rest[i].key in Keys(components))
    requires Rekeyed(IdMap(components), done, rest).Some?
    ensures NewKeys(Rekeyed(IdMap(components), done, rest).value)
    decreases |rest|
  {
    hide EditComponent, NewId;
    if rest != [] {
      var f := IdMap(components);
      var c := EditComponent(f, rest[0].value).value;
      var k := R.Renamed(f, rest[0].key);
      assert rest[0].key in Keys(components);
      NewIdSettles(rest[0].key);
      PutKeys(done, k, c);
      assert NewKeys(Put(done, k, c));
      RekeyedKeys(components, Put(done, k, c), rest[1..]);
    }
  }

  /** Migration is idempotent on every JSON value it accepts. */
  lemma {:induction false} NormalizeIdempotent(dsl: Json)
    requires Normalize(dsl).Some?
    ensures Normalize(Normalize(dsl).value) == Normalize(dsl)
  {
    hide EditComponents, EditIds, EditAll, GraphSteps, NewId, Keys;
    var c := ComponentsOf(dsl);
    if c.Some? {
      var f, ids := IdMap(c.value), Keys(c.value);
      var dsl' := Normalize(dsl).value;
      PipeAt(dsl.fields, DslSteps(f, ids), 0) by { DslStepsSettle(f, ids, map[], []); }
      assert Get(dsl'.fields, "components") == EditComponents(f, Obj(c.value));
      NewComponents(c.value);
      var c' := ComponentsOf(dsl').value;
      var f', ids' := IdMap(c'), Keys(c');
      DslStepsSettle(f, ids, f', ids');
      PipeSettles(dsl.fields, DslSteps(f, ids), DslSteps(f', ids'));
    }
  }

  lemma {:induction false} NewComponents(c: seq<Field>)
    ensures var r := EditComponents(IdMap(c), Obj(c)); r.Some? ==> r.value.Obj? && Idle(IdMap(r.value.fields))
  {
    hide NewId, EditComponent;
    if Rekeyed(IdMap(c), [], c).Some? {
      forall i | 0 <= i < |c| ensures c[i].key in Keys(c) { assert Keys(c)[i] == c[i].key; }
      RekeyedKeys(c, [], c);
      var r := Rekeyed(IdMap(c), [], c).value;
      forall k | k in Keys(r) ensures NewId(k) == k {
        var i :| 0 <= i < |Keys(r)| && Keys(r)[i] == k;
        assert IsNew(r[i].key);
      }
    }
  }
}
