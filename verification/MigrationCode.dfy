/** The migration as it is carried out: dictionaries filled and copied values edited step by step.  Every
    method is proved to compute the function of Migration named in its contract. */
module MigrationCode {
  import opened Options
  import opened Json
  import opened Migration
  import R = References

  /** The id map: for every component the first legacy prefix that fits decides. */
  method BuildIdMap(components: seq<Field>) returns (f: map<string, string>)
    ensures f == IdMap(components)
  {
    f := map[];
    for i := 0 to |components|
      invariant f.Keys == set k | k in Keys(components[..i])
      invariant forall k | k in f :: f[k] == NewId(k)
    {
      var id := components[i].key;
      var newId := id;
      for j := 0 to |COMPONENT_RENAMES|
        invariant newId == id && NewId(id) == NewIdBy(COMPONENT_RENAMES[j..], id)
      {
        var prefix := COMPONENT_RENAMES[j].0 + ":";
        assert COMPONENT_RENAMES[j..][1..] == COMPONENT_RENAMES[j + 1..];
        if StartsWith(id, prefix) {
          newId := COMPONENT_RENAMES[j].1 + ":" + id[|prefix|..];
          break;
        }
      }
      assert newId == NewId(id);
      f := f[id := newId];
      assert Keys(components[..i + 1]) == Keys(components[..i]) + [id];
    }
    assert components[..|components|] == components;
  }

  /** A list of ids in place: `[component_id_map.get(x, x) for x in ...]`, which raises on an unhashable x. */
  method RewriteIdList(f: map<string, string>, fields: seq<Field>, key: string) returns (r: Option<seq<Field>>)
    ensures r == Apply(fields, Step(key, v => EditIds(f, v)))
  {
    var list := Get(fields, key);
    if list.None? { return Some(fields); }
    if !list.value.List? {
      PutSame(fields, key, list.value);
      return Some(fields);
    }
    var items := list.value.items;
    var ids: seq<Json> := [];
    for i := 0 to |items|
      invariant |ids| == i && forall j | 0 <= j < i :: Hashable(items[j]) && ids[j] == LookUp(f, items[j])
    {
      if !Hashable(items[i]) { return None; }
      ids := ids + [LookUp(f, items[i])];
    }
    assert EditIds(f, list.value).value.items == ids;
    return Some(Put(fields, key, List(ids)));
  }

  /** One component: rewrite every string, then the structural fields in place. */
  method RewriteComponent(f: map<string, string>, component: Json) returns (r: Option<Json>)
    ensures r == EditComponent(f, component)
  {
    hide RewriteValue, EditObj, EditIds, Apply;
    var c := RewriteValue(f, component);
    if !c.Obj? {
      return Some(c);
    }
    ghost var steps := ComponentSteps(f);
    PipeCons(c.fields, steps);
    assert steps[1..][1..] == steps[2..] && steps[2..][1..] == steps[3..] && steps[3..][1..] == [];
    var named := RewriteObj(c.fields);
    if named.None? { return None; }
    PipeCons(named.value, steps[1..]);
    var down := RewriteIdList(f, named.value, "downstream");
    if down.None? { return None; }
    PipeCons(down.value, steps[2..]);
    var up := RewriteIdList(f, down.value, "upstream");
    if up.None? { return None; }
    PipeCons(up.value, steps[3..]);
    var fields := RewriteId(f, up.value, "parent_id");
    assert Pipe(fields, []) == Some(fields);
    return Some(Obj(fields));
  }

  lemma {:induction false} PipeCons(fields: seq<Field>, steps: seq<Step>)
    requires steps != []
    ensures Pipe(fields, steps) ==
            (if Apply(fields, steps[0]).None? then None else Pipe(Apply(fields, steps[0]).value, steps[1..]))
  {
  }

  method RewriteObj(fields: seq<Field>) returns (r: Option<seq<Field>>)
    ensures r == Apply(fields, Step("obj", EditObj))
  {
    var obj := Get(fields, "obj");
    if obj.None? { return Some(fields); }
    if !obj.value.Obj? {
      PutSame(fields, "obj", obj.value);
      return Some(fields);
    }
    var name := Get(obj.value.fields, "component_name");
    var n := if name.Some? then name.value else Null;
    if !Hashable(n) { return None; }
    var o := Put(obj.value.fields, "component_name", if n.Str? then Str(NewName(n.text)) else n);
    return Some(Put(fields, "obj", Obj(o)));
  }

  /** An id in place: `component_id_map.get(x, x)` when it is a string. */
  method RewriteId(f: map<string, string>, fields: seq<Field>, key: string) returns (r: seq<Field>)
    ensures Apply(fields, Step(key, v => EditId(f, v))) == Some(r)
  {
    r := fields;
    var id := Get(fields, key);
    if id.Some? && id.value.Str? {
      r := Put(fields, key, Str(R.Renamed(f, id.value.text)));
    } else if id.Some? {
      PutSame(fields, key, id.value);
    }
  }

  /** The components under their new ids. */
  method RewriteComponents(f: map<string, string>, components: seq<Field>) returns (r: Option<seq<Field>>)
    ensures r == Rekeyed(f, [], components)
  {
    hide EditComponent;
    var rewritten: seq<Field> := [];
    for i := 0 to |components|
      invariant Rekeyed(f, [], components) == Rekeyed(f, rewritten, components[i..])
    {
      assert components[i..][1..] == components[i + 1..];
      var c := RewriteComponent(f, components[i].value);
      if c.None? { return None; }
      rewritten := Put(rewritten, R.Renamed(f, components[i].key), c.value);
    }
    return Some(rewritten);
  }

  /** The edge id with every component id in it replaced, longest ids first. */
  method RewriteEdgeId(f: map<string, string>, ids: seq<string>, edgeId: string) returns (r: string)
    ensures r == ReplaceAll(f, Longest(ids), edgeId)
  {
    var replacements := Longest(ids);
    r := edgeId;
    for i := 0 to |replacements|
      invariant ReplaceAll(f, replacements, edgeId) == ReplaceAll(f, replacements[i..], r)
    {
      assert replacements[i..][1..] == replacements[i + 1..];
      r := Replace(r, replacements[i], R.Renamed(f, replacements[i]));
    }
  }

  lemma {:induction false} OnItemsSnoc(items: seq<Json>, e: Json -> Option<Json>, i: nat)
    requires i < |items|
    ensures OnItems(items[..i + 1], e) ==
            (if OnItems(items[..i], e).None? || e(items[i]).None? then None
             else Some(OnItems(items[..i], e).value + [e(items[i]).value]))
    decreases i
  {
    if i > 0 {
      OnItemsSnoc(items[1..], e, i - 1);
      assert items[1..][..i] == items[..i + 1][1..] && items[1..][..i - 1] == items[..i][1..];
      assert items[..i + 1][0] == items[..i][0] == items[0] && items[1..][i - 1] == items[i];
      var rest := OnItems(items[..i][1..], e);
      if e(items[0]).Some? && e(items[i]).Some? && rest.Some? {
        assert [e(items[0]).value] + (rest.value + [e(items[i]).value]) == [e(items[0]).value] + rest.value + [e(items[i]).value];
      }
    } else {
      var one := items[..1];
      assert one[0] == items[0] && one[1..] == [] && items[..0] == [];
      assert OnItems(one[1..], e) == Some([]) && OnItems(items[..0], e) == Some([]);
      if e(items[0]).Some? { assert [e(items[0]).value] + [] == [] + [e(items[0]).value]; }
    }
  }

  /** The edges of the graph; anything that is not a dictionary is skipped. */
  method RewriteEdges(f: map<string, string>, ids: seq<string>, edges: seq<Json>) returns (r: Option<seq<Json>>)
    ensures r == OnItems(edges, e => OnObj(e, EdgeSteps(f, ids)))
  {
    hide EdgeSteps;
    ghost var e := (e: Json) => OnObj(e, EdgeSteps(f, ids));
    var done: seq<Json> := [];
    for i := 0 to |edges|
      invariant OnItems(edges[..i], e) == Some(done)
    {
      OnItemsSnoc(edges, e, i);
      if edges[i].Obj? {
        var fields := RewriteEdge(f, ids, edges[i].fields);
        done := done + [Obj(fields)];
      } else {
        done := done + [edges[i]];
      }
    }
    assert edges[..|edges|] == edges;
    return Some(done);
  }

  method RewriteEdge(f: map<string, string>, ids: seq<string>, edge: seq<Field>) returns (r: seq<Field>)
    ensures Pipe(edge, EdgeSteps(f, ids)) == Some(r)
  {
    hide Replace, ReplaceAll, Longest;
    ghost var steps := EdgeSteps(f, ids);
    assert steps[1..][1..] == steps[2..] && steps[2..][1..] == [];
    r := RewriteId(f, edge, "source");
    PipeCons(edge, steps);
    PipeCons(r, steps[1..]);
    r := RewriteId(f, r, "target");
    assert Pipe(r, steps[2..]) == Pipe(edge, steps);
    var edgeId := Get(r, "id");
    if edgeId.Some? && edgeId.value.Str? {
      var t := RewriteEdgeId(f, ids, edgeId.value.text);
      r := Put(r, "id", Str(t));
    } else if edgeId.Some? {
      PutSame(r, "id", edgeId.value);
    }
    assert Pipe(r, []) == Pipe(edge, steps);
  }

  /** The nodes of the graph. */
  method RewriteNodes(f: map<string, string>, nodes: seq<Json>) returns (r: Option<seq<Json>>)
    ensures r == OnItems(nodes, n => OnObj(n, NodeSteps(f)))
  {
    hide NodeSteps;
    ghost var e := (n: Json) => OnObj(n, NodeSteps(f));
    var done: seq<Json> := [];
    for i := 0 to |nodes|
      invariant OnItems(nodes[..i], e) == Some(done)
    {
      OnItemsSnoc(nodes, e, i);
      if !nodes[i].Obj? {
        done := done + [nodes[i]];
        continue;
      }
      var fields := RewriteNode(f, nodes[i].fields);
      done := done + [Obj(fields)];
    }
    assert nodes[..|nodes|] == nodes;
    return Some(done);
  }

  /** One node: its ids, its type, and what its data holds. */
  method RewriteNode(f: map<string, string>, node: seq<Field>) returns (r: seq<Field>)
    ensures Pipe(node, NodeSteps(f)) == Some(r)
  {
    hide RewriteValue, Apply, DataSteps, OnObj;
    ghost var steps := NodeSteps(f);
    assert steps[1..][1..] == steps[2..] && steps[2..][1..] == steps[3..] && steps[3..][1..] == [];
    r := RewriteId(f, node, "id");
    PipeCons(node, steps);
    PipeCons(r, steps[1..]);
    r := RewriteId(f, r, "parentId");
    PipeCons(r, steps[2..]);
    r := RewriteType(r);
    PipeCons(r, steps[3..]);
    r := RewriteData(f, r);
    assert Pipe(r, []) == Some(r);
  }

  method RewriteType(fields: seq<Field>) returns (r: seq<Field>)
    ensures Apply(fields, Step("type", EditType)) == Some(r)
  {
    r := fields;
    var kind := Get(fields, "type");
    if kind.Some? && kind.value.Str? {
      r := Put(fields, "type", Str(NewNodeType(kind.value.text)));
    } else if kind.Some? {
      PutSame(fields, "type", kind.value);
    }
  }

  /** The data of a node; anything that is not a dictionary ends the work on the node. */
  method RewriteData(f: map<string, string>, node: seq<Field>) returns (r: seq<Field>)
    ensures Apply(node, Step("data", v => OnObj(v, DataSteps(f)))) == Some(r)
  {
    hide RewriteValue, DataSteps;
    var data := Get(node, "data");
    if data.None? { return node; }
    if !data.value.Obj? {
      PutSame(node, "data", data.value);
      return node;
    }
    var d := RewriteDataFields(f, data.value.fields);
    r := Put(node, "data", Obj(d));
  }

  method RewriteDataFields(f: map<string, string>, data: seq<Field>) returns (r: seq<Field>)
    ensures Pipe(data, DataSteps(f)) == Some(r)
  {
    hide RewriteValue, Apply;
    ghost var steps := DataSteps(f);
    assert steps[1..][1..] == steps[2..] && steps[2..][1..] == [];
    r := RewriteName(data, "label");
    PipeCons(data, steps);
    PipeCons(r, steps[1..]);
    r := RewriteName(r, "name");
    PipeCons(r, steps[2..]);
    r := RewriteForm(f, r);
    assert Pipe(r, []) == Some(r);
  }

  /** A component name in place; one that is not a legacy name stays. */
  method RewriteName(fields: seq<Field>, key: string) returns (r: seq<Field>)
    ensures Apply(fields, Step(key, EditName)) == Some(r)
  {
    r := fields;
    var name := Get(fields, key);
    if name.Some? && name.value.Str? {
      r := Put(fields, key, Str(NewName(name.value.text)));
    } else if name.Some? {
      PutSame(fields, key, name.value);
    }
  }

  method RewriteForm(f: map<string, string>, fields: seq<Field>) returns (r: seq<Field>)
    ensures Apply(fields, Step("form", v => EditAll(f, v))) == Some(r)
  {
    r := fields;
    var form := Get(fields, "form");
    if form.Some? {
      r := Put(fields, "form", RewriteValue(f, form.value));
    }
  }

  method RewriteGraph(f: map<string, string>, ids: seq<string>, graph: Json) returns (r: Option<Json>)
    ensures r == OnObj(graph, GraphSteps(f, ids))
  {
    hide NodeSteps, EdgeSteps, OnItems;
    if !graph.Obj? { return Some(graph); }
    ghost var steps := GraphSteps(f, ids);
    var fields := graph.fields;
    var nodes := Get(fields, "nodes");
    if nodes.Some? && nodes.value.List? {
      var ns := RewriteNodes(f, nodes.value.items);
      if ns.None? { return None; }
      fields := Put(fields, "nodes", List(ns.value));
    } else if nodes.Some? {
      PutSame(fields, "nodes", nodes.value);
    }
    assert Pipe(fields, steps[1..]) == Pipe(graph.fields, steps);
    assert steps[1..][1..] == [];
    var edges := Get(fields, "edges");
    if edges.Some? && edges.value.List? {
      var es := RewriteEdges(f, ids, edges.value.items);
      if es.None? { return None; }
      fields := Put(fields, "edges", List(es.value));
    } else if edges.Some? {
      PutSame(fields, "edges", edges.value);
    }
    assert Pipe(fields, []) == Pipe(graph.fields, steps);
    return Some(Obj(fields));
  }

  /** `normalize_chunker_dsl` */
  method NormalizeDsl(dsl: Json) returns (r: Option<Json>)
    ensures r == Normalize(dsl)
  {
    hide EditComponents, EditIds, EditAll, GraphSteps, IdMap, Keys;
    if !dsl.Obj? { return Some(dsl); }
    var components := Get(dsl.fields, "components");
    if components.None? || !components.value.Obj? { return Some(dsl); }
    var cs := components.value.fields;
    var f := BuildIdMap(cs);
    ghost var steps := DslSteps(f, Keys(cs));
    var fields := dsl.fields;
    var rewritten := RewriteComponents(f, cs);
    assert EditComponents(f, components.value) == (if rewritten.None? then None else Some(Obj(rewritten.value))) by {
      Unfold(f, cs);
    }
    if rewritten.None? { return None; }
    fields := Put(fields, "components", Obj(rewritten.value));
    assert Pipe(fields, steps[1..]) == Pipe(dsl.fields, steps);
    assert steps[1..][1..] == steps[2..];
    var path := Get(fields, "path");
    if path.Some? {
      var p := EditIds(f, path.value);
      if p.None? { return None; }
      fields := Put(fields, "path", p.value);
    }
    assert Pipe(fields, steps[2..]) == Pipe(dsl.fields, steps);
    assert steps[2..][1..] == steps[3..];
    var graph := Get(fields, "graph");
    if graph.Some? {
      var g := RewriteGraph(f, Keys(cs), graph.value);
      if g.None? { return None; }
      fields := Put(fields, "graph", g.value);
    }
    assert Pipe(fields, steps[3..]) == Pipe(dsl.fields, steps);
    fields := RewriteConversation(f, fields);
    assert steps[3..] == ConversationSteps(f);
    return Some(Obj(fields));
  }

  lemma {:induction false} Unfold(f: map<string, string>, cs: seq<Field>)
    ensures EditComponents(f, Obj(cs)) == (if Rekeyed(f, [], cs).None? then None else Some(Obj(Rekeyed(f, [], cs).value)))
  {
    hide Rekeyed;
  }

  function ConversationSteps(f: map<string, string>): seq<Step> { DslSteps(f, [])[3..] }

  /** The three conversation fields, rewritten as plain values. */
  method RewriteConversation(f: map<string, string>, fields: seq<Field>) returns (r: seq<Field>)
    ensures Pipe(fields, ConversationSteps(f)) == Some(r)
  {
    hide RewriteValue;
    var keys := ["history", "messages", "reference"];
    ghost var steps := ConversationSteps(f);
    r := fields;
    for i := 0 to |keys|
      invariant Pipe(fields, steps) == Pipe(r, steps[i..])
    {
      assert steps[i..][1..] == steps[i + 1..] && steps[i].key == keys[i];
      var v := Get(r, keys[i]);
      if v.Some? {
        r := Put(r, keys[i], RewriteValue(f, v.value));
      }
    }
  }
}
