/** With an injective rename, the migrated canvas is the old one under new names. */
module MigrationGraph {
  import opened Options
  import opened Json
  import opened Migration
  import opened MigrationIdempotent
  import S = Scanning
  import R = References
  import Rendering
  import RenderingExact

  // ---------------------------------------------------------------- component ids

  lemma {:induction false} RekeyedCount(f: map<string, string>, done: seq<Field>, rest: seq<Field>)
    requires Rekeyed(f, done, rest).Some?
    ensures var r := Rekeyed(f, done, rest).value;
      && |done| <= |r| <= |done| + |rest|
      && (forall i | 0 <= i < |done| :: r[i].key == done[i].key)
      && (|r| == |done| + |rest| ==>
            && (forall i | 0 <= i < |rest| :: !HasKey(done, R.Renamed(f, rest[i].key)))
            && (forall i, j | 0 <= i < j < |rest| :: R.Renamed(f, rest[i].key) != R.Renamed(f, rest[j].key)))
    decreases |rest|
  {
    hide EditComponent;
    if rest != [] {
      var k := R.Renamed(f, rest[0].key);
      var c := EditComponent(f, rest[0].value).value;
      var done1 := Put(done, k, c);
      PutKeys(done, k, c);
      RekeyedCount(f, done1, rest[1..]);
      var r := Rekeyed(f, done, rest).value;
      if |r| == |done| + |rest| {
        assert done1[|done|].key == k;
        forall i | 1 <= i < |rest| ensures !HasKey(done, R.Renamed(f, rest[i].key)) && R.Renamed(f, rest[i].key) != k {
          assert rest[1..][i - 1] == rest[i];
          HasKeyMore(done, done1, R.Renamed(f, rest[i].key));
        }
        forall i, j | 0 <= i < j < |rest| ensures R.Renamed(f, rest[i].key) != R.Renamed(f, rest[j].key) {
          assert rest[1..][j - 1] == rest[j];
          if i > 0 { assert rest[1..][i - 1] == rest[i]; }
        }
      }
    }
  }

  lemma {:induction false} HasKeyMore(a: seq<Field>, b: seq<Field>, key: string)
    requires |a| <= |b| && forall i | 0 <= i < |a| :: b[i].key == a[i].key
    ensures HasKey(a, key) ==> HasKey(b, key)
  {
  }

  lemma {:induction false} RekeyedImage(f: map<string, string>, done: seq<Field>, rest: seq<Field>)
    requires Rekeyed(f, done, rest).Some?
    requires forall i | 0 <= i < |rest| :: !HasKey(done, R.Renamed(f, rest[i].key))
    requires forall i, j | 0 <= i < j < |rest| :: R.Renamed(f, rest[i].key) != R.Renamed(f, rest[j].key)
    ensures forall i | 0 <= i < |rest| :: EditComponent(f, rest[i].value).Some?
    ensures Rekeyed(f, done, rest).value ==
            done + seq(|rest|, i requires 0 <= i < |rest| => Field(R.Renamed(f, rest[i].key), EditComponent(f, rest[i].value).value))
    decreases |rest|
  {
    hide EditComponent;
    if rest != [] {
      var k := R.Renamed(f, rest[0].key);
      var x := Field(k, EditComponent(f, rest[0].value).value);
      GetHas(done, k);
      PutNew(done, k, x.value);
      forall i | 0 <= i < |rest[1..]| ensures !HasKey(done + [x], R.Renamed(f, rest[1..][i].key)) {
        assert rest[1..][i] == rest[i + 1];
        NotHasSnoc(done, x, R.Renamed(f, rest[i + 1].key));
      }
      RekeyedImage(f, done + [x], rest[1..]);
    }
  }

  lemma {:induction false} NotHasSnoc(a: seq<Field>, x: Field, key: string)
    requires !HasKey(a, key) && x.key != key
    ensures !HasKey(a + [x], key)
  {
  }

  /** A rename by `IdMap` is injective exactly when the new names of the components differ. */
  lemma {:induction false} InjectiveKeys(cs: seq<Field>)
    requires Distinct(cs)
    ensures forall i | 0 <= i < |cs| :: R.Renamed(IdMap(cs), cs[i].key) == NewId(cs[i].key)
    ensures Rendering.Injective(IdMap(cs)) <==> forall i, j | 0 <= i < j < |cs| :: NewId(cs[i].key) != NewId(cs[j].key)
  {
    hide NewId;
    var f := IdMap(cs);
    forall i | 0 <= i < |cs| ensures cs[i].key in f && f[cs[i].key] == NewId(cs[i].key) {
      assert Keys(cs)[i] == cs[i].key;
    }
    if forall i, j | 0 <= i < j < |cs| :: NewId(cs[i].key) != NewId(cs[j].key) {
      forall a, b | a in f && b in f && f[a] == f[b] ensures a == b {
        var i :| 0 <= i < |Keys(cs)| && Keys(cs)[i] == a;
        var j :| 0 <= j < |Keys(cs)| && Keys(cs)[j] == b;
      }
    }
  }

  /** Migration keeps the number of components exactly when no two ids get the same new name, and then the
      i-th component becomes the edited i-th component under its new name. */
  lemma {:induction false} ComponentCount(cs: seq<Field>)
    requires Distinct(cs) && Rekeyed(IdMap(cs), [], cs).Some?
    ensures var f, r := IdMap(cs), Rekeyed(IdMap(cs), [], cs).value;
      && (|r| == |cs| <==> Rendering.Injective(f))
      && (Rendering.Injective(f) ==> forall i | 0 <= i < |cs| ::
            r[i].key == NewId(cs[i].key) && Some(r[i].value) == EditComponent(f, cs[i].value))
  {
    hide EditComponent, NewId, Rekeyed, IdMap, R.Renamed, Rendering.Injective;
    var f := IdMap(cs);
    InjectiveKeys(cs);
    RekeyedCount(f, [], cs);
    if Rendering.Injective(f) {
      assert forall i | 0 <= i < |cs| :: !HasKey([], R.Renamed(f, cs[i].key));
      RekeyedImage(f, [], cs);
    }
  }

  // ---------------------------------------------------------------- downstream, upstream and parent

  lemma {:induction false} GetRewritten(f: map<string, string>, fields: seq<Field>, key: string)
    ensures Get(RewriteValue(f, Obj(fields)).fields, key) ==
            (if Get(fields, key).Some? then Some(RewriteValue(f, Get(fields, key).value)) else None)
    decreases |fields|
  {
    var r := RewriteValue(f, Obj(fields)).fields;
    if fields != [] && fields[0].key != key {
      GetRewritten(f, fields[1..], key);
      assert r[1..] == RewriteValue(f, Obj(fields[1..])).fields;
    }
  }

  /** Looking an id up twice is looking it up once. */
  lemma {:induction false} RenamedTwice(cs: seq<Field>, id: string)
    requires id in IdMap(cs)
    ensures var f := IdMap(cs); R.Renamed(f, f[id]) == f[id] && f[id] == NewId(id)
  {
    hide NewId;
    NewIdSettles(id);
  }

  predicate AllIds(cs: seq<Field>, v: Json) {
    v.List? && forall i | 0 <= i < |v.items| :: v.items[i].Str? && v.items[i].text in IdMap(cs)
  }

  function Images(cs: seq<Field>, v: Json): Json
    requires AllIds(cs, v)
  {
    List(seq(|v.items|, i requires 0 <= i < |v.items| => Str(IdMap(cs)[v.items[i].text])))
  }

  /** A resolved list of ids becomes its image, although the code rewrites it twice. */
  lemma {:induction false} ListImage(cs: seq<Field>, v: Json, key: string)
    requires key in ["downstream", "upstream"] && v.Obj? && EditComponent(IdMap(cs), v).Some?
    requires Get(v.fields, key).Some? ==> AllIds(cs, Get(v.fields, key).value)
    ensures var v' := EditComponent(IdMap(cs), v).value;
      && v'.Obj? && (Get(v.fields, key).None? ==> Get(v'.fields, key).None?)
      && (Get(v.fields, key).Some? ==> Get(v'.fields, key) == Some(Images(cs, Get(v.fields, key).value)))
  {
    hide NewId, IdMap, EditObj;
    var f := IdMap(cs);
    GetRewritten(f, v.fields, key);
    var steps := ComponentSteps(f);
    var w := RewriteValue(f, v);
    PipeAt(w.fields, steps, if key == "downstream" then 1 else 2);
    if Get(v.fields, key).Some? {
      var l := Get(v.fields, key).value;
      forall i | 0 <= i < |l.items| ensures LookUp(f, RewriteValue(f, l.items[i])) == Str(f[l.items[i].text]) {
        RenamedTwice(cs, l.items[i].text);
      }
      assert EditIds(f, RewriteValue(f, l)).value.items == Images(cs, l).items;
    }
  }

  lemma {:induction false} ParentImage(cs: seq<Field>, v: Json, p: string)
    requires v.Obj? && EditComponent(IdMap(cs), v).Some? && Get(v.fields, "parent_id") == Some(Str(p)) && p in IdMap(cs)
    ensures var v' := EditComponent(IdMap(cs), v).value;
      v'.Obj? && Get(v'.fields, "parent_id") == Some(Str(NewId(p)))
  {
    hide NewId, IdMap, EditObj, EditIds;
    var f := IdMap(cs);
    GetRewritten(f, v.fields, "parent_id");
    PipeAt(RewriteValue(f, v).fields, ComponentSteps(f), 3);
    RenamedTwice(cs, p);
  }

  /** b is in the list `key` of the component a. */
  predicate Linked(cs: seq<Field>, key: string, a: string, b: string) {
    exists i | 0 <= i < |cs| :: cs[i].key == a && ListHas(cs[i].value, key, b)
  }

  predicate ListHas(v: Json, key: string, b: string) {
    v.Obj? && Get(v.fields, key).Some? && Get(v.fields, key).value.List? && Str(b) in Get(v.fields, key).value.items
  }

  /** Every id in a list `key` is a component. */
  predicate Resolved(cs: seq<Field>, key: string) {
    forall i | 0 <= i < |cs| :: cs[i].value.Obj? &&
      (Get(cs[i].value.fields, key).Some? ==> AllIds(cs, Get(cs[i].value.fields, key).value))
  }

  /** What the migration makes of the components. */
  predicate IsImage(cs: seq<Field>, cs': seq<Field>) {
    && |cs'| == |cs|
    && forall i | 0 <= i < |cs| :: cs'[i].key == NewId(cs[i].key) && Some(cs'[i].value) == EditComponent(IdMap(cs), cs[i].value)
  }

  lemma {:induction false} LinkedImage(cs: seq<Field>, cs': seq<Field>, key: string, a: string, b: string)
    requires key in ["downstream", "upstream"] && IsImage(cs, cs') && Resolved(cs, key) && Rendering.Injective(IdMap(cs))
    requires a in IdMap(cs) && b in IdMap(cs)
    ensures Linked(cs', key, NewId(a), NewId(b)) <==> Linked(cs, key, a, b)
  {
    hide EditComponent, NewId;
    var f := IdMap(cs);
    forall i | 0 <= i < |cs|
      ensures (cs'[i].key == NewId(a) <==> cs[i].key == a) &&
              (ListHas(cs'[i].value, key, NewId(b)) <==> ListHas(cs[i].value, key, b))
    {
      assert Keys(cs)[i] == cs[i].key;
      assert f[cs[i].key] == NewId(cs[i].key) && f[a] == NewId(a);
      ListImage(cs, cs[i].value, key);
      if Get(cs[i].value.fields, key).Some? {
        ImageHas(cs, Get(cs[i].value.fields, key).value, b);
      }
    }
  }

  lemma {:induction false} ImageHas(cs: seq<Field>, v: Json, b: string)
    requires AllIds(cs, v) && b in IdMap(cs) && Rendering.Injective(IdMap(cs))
    ensures Str(NewId(b)) in Images(cs, v).items <==> Str(b) in v.items
  {
    hide NewId;
    var r := Images(cs, v).items;
    forall i | 0 <= i < |r| ensures r[i] == Str(NewId(b)) <==> v.items[i] == Str(b) {}
    if Str(b) in v.items {
      var i :| 0 <= i < |v.items| && v.items[i] == Str(b);
      assert r[i] == Str(NewId(b));
    }
  }

  lemma {:induction false} KeysImage(cs: seq<Field>, cs': seq<Field>)
    requires IsImage(cs, cs')
    ensures forall k | k in IdMap(cs) :: NewId(k) in IdMap(cs')
    ensures forall k' | k' in IdMap(cs') :: exists k :: k in IdMap(cs) && k' == NewId(k)
  {
    hide EditComponent, NewId;
    forall k | k in IdMap(cs) ensures NewId(k) in IdMap(cs') {
      var i :| 0 <= i < |Keys(cs)| && Keys(cs)[i] == k;
      assert Keys(cs')[i] == NewId(k);
    }
    forall k' | k' in IdMap(cs') ensures exists k :: k in IdMap(cs) && k' == NewId(k) {
      var i :| 0 <= i < |Keys(cs')| && Keys(cs')[i] == k';
      assert Keys(cs)[i] in IdMap(cs) && k' == NewId(Keys(cs)[i]);
    }
  }

  lemma {:induction false} ResolvedImage(cs: seq<Field>, cs': seq<Field>, key: string)
    requires key in ["downstream", "upstream"] && IsImage(cs, cs') && Resolved(cs, key)
    ensures Resolved(cs', key)
  {
    hide EditComponent, NewId, IdMap;
    KeysImage(cs, cs');
    forall i | 0 <= i < |cs'|
      ensures cs'[i].value.Obj? && (Get(cs'[i].value.fields, key).Some? ==> AllIds(cs', Get(cs'[i].value.fields, key).value))
    {
      ListImage(cs, cs[i].value, key);
      if Get(cs[i].value.fields, key).Some? { AllIdsImage(cs, cs', Get(cs[i].value.fields, key).value); }
    }
  }

  lemma {:induction false} AllIdsImage(cs: seq<Field>, cs': seq<Field>, v: Json)
    requires AllIds(cs, v) && forall k | k in IdMap(cs) :: NewId(k) in IdMap(cs')
    ensures AllIds(cs', Images(cs, v))
  {
    hide NewId;
  }

  /** Every downstream edge has its upstream edge and the other way round. */
  ghost predicate Dual(cs: seq<Field>) {
    forall a, b | a in IdMap(cs) && b in IdMap(cs) :: Linked(cs, "downstream", a, b) <==> Linked(cs, "upstream", b, a)
  }

  /** Migration is a graph isomorphism: with an injective rename and resolved edges, components, downstream
      and upstream of the migrated canvas are the image of the old ones, stay resolved, and stay dual. */
  lemma {:induction false} GraphIsomorphism(dsl: Json, cs: seq<Field>)
    requires ComponentsOf(dsl) == Some(cs) && Normalize(dsl).Some?
    requires Distinct(cs) && Rendering.Injective(IdMap(cs)) && Resolved(cs, "downstream") && Resolved(cs, "upstream")
    ensures ComponentsOf(Normalize(dsl).value).Some?
    ensures var cs' := ComponentsOf(Normalize(dsl).value).value;
      && IsImage(cs, cs') && Resolved(cs', "downstream") && Resolved(cs', "upstream")
      && (forall a, b | a in IdMap(cs) && b in IdMap(cs) ::
            (Linked(cs', "downstream", NewId(a), NewId(b)) <==> Linked(cs, "downstream", a, b)) &&
            (Linked(cs', "upstream", NewId(a), NewId(b)) <==> Linked(cs, "upstream", a, b)))
      && (Dual(cs) ==> Dual(cs'))
  {
    hide EditComponent, NewId, IdMap, Linked, Resolved, Keys, Normalize, IsImage, Dual;
    NewDslComponents(dsl, cs);
    var cs' := ComponentsOf(Normalize(dsl).value).value;
    CountImage(cs);
    ResolvedImage(cs, cs', "downstream");
    ResolvedImage(cs, cs', "upstream");
    forall a, b | a in IdMap(cs) && b in IdMap(cs)
      ensures (Linked(cs', "downstream", NewId(a), NewId(b)) <==> Linked(cs, "downstream", a, b)) &&
              (Linked(cs', "upstream", NewId(a), NewId(b)) <==> Linked(cs, "upstream", a, b))
    {
      LinkedImage(cs, cs', "downstream", a, b);
      LinkedImage(cs, cs', "upstream", a, b);
    }
    if Dual(cs) { DualImage(cs, cs'); }
  }

  lemma {:induction false} CountImage(cs: seq<Field>)
    requires Distinct(cs) && Rekeyed(IdMap(cs), [], cs).Some? && Rendering.Injective(IdMap(cs))
    ensures IsImage(cs, Rekeyed(IdMap(cs), [], cs).value)
  {
    hide EditComponent, NewId, IdMap;
    ComponentCount(cs);
  }

  lemma {:induction false} DualImage(cs: seq<Field>, cs': seq<Field>)
    requires Dual(cs) && IsImage(cs, cs')
    requires forall a, b | a in IdMap(cs) && b in IdMap(cs) ::
      (Linked(cs', "downstream", NewId(a), NewId(b)) <==> Linked(cs, "downstream", a, b)) &&
      (Linked(cs', "upstream", NewId(a), NewId(b)) <==> Linked(cs, "upstream", a, b))
    ensures Dual(cs')
  {
    hide EditComponent, NewId, IdMap, Linked;
    KeysImage(cs, cs');
    forall a', b' | a' in IdMap(cs') && b' in IdMap(cs')
      ensures Linked(cs', "downstream", a', b') <==> Linked(cs', "upstream", b', a')
    {
      var a :| a in IdMap(cs) && a' == NewId(a);
      var b :| b in IdMap(cs) && b' == NewId(b);
    }
  }

  lemma {:induction false} NewDslComponents(dsl: Json, cs: seq<Field>)
    requires ComponentsOf(dsl) == Some(cs) && Normalize(dsl).Some?
    ensures Rekeyed(IdMap(cs), [], cs).Some?
    ensures ComponentsOf(Normalize(dsl).value) == Some(Rekeyed(IdMap(cs), [], cs).value)
  {
    hide EditIds, EditAll, GraphSteps, NewId, Keys, Rekeyed;
    var f, ids := IdMap(cs), Keys(cs);
    DslStepsSettle(f, ids, map[], []);
    PipeAt(dsl.fields, DslSteps(f, ids), 0);
  }

  /** The saved path is the image of the old one. */
  lemma {:induction false} PathImage(dsl: Json, cs: seq<Field>, path: Json)
    requires ComponentsOf(dsl) == Some(cs) && Normalize(dsl).Some?
    requires Get(dsl.fields, "path") == Some(path) && AllIds(cs, path)
    ensures Normalize(dsl).value.Obj? && Get(Normalize(dsl).value.fields, "path") == Some(Images(cs, path))
  {
    hide EditAll, EditComponents, GraphSteps, NewId, Keys, IdMap;
    var f, ids := IdMap(cs), Keys(cs);
    DslStepsSettle(f, ids, map[], []);
    PipeAt(dsl.fields, DslSteps(f, ids), 1);
    assert EditIds(f, path).value.items == Images(cs, path).items;
  }

  lemma {:induction false} ItemsImage(items: seq<Json>, e: Json -> Option<Json>)
    requires OnItems(items, e).Some?
    ensures |OnItems(items, e).value| == |items|
    ensures forall i | 0 <= i < |items| :: e(items[i]) == Some(OnItems(items, e).value[i])
    decreases |items|
  {
    if items != [] { ItemsImage(items[1..], e); }
  }

  function LookedUp(f: map<string, string>, v: Option<Json>): Option<Json> {
    if v.Some? then Some(LookUp(f, v.value)) else None
  }

  lemma {:induction false} NodeImage(f: map<string, string>, node: Json)
    requires node.Obj? && OnObj(node, NodeSteps(f)).Some?
    ensures var n := OnObj(node, NodeSteps(f)).value;
      n.Obj? && Get(n.fields, "id") == LookedUp(f, Get(node.fields, "id")) &&
      Get(n.fields, "parentId") == LookedUp(f, Get(node.fields, "parentId"))
  {
    hide DataSteps, EditType;
    PipeAt(node.fields, NodeSteps(f), 0);
    PipeAt(node.fields, NodeSteps(f), 1);
  }

  lemma {:induction false} EdgeImage(f: map<string, string>, ids: seq<string>, edge: Json)
    requires edge.Obj? && OnObj(edge, EdgeSteps(f, ids)).Some?
    ensures var e := OnObj(edge, EdgeSteps(f, ids)).value;
      e.Obj? && Get(e.fields, "source") == LookedUp(f, Get(edge.fields, "source")) &&
      Get(e.fields, "target") == LookedUp(f, Get(edge.fields, "target"))
  {
    hide EditEdgeId;
    PipeAt(edge.fields, EdgeSteps(f, ids), 0);
    PipeAt(edge.fields, EdgeSteps(f, ids), 1);
  }

  /** The objects of a list keep their places and have the values of `keys` looked up. */
  predicate ListedImage(f: map<string, string>, xs: seq<Json>, ys: seq<Json>, keys: seq<string>) {
    && |ys| == |xs|
    && forall i | 0 <= i < |xs| && xs[i].Obj? :: ys[i].Obj? && forall key | key in keys ::
         Get(ys[i].fields, key) == LookedUp(f, Get(xs[i].fields, key))
  }

  lemma {:induction false} NodesImage(f: map<string, string>, nodes: seq<Json>)
    requires OnItems(nodes, n => OnObj(n, NodeSteps(f))).Some?
    ensures ListedImage(f, nodes, OnItems(nodes, n => OnObj(n, NodeSteps(f))).value, ["id", "parentId"])
  {
    hide NodeSteps, LookedUp;
    var e := (n: Json) => OnObj(n, NodeSteps(f));
    ItemsImage(nodes, e);
    forall i | 0 <= i < |nodes| && nodes[i].Obj?
      ensures OnItems(nodes, e).value[i].Obj? && forall key | key in ["id", "parentId"] ::
        Get(OnItems(nodes, e).value[i].fields, key) == LookedUp(f, Get(nodes[i].fields, key))
    {
      assert e(nodes[i]) == Some(OnItems(nodes, e).value[i]);
      NodeImage(f, nodes[i]);
    }
  }

  lemma {:induction false} EdgesImage(f: map<string, string>, ids: seq<string>, edges: seq<Json>)
    requires OnItems(edges, x => OnObj(x, EdgeSteps(f, ids))).Some?
    ensures ListedImage(f, edges, OnItems(edges, x => OnObj(x, EdgeSteps(f, ids))).value, ["source", "target"])
  {
    hide EdgeSteps, LookedUp;
    var e := (x: Json) => OnObj(x, EdgeSteps(f, ids));
    ItemsImage(edges, e);
    forall i | 0 <= i < |edges| && edges[i].Obj?
      ensures OnItems(edges, e).value[i].Obj? && forall key | key in ["source", "target"] ::
        Get(OnItems(edges, e).value[i].fields, key) == LookedUp(f, Get(edges[i].fields, key))
    {
      assert e(edges[i]) == Some(OnItems(edges, e).value[i]);
      EdgeImage(f, ids, edges[i]);
    }
  }

  /** A list of the drawn graph, if it is there and is one, has its objects' `keys` looked up; anything else stays. */
  predicate PartImage(f: map<string, string>, graph: seq<Field>, graph': seq<Field>, part: string, keys: seq<string>) {
    var v, v' := Get(graph, part), Get(graph', part);
    if v.Some? && v.value.List? then v'.Some? && v'.value.List? && ListedImage(f, v.value.items, v'.value.items, keys)
    else v' == v
  }

  /** Node ids, node parents and edge endpoints of the drawn graph are looked up one by one. */
  lemma {:induction false} DrawnGraphImage(dsl: Json, cs: seq<Field>, graph: seq<Field>) returns (graph': seq<Field>)
    requires ComponentsOf(dsl) == Some(cs) && Normalize(dsl).Some? && Get(dsl.fields, "graph") == Some(Obj(graph))
    ensures Normalize(dsl).value.Obj? && Get(Normalize(dsl).value.fields, "graph") == Some(Obj(graph'))
    ensures PartImage(IdMap(cs), graph, graph', "nodes", ["id", "parentId"])
    ensures PartImage(IdMap(cs), graph, graph', "edges", ["source", "target"])
  {
    hide EditIds, EditAll, EditComponents, NodeSteps, EdgeSteps, NewId, Keys, IdMap, ListedImage;
    var f, ids := IdMap(cs), Keys(cs);
    DslStepsSettle(f, ids, map[], []);
    PipeAt(dsl.fields, DslSteps(f, ids), 2);
    PipeAt(graph, GraphSteps(f, ids), 0);
    PipeAt(graph, GraphSteps(f, ids), 1);
    graph' := Pipe(graph, GraphSteps(f, ids)).value;
    var nodes, edges := Get(graph, "nodes"), Get(graph, "edges");
    if nodes.Some? && nodes.value.List? { NodesImage(f, nodes.value.items); }
    if edges.Some? && edges.value.List? { EdgesImage(f, ids, edges.value.items); }
  }

  // ---------------------------------------------------------------- rendering

  /** A class of letters and the colon holds an id exactly when it holds its new id. */
  lemma {:induction false} NewIdClasses(p: char -> bool, id: string)
    requires (forall c | S.IsAlnum(c) :: p(c)) && p(':')
    ensures S.All(p, id) <==> S.All(p, NewId(id))
  {
    hide NewId, StartsWith, S.All, S.IsAlnum;
    NewIdUnfold(id);
    PrefixChars();
    Suffixed(p, "Splitter:", "TokenChunker:", id);
    Suffixed(p, "HierarchicalMerger:", "TitleChunker:", id);
    Suffixed(p, "PDFGenerator:", "DocGenerator:", id);
  }

  lemma {:induction false} PrefixChars()
    ensures S.All(IsPrefixChar, "Splitter:") && S.All(IsPrefixChar, "TokenChunker:")
    ensures S.All(IsPrefixChar, "HierarchicalMerger:") && S.All(IsPrefixChar, "TitleChunker:")
    ensures S.All(IsPrefixChar, "PDFGenerator:") && S.All(IsPrefixChar, "DocGenerator:")
  {
  }

  predicate IsPrefixChar(c: char) { S.IsAlnum(c) || c == ':' }

  lemma {:induction false} Suffixed(p: char -> bool, a: string, b: string, id: string)
    requires (forall c | S.IsAlnum(c) :: p(c)) && p(':') && S.All(IsPrefixChar, a) && S.All(IsPrefixChar, b)
    ensures StartsWith(id, a) ==> |a| <= |id| && (S.All(p, id) <==> S.All(p, b + id[|a|..]))
  {
    hide S.IsAlnum;
    if StartsWith(id, a) {
      assert id == a + id[|a|..];
      AllConcat(p, a, id[|a|..]);
      AllConcat(p, b, id[|a|..]);
    }
  }

  lemma {:induction false} AllConcat(p: char -> bool, a: string, b: string)
    ensures S.All(p, a + b) <==> S.All(p, a) && S.All(p, b)
  {
    if S.All(p, a + b) {
      forall i | 0 <= i < |a| ensures p(a[i]) { assert (a + b)[i] == a[i]; }
      forall i | 0 <= i < |b| ensures p(b[i]) { assert (a + b)[|a| + i] == b[i]; }
    }
  }

  lemma {:induction false} IdMapKeepsClasses(cs: seq<Field>)
    ensures Rendering.KeepsClasses(IdMap(cs))
  {
    hide NewId, S.IsAlnum;
    forall id | id in IdMap(cs)
      ensures (S.All(R.IsIdChar, id) ==> S.All(R.IsIdChar, NewId(id))) &&
              (S.All(Rendering.IsKeyChar, id) <==> S.All(Rendering.IsKeyChar, NewId(id))) && (id != "" <==> NewId(id) != "")
    {
      NewIdClasses(R.IsIdChar, id);
      NewIdClasses(Rendering.IsKeyChar, id);
      NewIdNonEmpty(id);
    }
  }

  lemma {:induction false} NewIdNonEmpty(id: string)
    ensures id != "" <==> NewId(id) != ""
  {
    hide NewId;
    NewIdUnfold(id);
  }

  /** A template of a canvas, migrated with the canvas, renders as before against the same outputs, which the
      migrated canvas holds under the new ids, exactly when its renamed references are in the runtime's form; one
      that fails goes on failing exactly when a variable that fails is not captured. */
  lemma {:induction false} MigratedTemplateRenders<O>(dsl: Json, cs: seq<Field>, rt: Rendering.Runtime<O>, t: string)
    requires ComponentsOf(dsl) == Some(cs) && Normalize(dsl).Some? && Distinct(cs)
    requires var f := IdMap(cs);
      && Rendering.Injective(f) && rt.comps.Keys == f.Keys
      && t !in f
    ensures var f := IdMap(cs); var rt' := Rendering.MigrateRuntime(rt, f);
      && ComponentsOf(Normalize(dsl).value).Some?
      && rt'.comps.Keys == IdMap(ComponentsOf(Normalize(dsl).value).value).Keys
      && (forall id | id in f :: f[id] in rt'.comps && rt'.comps[f[id]] == rt.comps[id])
      && RewriteValue(f, Str(t)) == Str(R.Rewrite(f, t))
      && (Rendering.Render(rt', R.Rewrite(f, t)) == Rendering.Render(rt, t) <==> RenderingExact.RendersAlike(rt, f, t))
  {
    hide EditComponent, NewId, RenderingExact.RendersAlike, Rendering.KeepsClasses, Rendering.Render, Normalize;
    var f := IdMap(cs);
    IdMapKeepsClasses(cs);
    RenderingExact.RenderExactly(rt, f, t);
    NewDslComponents(dsl, cs);
    ComponentCount(cs);
    var cs' := ComponentsOf(Normalize(dsl).value).value;
    KeysImage(cs, cs');
    forall id | id in f ensures f[id] in f.Values && Rendering.Source(f, f[id]) == id {}
  }
}
