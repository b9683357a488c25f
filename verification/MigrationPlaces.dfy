/** What becomes of every place of a document: the value at each path, one by one. */
module MigrationPlaces {
  import opened Options
  import opened Json
  import opened Migration
  import opened MigrationIdempotent
  import opened MigrationGraph
  import R = References
  import Rendering
  import RenderingExact

  /** What is done to a scalar, in order; `Grows` is said of a dictionary that may gain a component name. */
  datatype Edit = Text | Id | Name | NodeType | EdgeId | Grows

  function Edited(e: Edit, f: map<string, string>, ids: seq<string>, v: Json): Json {
    if !v.Str? then v
    else
      match e
      case Text => Str(if v.text in f then f[v.text] else R.Rewrite(f, v.text))
      case Id => Str(if v.text in f then f[v.text] else v.text)
      case Name => Str(NewName(v.text))
      case NodeType => Str(if v.text == "splitterNode" then "chunkerNode" else v.text)
      case EdgeId => Str(ReplaceAll(f, Longest(ids), v.text))
      case Grows => v
  }

  function Translate(es: seq<Edit>, f: map<string, string>, ids: seq<string>, v: Json): Json
    decreases |es|
  {
    if es == [] then v else Translate(es[1..], f, ids, Edited(es[0], f, ids, v))
  }

  /** A list keeps its length, a dictionary its keys in their places, and a scalar is translated. */
  predicate Like(es: seq<Edit>, f: map<string, string>, ids: seq<string>, v: Json, v': Json) {
    match v
    case List(items) => v'.List? && |v'.items| == |items|
    case Obj(fields) =>
      v'.Obj? && (Keys(v'.fields) == Keys(fields) || (Grows in es && Keys(v'.fields) == Keys(fields) + ["component_name"]))
    case _ => v' == Translate(es, f, ids, v)
  }

  /** At every path of `v` there is, at the same path of `v'`, what `tr` says of it. */
  ghost predicate Law(v: Json, v': Json, tr: Path -> seq<Edit>, f: map<string, string>, ids: seq<string>) {
    forall p: Path, x: Json | Follow(v, p) == Some(x) :: Placed(v', tr(p), p, f, ids, x)
  }

  predicate Placed(v': Json, es: seq<Edit>, p: Path, f: map<string, string>, ids: seq<string>, x: Json) {
    Follow(v', p).Some? && Like(es, f, ids, x, Follow(v', p).value)
  }

  function Everywhere(es: seq<Edit>): Path -> seq<Edit> { p => es }

  lemma {:induction false} Unchanged(v: Json, f: map<string, string>, ids: seq<string>)
    ensures Law(v, v, Everywhere([]), f, ids)
  {
  }

  /** `rewrite_value` reaches every string, through lists and dictionaries, and changes nothing else. */
  lemma {:induction false} RewriteReaches(f: map<string, string>, ids: seq<string>, v: Json, p: Path, x: Json)
    requires Follow(v, p) == Some(x)
    ensures Placed(RewriteValue(f, v), [Text], p, f, ids, x)
    decreases |p|
  {
    if p == [] {
      RewriteLike(f, ids, v);
    } else {
      match p[0]
      case Key(k) =>
        GetRewritten(f, v.fields, k);
        RewriteReaches(f, ids, Get(v.fields, k).value, p[1..], x);
      case Index(i) =>
        RewriteReaches(f, ids, v.items[i], p[1..], x);
    }
  }

  lemma {:induction false} RewriteLike(f: map<string, string>, ids: seq<string>, v: Json)
    ensures Like([Text], f, ids, v, RewriteValue(f, v))
  {
    assert [Text][1..] == [];
    if v.Obj? {
      var r := RewriteValue(f, v).fields;
      forall i | 0 <= i < |r| ensures Keys(r)[i] == Keys(v.fields)[i] {}
    }
  }

  lemma {:induction false} RewriteLaw(f: map<string, string>, ids: seq<string>, v: Json)
    ensures Law(v, RewriteValue(f, v), Everywhere([Text]), f, ids)
  {
    forall p: Path, x: Json | Follow(v, p) == Some(x) ensures Placed(RewriteValue(f, v), [Text], p, f, ids, x) { RewriteReaches(f, ids, v, p, x); }
  }

  // ---------------------------------------------------------------- laws of composed edits

  lemma {:induction false} TranslateConcat(a: seq<Edit>, b: seq<Edit>, f: map<string, string>, ids: seq<string>, v: Json)
    ensures Translate(a + b, f, ids, v) == Translate(b, f, ids, Translate(a, f, ids, v))
    decreases |a|
  {
    if a == [] {
      assert a + b == b;
    } else {
      assert (a + b)[0] == a[0] && (a + b)[1..] == a[1..] + b;
      TranslateConcat(a[1..], b, f, ids, Edited(a[0], f, ids, v));
    }
  }

  lemma {:induction false} TranslateScalar(a: seq<Edit>, f: map<string, string>, ids: seq<string>, v: Json)
    requires !v.List? && !v.Obj?
    ensures var r := Translate(a, f, ids, v); !r.List? && !r.Obj?
    decreases |a|
  {
    if a != [] { TranslateScalar(a[1..], f, ids, Edited(a[0], f, ids, v)); }
  }

  function After(first: seq<Edit>, tr: Path -> seq<Edit>): Path -> seq<Edit> { p => first + tr(p) }

  lemma {:induction false} LikeTrans(a: seq<Edit>, b: seq<Edit>, f: map<string, string>, ids: seq<string>, v: Json, w: Json, x: Json)
    requires Like(a, f, ids, v, w) && Like(b, f, ids, w, x) && Grows !in a
    ensures Like(a + b, f, ids, v, x)
  {
    if !v.List? && !v.Obj? {
      TranslateConcat(a, b, f, ids, v);
      TranslateScalar(a, f, ids, v);
    }
  }

  lemma {:induction false} LawTrans(v: Json, w: Json, x: Json, a: seq<Edit>, tr: Path -> seq<Edit>, f: map<string, string>, ids: seq<string>)
    requires Law(v, w, Everywhere(a), f, ids) && Law(w, x, tr, f, ids) && Grows !in a
    ensures Law(v, x, After(a, tr), f, ids)
  {
    hide Like, Follow;
    forall p, y | Follow(v, p) == Some(y) ensures Placed(x, After(a, tr)(p), p, f, ids, y) {
      assert Placed(w, Everywhere(a)(p), p, f, ids, y);
      assert Placed(x, tr(p), p, f, ids, Follow(w, p).value);
      LikeTrans(a, tr(p), f, ids, y, Follow(w, p).value, Follow(x, p).value);
    }
  }

  lemma {:induction false} PipeSameKeys(fields: seq<Field>, steps: seq<Step>)
    requires Pipe(fields, steps).Some?
    ensures Keys(Pipe(fields, steps).value) == Keys(fields)
    decreases |steps|
  {
    if steps != [] {
      var k := steps[0].key;
      var r := Apply(fields, steps[0]).value;
      if Get(fields, k).Some? {
        GetHas(fields, k);
        PutKeys(fields, k, steps[0].edit(Get(fields, k).value).value);
      }
      assert Keys(r) == Keys(fields);
      PipeSameKeys(r, steps[1..]);
    }
  }

  /** The law of one step: what its edit makes of any value. */
  ghost predicate StepLaw(s: Step, tr: Path -> seq<Edit>, f: map<string, string>, ids: seq<string>) {
    forall v | s.edit(v).Some? :: Law(v, s.edit(v).value, tr, f, ids)
  }

  /** What steps with these laws do below a dictionary. */
  function Below(steps: seq<Step>, trs: seq<Path -> seq<Edit>>): Path -> seq<Edit>
    requires |trs| == |steps|
  {
    (p: Path) => if p != [] && p[0].Key? then Chosen(steps, trs, p[0].key, p[1..]) else []
  }

  function Chosen(steps: seq<Step>, trs: seq<Path -> seq<Edit>>, key: string, p: Path): seq<Edit>
    requires |trs| == |steps|
  {
    if steps == [] then [] else if steps[0].key == key then trs[0](p) else Chosen(steps[1..], trs[1..], key, p)
  }

  lemma {:induction false} ChosenAt(steps: seq<Step>, trs: seq<Path -> seq<Edit>>, i: nat, p: Path)
    requires |trs| == |steps| && DistinctSteps(steps) && i < |steps|
    ensures Chosen(steps, trs, steps[i].key, p) == trs[i](p)
    decreases i
  {
    if i > 0 {
      assert steps[0].key != steps[i].key;
      RestDistinct(steps);
      ChosenAt(steps[1..], trs[1..], i - 1, p);
    }
  }

  lemma {:induction false} RestDistinct(steps: seq<Step>)
    requires steps != [] && DistinctSteps(steps)
    ensures DistinctSteps(steps[1..])
  {
    forall a, b | 0 <= a < b < |steps[1..]| ensures steps[1..][a].key != steps[1..][b].key {
      assert steps[a + 1].key != steps[b + 1].key;
    }
  }

  lemma {:induction false} ChosenNone(steps: seq<Step>, trs: seq<Path -> seq<Edit>>, key: string, p: Path)
    requires |trs| == |steps| && forall i | 0 <= i < |steps| :: steps[i].key != key
    ensures Chosen(steps, trs, key, p) == []
    decreases |steps|
  {
    if steps != [] { ChosenNone(steps[1..], trs[1..], key, p); }
  }

  lemma {:induction false} PipeLaw(fields: seq<Field>, steps: seq<Step>, trs: seq<Path -> seq<Edit>>, f: map<string, string>, ids: seq<string>)
    requires Pipe(fields, steps).Some? && DistinctSteps(steps) && |trs| == |steps|
    requires forall i | 0 <= i < |steps| :: StepLaw(steps[i], trs[i], f, ids)
    ensures Law(Obj(fields), Obj(Pipe(fields, steps).value), Below(steps, trs), f, ids)
  {
    hide Like, StepLaw, Pipe, Chosen;
    var r := Pipe(fields, steps).value;
    forall p: Path, x: Json | Follow(Obj(fields), p) == Some(x) ensures Placed(Obj(r), Below(steps, trs)(p), p, f, ids, x) {
      if p == [] {
        PipeSameKeys(fields, steps);
        SameKeysLike(Below(steps, trs)([]), f, ids, fields, r);
      } else {
        PipePlace(fields, steps, trs, f, ids, p, x);
      }
    }
  }

  lemma {:induction false} SameKeysLike(es: seq<Edit>, f: map<string, string>, ids: seq<string>, a: seq<Field>, b: seq<Field>)
    requires Keys(a) == Keys(b)
    ensures Like(es, f, ids, Obj(a), Obj(b))
  {
  }

  lemma {:induction false} PipePlace(fields: seq<Field>, steps: seq<Step>, trs: seq<Path -> seq<Edit>>, f: map<string, string>, ids: seq<string>, p: Path, x: Json)
    requires Pipe(fields, steps).Some? && DistinctSteps(steps) && |trs| == |steps|
    requires forall i | 0 <= i < |steps| :: StepLaw(steps[i], trs[i], f, ids)
    requires p != [] && Follow(Obj(fields), p) == Some(x)
    ensures Placed(Obj(Pipe(fields, steps).value), Below(steps, trs)(p), p, f, ids, x)
  {
    hide Like, Pipe, Chosen, Law;
    var k := p[0].key;
    var v := Get(fields, k).value;
    var r := Pipe(fields, steps).value;
    if i :| 0 <= i < |steps| && steps[i].key == k {
      PipeAt(fields, steps, i);
      ChosenAt(steps, trs, i, p[1..]);
      assert StepLaw(steps[i], trs[i], f, ids);
      LawAt(v, Get(r, k).value, trs[i], f, ids, p[1..], x);
    } else {
      PipeKeeps(fields, steps, k);
      ChosenNone(steps, trs, k, p[1..]);
      Unchanged(v, f, ids);
      LawAt(v, v, Everywhere([]), f, ids, p[1..], x);
    }
  }

  lemma {:induction false} LawAt(v: Json, v': Json, tr: Path -> seq<Edit>, f: map<string, string>, ids: seq<string>, p: Path, x: Json)
    requires Law(v, v', tr, f, ids) && Follow(v, p) == Some(x)
    ensures Placed(v', tr(p), p, f, ids, x)
  {
  }

  // ---------------------------------------------------------------- the laws of single edits

  function AtRoot(es: seq<Edit>): Path -> seq<Edit> { (p: Path) => if p == [] then es else [] }

  function AtItems(es: seq<Edit>): Path -> seq<Edit> { (p: Path) => if |p| == 1 && p[0].Index? then es else [] }

  function AtName(): Path -> seq<Edit> {
    (p: Path) => if p == [] then [Grows] else if p == [PathStep.Key("component_name")] then [Name] else []
  }

  function OverItems(tr: Path -> seq<Edit>): Path -> seq<Edit> { (p: Path) => if p != [] && p[0].Index? then tr(p[1..]) else [] }

  /** An edit of scalars. */
  lemma {:induction false} RootLaw(v: Json, v': Json, es: seq<Edit>, f: map<string, string>, ids: seq<string>)
    requires if v.List? || v.Obj? then v' == v else v' == Translate(es, f, ids, v)
    ensures Law(v, v', AtRoot(es), f, ids)
  {
    hide Translate;
    forall p: Path, x: Json | Follow(v, p) == Some(x) ensures Placed(v', AtRoot(es)(p), p, f, ids, x) {
      if p != [] { NoTranslation(f, ids, x); }
    }
  }

  lemma {:induction false} NoTranslation(f: map<string, string>, ids: seq<string>, x: Json)
    ensures Translate([], f, ids, x) == x
  {
  }

  lemma {:induction false} OneEdit(e: Edit, f: map<string, string>, ids: seq<string>, x: Json)
    ensures Translate([e], f, ids, x) == Edited(e, f, ids, x)
  {
    assert [e][1..] == [];
  }

  lemma {:induction false} ScalarSteps(f: map<string, string>, ids: seq<string>, v: Json)
    ensures Law(v, EditId(f, v).value, AtRoot([Id]), f, ids)
    ensures Law(v, EditName(v).value, AtRoot([Name]), f, ids)
    ensures Law(v, EditType(v).value, AtRoot([NodeType]), f, ids)
    ensures Law(v, EditEdgeId(f, ids, v).value, AtRoot([EdgeId]), f, ids)
  {
    hide Law, NewName, ReplaceAll;
    OneEdit(Id, f, ids, v);
    OneEdit(Name, f, ids, v);
    OneEdit(NodeType, f, ids, v);
    OneEdit(EdgeId, f, ids, v);
    if v.Str? { TypeIs(v); }
    RootLaw(v, EditId(f, v).value, [Id], f, ids);
    RootLaw(v, EditName(v).value, [Name], f, ids);
    RootLaw(v, EditType(v).value, [NodeType], f, ids);
    RootLaw(v, EditEdgeId(f, ids, v).value, [EdgeId], f, ids);
  }

  lemma {:induction false} TypeIs(v: Json)
    requires v.Str?
    ensures NewNodeType(v.text) == if v.text == "splitterNode" then "chunkerNode" else v.text
  {
  }

  lemma {:induction false} IdsLaw(f: map<string, string>, ids: seq<string>, v: Json)
    requires EditIds(f, v).Some?
    ensures Law(v, EditIds(f, v).value, AtItems([Id]), f, ids)
  {
    hide Translate;
    var v' := EditIds(f, v).value;
    forall p: Path, x: Json | Follow(v, p) == Some(x) ensures Placed(v', AtItems([Id])(p), p, f, ids, x) {
      NoTranslation(f, ids, x);
      OneEdit(Id, f, ids, x);
      if p != [] && v.List? {
        var i := p[0].i;
        assert Hashable(v.items[i]) && v'.items[i] == LookUp(f, v.items[i]);
        ScalarPath(v.items[i], p[1..]);
        assert p == [PathStep.Index(i)] && AtItems([Id])(p) == [Id];
        assert x == v.items[i] && Follow(v', p) == Some(v'.items[i]) by { OneStep(v, i); OneStep(v', i); }
      } else {
        assert AtItems([Id])(p) == [];
      }
    }
  }

  lemma {:induction false} OneStep(v: Json, i: nat)
    requires v.List? && i < |v.items|
    ensures Follow(v, [PathStep.Index(i)]) == Some(v.items[i])
  {
    assert [PathStep.Index(i)][1..] == [];
  }

  lemma {:induction false} OneKey(v: Json, k: string)
    requires v.Obj? && Get(v.fields, k).Some?
    ensures Follow(v, [PathStep.Key(k)]) == Get(v.fields, k)
  {
    assert [PathStep.Key(k)][1..] == [];
  }

  lemma {:induction false} ScalarPath(v: Json, p: Path)
    requires Hashable(v) && Follow(v, p).Some?
    ensures p == []
  {
  }

  lemma {:induction false} ObjLaw(f: map<string, string>, ids: seq<string>, v: Json)
    requires EditObj(v).Some?
    ensures Law(v, EditObj(v).value, AtName(), f, ids)
  {
    hide Translate, NewName;
    var v', key := EditObj(v).value, "component_name";
    forall p: Path, x: Json | Follow(v, p) == Some(x) ensures Placed(v', AtName()(p), p, f, ids, x) {
      NoTranslation(f, ids, x);
      OneEdit(Name, f, ids, x);
      OneEdit(Grows, f, ids, x);
      if v.Obj? {
        if p == [] {
          NameKeys(v.fields, v'.fields);
        } else if p[0].key == key {
          ScalarPath(Get(v.fields, key).value, p[1..]);
          assert p == [PathStep.Key(key)];
          OneKey(v, key);
          OneKey(v', key);
        } else {
          assert Get(v'.fields, p[0].key) == Get(v.fields, p[0].key);
          assert AtName()(p) == [];
        }
      }
    }
  }

  lemma {:induction false} NameKeys(a: seq<Field>, b: seq<Field>)
    requires EditObj(Obj(a)) == Some(Obj(b))
    ensures Keys(b) == Keys(a) || Keys(b) == Keys(a) + ["component_name"]
  {
    hide NewName;
    var key := "component_name";
    var n := if Get(a, key).Some? then Get(a, key).value else Null;
    var v := if n.Str? then Str(NewName(n.text)) else n;
    GetHas(a, key);
    PutKeys(a, key, v);
    if HasKey(a, key) { assert Keys(b) == Keys(a); } else { assert Keys(b) == Keys(a) + [key]; }
  }

  lemma {:induction false} OnObjLaw(v: Json, steps: seq<Step>, trs: seq<Path -> seq<Edit>>, f: map<string, string>, ids: seq<string>)
    requires OnObj(v, steps).Some? && DistinctSteps(steps) && |trs| == |steps|
    requires forall i | 0 <= i < |steps| :: StepLaw(steps[i], trs[i], f, ids)
    ensures Law(v, OnObj(v, steps).value, Below(steps, trs), f, ids)
  {
    hide StepLaw, Pipe, Chosen;
    if v.Obj? {
      PipeLaw(v.fields, steps, trs, f, ids);
    } else {
      forall p: Path, x: Json | Follow(v, p) == Some(x) ensures Placed(v, Below(steps, trs)(p), p, f, ids, x) { NoTranslation(f, ids, x); }
    }
  }

  lemma {:induction false} OnListLaw(v: Json, e: Json -> Option<Json>, tr: Path -> seq<Edit>, f: map<string, string>, ids: seq<string>)
    requires OnList(v, e).Some? && forall x | e(x).Some? :: Law(x, e(x).value, tr, f, ids)
    ensures Law(v, OnList(v, e).value, OverItems(tr), f, ids)
  {
    hide Law, OnItems, Translate;
    var v' := OnList(v, e).value;
    if v.List? { ItemsImage(v.items, e); }
    forall p: Path, x: Json | Follow(v, p) == Some(x) ensures Placed(v', OverItems(tr)(p), p, f, ids, x) {
      NoTranslation(f, ids, x);
      if v.List? && p != [] {
        var i := p[0].i;
        LawAt(v.items[i], v'.items[i], tr, f, ids, p[1..], x);
      }
    }
    assert Law(v, v', OverItems(tr), f, ids) by { LawOf(v, v', OverItems(tr), f, ids); }
  }

  lemma {:induction false} LawOf(v: Json, v': Json, tr: Path -> seq<Edit>, f: map<string, string>, ids: seq<string>)
    requires forall p: Path, x: Json | Follow(v, p) == Some(x) :: Placed(v', tr(p), p, f, ids, x)
    ensures Law(v, v', tr, f, ids)
  {
    hide Follow, Placed;
  }

  // ---------------------------------------------------------------- the places of a document

  function K(key: string): PathStep { PathStep.Key(key) }

  /** Below a component. */
  function ComponentPlace(q: Path): seq<Edit> {
    if q == [K("obj")] then [Text, Grows]
    else if q == [K("obj"), K("component_name")] then [Text, Name]
    else if |q| == 2 && q[0] in [K("downstream"), K("upstream")] && q[1].Index? then [Text, Id]
    else if q == [K("parent_id")] then [Text, Id]
    else [Text]
  }

  /** Below a node of the drawn graph. */
  function NodePlace(q: Path): seq<Edit> {
    if q == [K("id")] || q == [K("parentId")] then [Id]
    else if q == [K("type")] then [NodeType]
    else if q == [K("data"), K("label")] || q == [K("data"), K("name")] then [Name]
    else if |q| >= 2 && q[0] == K("data") && q[1] == K("form") then [Text]
    else []
  }

  /** Below an edge of the drawn graph. */
  function EdgePlace(q: Path): seq<Edit> {
    if q == [K("source")] || q == [K("target")] then [Id] else if q == [K("id")] then [EdgeId] else []
  }

  function GraphPlace(q: Path): seq<Edit> {
    if |q| >= 2 && q[0] == K("nodes") && q[1].Index? then NodePlace(q[2..])
    else if |q| >= 2 && q[0] == K("edges") && q[1].Index? then EdgePlace(q[2..])
    else []
  }

  /** What the migration does at a place of the document. */
  function PlaceOf(p: Path): seq<Edit> {
    if |p| >= 2 && p[0] == K("components") && p[1].Key? then ComponentPlace(p[2..])
    else if p != [] && p[0] == K("path") then AtItems([Id])(p[1..])
    else if p != [] && p[0] == K("graph") then GraphPlace(p[1..])
    else if p != [] && p[0] in [K("history"), K("messages"), K("reference")] then [Text]
    else []
  }

  function ComponentTrs(): seq<Path -> seq<Edit>> { [AtName(), AtItems([Id]), AtItems([Id]), AtRoot([Id])] }

  function DataTrs(): seq<Path -> seq<Edit>> { [AtRoot([Name]), AtRoot([Name]), Everywhere([Text])] }

  function NodeTrs(f: map<string, string>): seq<Path -> seq<Edit>> {
    [AtRoot([Id]), AtRoot([Id]), AtRoot([NodeType]), Below(DataSteps(f), DataTrs())]
  }

  function EdgeTrs(): seq<Path -> seq<Edit>> { [AtRoot([Id]), AtRoot([Id]), AtRoot([EdgeId])] }

  function GraphTrs(f: map<string, string>, ids: seq<string>): seq<Path -> seq<Edit>> {
    [OverItems(Below(NodeSteps(f), NodeTrs(f))), OverItems(Below(EdgeSteps(f, ids), EdgeTrs()))]
  }

  lemma {:induction false} LawsOfComponents(f: map<string, string>, ids: seq<string>)
    ensures DistinctSteps(ComponentSteps(f))
    ensures forall i | 0 <= i < |ComponentSteps(f)| :: StepLaw(ComponentSteps(f)[i], ComponentTrs()[i], f, ids)
  {
    hide Law, EditObj, EditIds;
    forall v | EditObj(v).Some? ensures Law(v, EditObj(v).value, AtName(), f, ids) { ObjLaw(f, ids, v); }
    forall v | EditIds(f, v).Some? ensures Law(v, EditIds(f, v).value, AtItems([Id]), f, ids) { IdsLaw(f, ids, v); }
    forall v ensures Law(v, EditId(f, v).value, AtRoot([Id]), f, ids) { ScalarSteps(f, ids, v); }
  }

  lemma {:induction false} LawsOfData(f: map<string, string>, ids: seq<string>)
    ensures DistinctSteps(DataSteps(f)) && forall i | 0 <= i < |DataSteps(f)| :: StepLaw(DataSteps(f)[i], DataTrs()[i], f, ids)
  {
    hide Law, RewriteValue;
    forall v ensures Law(v, EditName(v).value, AtRoot([Name]), f, ids) { ScalarSteps(f, ids, v); }
    forall v ensures Law(v, EditAll(f, v).value, Everywhere([Text]), f, ids) { RewriteLaw(f, ids, v); }
  }

  lemma {:induction false} LawsOfNodes(f: map<string, string>, ids: seq<string>)
    ensures DistinctSteps(NodeSteps(f)) && forall i | 0 <= i < |NodeSteps(f)| :: StepLaw(NodeSteps(f)[i], NodeTrs(f)[i], f, ids)
  {
    hide Law, OnObj, DataSteps, DataTrs, Chosen;
    forall v ensures Law(v, EditId(f, v).value, AtRoot([Id]), f, ids) && Law(v, EditType(v).value, AtRoot([NodeType]), f, ids) {
      ScalarSteps(f, ids, v);
    }
    LawsOfData(f, ids);
    assert |DataTrs()| == |DataSteps(f)| by { SameLengths(f, ids); }
    forall v | OnObj(v, DataSteps(f)).Some? ensures Law(v, OnObj(v, DataSteps(f)).value, Below(DataSteps(f), DataTrs()), f, ids) {
      OnObjLaw(v, DataSteps(f), DataTrs(), f, ids);
    }
  }

  lemma {:induction false} SameLengths(f: map<string, string>, ids: seq<string>)
    ensures |DataTrs()| == |DataSteps(f)| && |NodeTrs(f)| == |NodeSteps(f)| && |EdgeTrs()| == |EdgeSteps(f, ids)|
    ensures |GraphTrs(f, ids)| == |GraphSteps(f, ids)| && |ComponentTrs()| == |ComponentSteps(f)|
  {
  }

  lemma {:induction false} LawsOfEdges(f: map<string, string>, ids: seq<string>)
    ensures DistinctSteps(EdgeSteps(f, ids))
    ensures forall i | 0 <= i < |EdgeSteps(f, ids)| :: StepLaw(EdgeSteps(f, ids)[i], EdgeTrs()[i], f, ids)
  {
    hide Law, EditEdgeId;
    forall v ensures EditEdgeId(f, ids, v).Some? && Law(v, EditEdgeId(f, ids, v).value, AtRoot([EdgeId]), f, ids) {
      EdgeIdGiven(f, ids, v);
      ScalarSteps(f, ids, v);
    }
    forall v ensures Law(v, EditId(f, v).value, AtRoot([Id]), f, ids) { ScalarSteps(f, ids, v); }
  }

  lemma {:induction false} EdgeIdGiven(f: map<string, string>, ids: seq<string>, v: Json)
    ensures EditEdgeId(f, ids, v).Some?
  {
  }

  lemma {:induction false} LawsOfGraph(f: map<string, string>, ids: seq<string>)
    ensures DistinctSteps(GraphSteps(f, ids))
    ensures forall i | 0 <= i < |GraphSteps(f, ids)| :: StepLaw(GraphSteps(f, ids)[i], GraphTrs(f, ids)[i], f, ids)
  {
    hide Law, OnObj, OnList, NodeSteps, EdgeSteps, Below, StepLaw, Chosen, OverItems;
    SameLengths2(f, ids);
    LawsOfNodes(f, ids);
    LawsOfEdges(f, ids);
    var en := (n: Json) => OnObj(n, NodeSteps(f));
    var ee := (e: Json) => OnObj(e, EdgeSteps(f, ids));
    forall n | en(n).Some? ensures Law(n, en(n).value, Below(NodeSteps(f), NodeTrs(f)), f, ids) {
      OnObjLaw(n, NodeSteps(f), NodeTrs(f), f, ids);
    }
    forall e | ee(e).Some? ensures Law(e, ee(e).value, Below(EdgeSteps(f, ids), EdgeTrs()), f, ids) {
      OnObjLaw(e, EdgeSteps(f, ids), EdgeTrs(), f, ids);
    }
    forall v | NodesOf(f, v).Some? ensures Law(v, NodesOf(f, v).value, OverItems(Below(NodeSteps(f), NodeTrs(f))), f, ids) {
      OnListLaw(v, en, Below(NodeSteps(f), NodeTrs(f)), f, ids);
    }
    forall v | EdgesOf(f, ids, v).Some? ensures Law(v, EdgesOf(f, ids, v).value, OverItems(Below(EdgeSteps(f, ids), EdgeTrs())), f, ids) {
      OnListLaw(v, ee, Below(EdgeSteps(f, ids), EdgeTrs()), f, ids);
    }
    LawsOfGraphSteps(f, ids);
  }

  function NodesOf(f: map<string, string>, v: Json): Option<Json> { OnList(v, n => OnObj(n, NodeSteps(f))) }

  function EdgesOf(f: map<string, string>, ids: seq<string>, v: Json): Option<Json> { OnList(v, e => OnObj(e, EdgeSteps(f, ids))) }

  lemma {:induction false} LawsOfGraphSteps(f: map<string, string>, ids: seq<string>)
    requires |GraphTrs(f, ids)| == 2
    requires forall v | NodesOf(f, v).Some? :: Law(v, NodesOf(f, v).value, GraphTrs(f, ids)[0], f, ids)
    requires forall v | EdgesOf(f, ids, v).Some? :: Law(v, EdgesOf(f, ids, v).value, GraphTrs(f, ids)[1], f, ids)
    ensures DistinctSteps(GraphSteps(f, ids)) && |GraphSteps(f, ids)| == 2
    ensures forall i | 0 <= i < |GraphSteps(f, ids)| :: StepLaw(GraphSteps(f, ids)[i], GraphTrs(f, ids)[i], f, ids)
  {
    hide Law, OnObj, OnList, NodeSteps, EdgeSteps, GraphTrs;
    var s := GraphSteps(f, ids);
    forall v ensures s[0].edit(v) == NodesOf(f, v) {}
    forall v ensures s[1].edit(v) == EdgesOf(f, ids, v) {}
  }

  lemma {:induction false} SameLengths2(f: map<string, string>, ids: seq<string>)
    ensures |NodeTrs(f)| == |NodeSteps(f)| && |EdgeTrs()| == |EdgeSteps(f, ids)|
  {
  }

  // ---------------------------------------------------------------- the laws and the places agree

  lemma {:induction false} BelowAt(steps: seq<Step>, trs: seq<Path -> seq<Edit>>, i: nat, q: Path)
    requires |trs| == |steps| && DistinctSteps(steps) && i < |steps|
    ensures q != [] && q[0] == K(steps[i].key) ==> Below(steps, trs)(q) == trs[i](q[1..])
  {
    if q != [] && q[0] == K(steps[i].key) { ChosenAt(steps, trs, i, q[1..]); }
  }

  lemma {:induction false} BelowNone(steps: seq<Step>, trs: seq<Path -> seq<Edit>>, q: Path)
    requires |trs| == |steps|
    ensures (q == [] || forall i | 0 <= i < |steps| :: q[0] != K(steps[i].key)) ==> Below(steps, trs)(q) == []
  {
    if q != [] && q[0].Key? && forall i | 0 <= i < |steps| :: q[0] != K(steps[i].key) {
      forall i | 0 <= i < |steps| ensures steps[i].key != q[0].key { assert q[0] != K(steps[i].key); }
      ChosenNone(steps, trs, q[0].key, q[1..]);
    }
  }

  lemma {:induction false} OneMore(q: Path, s: PathStep)
    ensures q != [] && q[0] == s ==> q == [s] + q[1..]
  {
  }

  lemma {:induction false} ComponentPlaces(f: map<string, string>, q: Path)
    ensures [Text] + Below(ComponentSteps(f), ComponentTrs())(q) == ComponentPlace(q)
  {
    hide Chosen, EditObj, EditIds;
    var steps := ComponentSteps(f);
    LawsOfComponents(f, []);
    assert steps[0].key == "obj" && steps[1].key == "downstream" && steps[2].key == "upstream" && steps[3].key == "parent_id";
    BelowAt(steps, ComponentTrs(), 0, q);
    BelowAt(steps, ComponentTrs(), 1, q);
    BelowAt(steps, ComponentTrs(), 2, q);
    BelowAt(steps, ComponentTrs(), 3, q);
    BelowNone(steps, ComponentTrs(), q);
    assert [Text] + [] == [Text];
    if q != [] { OneMore(q, q[0]); }
    if |q| > 1 { OneMore(q[1..], q[1]); }
  }

  lemma {:induction false} DataPlaces(f: map<string, string>, q: Path)
    ensures Below(DataSteps(f), DataTrs())(q) ==
            if q == [K("label")] || q == [K("name")] then [Name] else if q != [] && q[0] == K("form") then [Text] else []
  {
    hide Chosen, RewriteValue;
    var steps := DataSteps(f);
    LawsOfData(f, []);
    assert steps[0].key == "label" && steps[1].key == "name" && steps[2].key == "form";
    BelowAt(steps, DataTrs(), 0, q);
    BelowAt(steps, DataTrs(), 1, q);
    BelowAt(steps, DataTrs(), 2, q);
    BelowNone(steps, DataTrs(), q);
    if q != [] { OneMore(q, q[0]); }
  }

  lemma {:induction false} NodePlaces(f: map<string, string>, q: Path)
    ensures Below(NodeSteps(f), NodeTrs(f))(q) == NodePlace(q)
  {
    hide Chosen, OnObj, DataSteps, DataTrs, Below;
    var steps := NodeSteps(f);
    LawsOfNodes(f, []);
    SameLengths2(f, []);
    assert steps[0].key == "id" && steps[1].key == "parentId" && steps[2].key == "type" && steps[3].key == "data";
    BelowAt(steps, NodeTrs(f), 0, q);
    BelowAt(steps, NodeTrs(f), 1, q);
    BelowAt(steps, NodeTrs(f), 2, q);
    BelowAt(steps, NodeTrs(f), 3, q);
    BelowNone(steps, NodeTrs(f), q);
    if q != [] {
      OneMore(q, q[0]);
      assert |DataTrs()| == |DataSteps(f)| by { SameLengths(f, []); }
      DataPlaces(f, q[1..]);
      if |q| > 1 { OneMore(q[1..], q[1]); }
    }
  }

  lemma {:induction false} EdgePlaces(f: map<string, string>, ids: seq<string>, q: Path)
    ensures Below(EdgeSteps(f, ids), EdgeTrs())(q) == EdgePlace(q)
  {
    hide Chosen, EditEdgeId;
    var steps := EdgeSteps(f, ids);
    LawsOfEdges(f, ids);
    assert steps[0].key == "source" && steps[1].key == "target" && steps[2].key == "id";
    BelowAt(steps, EdgeTrs(), 0, q);
    BelowAt(steps, EdgeTrs(), 1, q);
    BelowAt(steps, EdgeTrs(), 2, q);
    BelowNone(steps, EdgeTrs(), q);
    if q != [] { OneMore(q, q[0]); }
  }

  lemma {:induction false} GraphPlaces(f: map<string, string>, ids: seq<string>, q: Path)
    ensures Below(GraphSteps(f, ids), GraphTrs(f, ids))(q) == GraphPlace(q)
  {
    hide Chosen, OnList, NodeSteps, EdgeSteps, NodeTrs, EdgeTrs, Below, NodePlace, EdgePlace;
    var steps := GraphSteps(f, ids);
    LawsOfGraph(f, ids);
    SameLengths2(f, ids);
    assert steps[0].key == "nodes" && steps[1].key == "edges";
    BelowAt(steps, GraphTrs(f, ids), 0, q);
    BelowAt(steps, GraphTrs(f, ids), 1, q);
    BelowNone(steps, GraphTrs(f, ids), q);
    if |q| > 1 {
      assert q[1..][1..] == q[2..];
      NodePlaces(f, q[2..]);
      EdgePlaces(f, ids, q[2..]);
    }
  }

  // ---------------------------------------------------------------- the whole document

  /** Where a place of the document is after the migration: components move to their new ids. */
  function Moved(p: Path): Path {
    if |p| >= 2 && p[0] == K("components") && p[1].Key? then [p[0], K(NewId(p[1].key))] + p[2..] else p
  }

  lemma {:induction false} ComponentLaw(f: map<string, string>, ids: seq<string>, v: Json, q: Path, x: Json)
    requires EditComponent(f, v).Some? && Follow(v, q) == Some(x)
    ensures Placed(EditComponent(f, v).value, ComponentPlace(q), q, f, ids, x)
  {
    hide Law, ComponentSteps, RewriteValue, Below, Like, StepLaw, ComponentPlace;
    var w := RewriteValue(f, v);
    RewriteLaw(f, ids, v);
    LawsOfComponents(f, ids);
    SameLengths(f, ids);
    OnObjLaw(w, ComponentSteps(f), ComponentTrs(), f, ids);
    var tr := Below(ComponentSteps(f), ComponentTrs());
    LawTrans(v, w, EditComponent(f, v).value, [Text], tr, f, ids);
    LawAt(v, EditComponent(f, v).value, After([Text], tr), f, ids, q, x);
    ComponentPlaces(f, q);
  }

  lemma {:induction false} ComponentAtPlace(dsl: Json, cs: seq<Field>, p: Path, x: Json)
    requires ComponentsOf(dsl) == Some(cs) && Normalize(dsl).Some? && Distinct(cs) && Rendering.Injective(IdMap(cs))
    requires |p| >= 2 && p[0] == K("components") && Follow(dsl, p) == Some(x)
    ensures p[1].Key? && Placed(Normalize(dsl).value, ComponentPlace(p[2..]), Moved(p), IdMap(cs), Keys(cs), x)
  {
    hide Normalize, EditComponent, NewId, IdMap, Keys, ComponentPlace, Like, Rekeyed;
    assert p[1..][1..] == p[2..];
    var id := p[1].key;
    NewDslComponents(dsl, cs);
    var cs' := ComponentsOf(Normalize(dsl).value).value;
    assert IsImage(cs, cs') by { CountImage(cs); }
    GetHas(cs, id);
    var i :| 0 <= i < |cs| && cs[i].key == id;
    GetAt(cs, i);
    NewKeysDistinct(cs, cs');
    GetAt(cs', i);
    ComponentLaw(IdMap(cs), Keys(cs), cs[i].value, p[2..], x);
    var m := [p[0], K(NewId(id))] + p[2..];
    assert m[1..][1..] == p[2..] && m[1..][0] == K(NewId(id)) && m[0] == p[0];
    assert Follow(Normalize(dsl).value, m) == Follow(cs'[i].value, p[2..]);
  }

  lemma {:induction false} NewKeysDistinct(cs: seq<Field>, cs': seq<Field>)
    requires Distinct(cs) && Rendering.Injective(IdMap(cs)) && IsImage(cs, cs')
    ensures Distinct(cs')
  {
    hide NewId, IdMap, EditComponent, Rendering.Injective;
    InjectiveKeys(cs);
  }

  lemma {:induction false} FieldPlace(r: seq<Field>, v': Json, es: seq<Edit>, f: map<string, string>, ids: seq<string>, p: Path, x: Json)
    requires p != [] && p[0].Key? && Get(r, p[0].key) == Some(v') && Placed(v', es, p[1..], f, ids, x)
    ensures Placed(Obj(r), es, p, f, ids, x)
  {
    hide Like;
  }

  lemma {:induction false} GraphAtPlace(f: map<string, string>, ids: seq<string>, v: Json, q: Path, x: Json)
    requires OnObj(v, GraphSteps(f, ids)).Some? && Follow(v, q) == Some(x)
    ensures Placed(OnObj(v, GraphSteps(f, ids)).value, GraphPlace(q), q, f, ids, x)
  {
    hide Law, GraphSteps, Like, GraphPlace, StepLaw, Below;
    LawsOfGraph(f, ids);
    assert |GraphTrs(f, ids)| == |GraphSteps(f, ids)| by { SameLengths(f, ids); }
    OnObjLaw(v, GraphSteps(f, ids), GraphTrs(f, ids), f, ids);
    LawAt(v, OnObj(v, GraphSteps(f, ids)).value, Below(GraphSteps(f, ids), GraphTrs(f, ids)), f, ids, q, x);
    GraphPlaces(f, ids, q);
  }

  /** What the migration makes of a field of the document, other than its components. */
  lemma {:induction false} FieldAfter(dsl: Json, cs: seq<Field>, k: string)
    requires ComponentsOf(dsl) == Some(cs) && Normalize(dsl).Some? && k != "components" && Get(dsl.fields, k).Some?
    ensures Normalize(dsl).value.Obj? && Get(Normalize(dsl).value.fields, k).Some?
    ensures var f, ids, v := IdMap(cs), Keys(cs), Get(dsl.fields, k).value;
      Get(Normalize(dsl).value.fields, k) ==
        if k == "path" then EditIds(f, v)
        else if k == "graph" then OnObj(v, GraphSteps(f, ids))
        else if k in ["history", "messages", "reference"] then Some(RewriteValue(f, v))
        else Some(v)
  {
    hide EditComponents, EditIds, GraphSteps, IdMap, Keys, OnObj, RewriteValue, Normalize;
    var f, ids := IdMap(cs), Keys(cs);
    var steps := DslSteps(f, ids);
    DslStepsSettle(f, ids, map[], []);
    NormalizeIs(dsl, cs);
    if k == "path" {
      PipeAt(dsl.fields, steps, 1);
    } else if k == "graph" {
      PipeAt(dsl.fields, steps, 2);
    } else if k in ["history", "messages", "reference"] {
      PipeAt(dsl.fields, steps, if k == "history" then 3 else if k == "messages" then 4 else 5);
      AllIs(f, Get(dsl.fields, k).value);
    } else {
      PipeKeeps(dsl.fields, steps, k);
    }
  }

  lemma {:induction false} ElsewhereAtPlace(dsl: Json, cs: seq<Field>, p: Path, x: Json)
    requires ComponentsOf(dsl) == Some(cs) && Normalize(dsl).Some?
    requires p != [] && p[0] != K("components") && Follow(dsl, p) == Some(x)
    ensures Placed(Normalize(dsl).value, PlaceOf(p), p, IdMap(cs), Keys(cs), x)
  {
    hide EditIds, GraphSteps, IdMap, Keys, Law, AtItems, GraphPlace, OnObj, Placed, RewriteValue, Normalize;
    var f, ids := IdMap(cs), Keys(cs);
    assert p[0].Key?;
    var k, q := p[0].key, p[1..];
    var v := Get(dsl.fields, k).value;
    FieldAfter(dsl, cs, k);
    var r := Normalize(dsl).value.fields;
    if k == "path" {
      IdsLaw(f, ids, v);
      LawAt(v, Get(r, k).value, AtItems([Id]), f, ids, q, x);
    } else if k == "graph" {
      GraphAtPlace(f, ids, v, q, x);
    } else if k in ["history", "messages", "reference"] {
      RewriteLaw(f, ids, v);
      LawAt(v, Get(r, k).value, Everywhere([Text]), f, ids, q, x);
    } else {
      Unchanged(v, f, ids);
      LawAt(v, v, Everywhere([]), f, ids, q, x);
    }
    FieldPlace(r, Get(r, k).value, PlaceOf(p), f, ids, p, x);
  }

  lemma {:induction false} NormalizeIs(dsl: Json, cs: seq<Field>)
    requires ComponentsOf(dsl) == Some(cs) && Normalize(dsl).Some?
    ensures var steps := DslSteps(IdMap(cs), Keys(cs));
      Pipe(dsl.fields, steps).Some? && Normalize(dsl).value == Obj(Pipe(dsl.fields, steps).value)
  {
    hide DslSteps, Pipe, IdMap, Keys;
  }

  lemma {:induction false} AllIs(f: map<string, string>, v: Json)
    ensures EditAll(f, v) == Some(RewriteValue(f, v))
  {
  }

  /** Every place of a document, one by one: below every path there is after the migration, at the same path (components
      under their new ids), a list of the same length, a dictionary of the same keys, or the scalar translated as its place
      demands; the component object may gain the name it lacks.  The components themselves are the one exception: they
      keep their order and get their new ids. */
  lemma {:induction false} DocumentAtPlace(dsl: Json, cs: seq<Field>, p: Path, x: Json)
    requires ComponentsOf(dsl) == Some(cs) && Normalize(dsl).Some? && Distinct(cs) && Rendering.Injective(IdMap(cs))
    requires Follow(dsl, p) == Some(x)
    ensures var d := Normalize(dsl).value;
      if p == [K("components")] then ComponentsOf(d).Some? && Keys(ComponentsOf(d).value) == seq(|cs|, i requires 0 <= i < |cs| => NewId(cs[i].key))
      else Placed(d, PlaceOf(p), Moved(p), IdMap(cs), Keys(cs), x)
  {
    hide Normalize, NewId, IdMap, Like, ComponentPlace, GraphPlace, Rendering.Injective;
    if p == [] {
      DocumentKeys(dsl, cs);
    } else if p[0] != K("components") {
      ElsewhereAtPlace(dsl, cs, p, x);
    } else if |p| >= 2 {
      ComponentAtPlace(dsl, cs, p, x);
    } else {
      assert p == [K("components")];
      hide EditComponent, Rekeyed;
      NewDslComponents(dsl, cs);
      var cs' := ComponentsOf(Normalize(dsl).value).value;
      assert IsImage(cs, cs') by { CountImage(cs); }
      assert Keys(cs') == seq(|cs|, i requires 0 <= i < |cs| => NewId(cs[i].key));
    }
  }

  lemma {:induction false} DocumentKeys(dsl: Json, cs: seq<Field>)
    requires ComponentsOf(dsl) == Some(cs) && Normalize(dsl).Some?
    ensures Placed(Normalize(dsl).value, [], [], IdMap(cs), Keys(cs), dsl)
  {
    hide EditComponents, EditIds, EditAll, GraphSteps, IdMap;
    PipeSameKeys(dsl.fields, DslSteps(IdMap(cs), Keys(cs)));
    SameKeysLike([], IdMap(cs), Keys(cs), dsl.fields, Pipe(dsl.fields, DslSteps(IdMap(cs), Keys(cs))).value);
  }

  /** A template at any place that is rewritten as text, say the content of a message, a prompt in a list, or the history,
      is migrated with the document, and renders as before exactly under the condition of `RendersAlike`. */
  lemma {:induction false} TemplateAtPlace<O>(dsl: Json, cs: seq<Field>, rt: Rendering.Runtime<O>, p: Path, t: string)
    requires ComponentsOf(dsl) == Some(cs) && Normalize(dsl).Some? && Distinct(cs)
    requires Follow(dsl, p) == Some(Str(t)) && PlaceOf(p) == [Text] && p != [K("components")]
    requires var f := IdMap(cs); Rendering.Injective(f) && rt.comps.Keys == f.Keys && t !in f
    ensures var f := IdMap(cs); var t' := R.Rewrite(f, t);
      && Follow(Normalize(dsl).value, Moved(p)) == Some(Str(t'))
      && (Rendering.Render(Rendering.MigrateRuntime(rt, f), t') == Rendering.Render(rt, t) <==> RenderingExact.RendersAlike(rt, f, t))
  {
    hide Normalize, IdMap, PlaceOf, Moved, Rendering.Injective, Rendering.Render, RenderingExact.RendersAlike, R.Rewrite;
    DocumentAtPlace(dsl, cs, p, Str(t));
    OneEdit(Text, IdMap(cs), Keys(cs), Str(t));
    MigratedTemplateRenders(dsl, cs, rt, t);
  }
}
