/** JSON values and Python dictionaries: an object is the list of its fields in insertion order. */
module Json {
  import opened Options

  datatype Json = Null | Bool(b: bool) | Number(literal: string) | Str(text: string) | List(items: seq<Json>) | Obj(fields: seq<Field>)

  datatype Field = Field(key: string, value: Json)

  /** `d.get(key)` */
  function Get(fields: seq<Field>, key: string): Option<Json> {
    if fields == [] then None
    else if fields[0].key == key then Some(fields[0].value)
    else Get(fields[1..], key)
  }

  /** `d[key] = v`: an existing key keeps its place, a new one goes last. */
  function Put(fields: seq<Field>, key: string, v: Json): (r: seq<Field>)
    ensures forall k :: Get(r, k) == if k == key then Some(v) else Get(fields, k)
  {
    if fields == [] then [Field(key, v)]
    else if fields[0].key == key then [Field(key, v)] + fields[1..]
    else [fields[0]] + Put(fields[1..], key, v)
  }

  predicate HasKey(fields: seq<Field>, key: string) { exists i :: 0 <= i < |fields| && fields[i].key == key }

  predicate Distinct(fields: seq<Field>) { forall i, j | 0 <= i < j < |fields| :: fields[i].key != fields[j].key }

  lemma {:induction false} GetHas(fields: seq<Field>, key: string)
    ensures Get(fields, key).Some? <==> HasKey(fields, key)
    decreases |fields|
  {
    if fields != [] {
      GetHas(fields[1..], key);
      if HasKey(fields[1..], key) {
        var i :| 0 <= i < |fields[1..]| && fields[1..][i].key == key;
        assert fields[i + 1].key == key;
      }
      if HasKey(fields, key) && fields[0].key != key {
        var i :| 0 <= i < |fields| && fields[i].key == key;
        assert fields[1..][i - 1].key == key;
      }
    }
  }

  /** Storing what is already there changes nothing. */
  lemma {:induction false} PutSame(fields: seq<Field>, key: string, v: Json)
    requires Get(fields, key) == Some(v)
    ensures Put(fields, key, v) == fields
    decreases |fields|
  {
    if fields[0].key == key {
      assert [Field(key, v)] + fields[1..] == fields;
    } else {
      PutSame(fields[1..], key, v);
    }
  }

  lemma {:induction false} PutNew(fields: seq<Field>, key: string, v: Json)
    requires Get(fields, key).None?
    ensures Put(fields, key, v) == fields + [Field(key, v)]
    decreases |fields|
  {
    if fields != [] { PutNew(fields[1..], key, v); }
  }

  /** Storing never changes the place of a key, nor makes one appear twice. */
  lemma {:induction false} PutKeys(fields: seq<Field>, key: string, v: Json)
    ensures |Put(fields, key, v)| == |fields| + if HasKey(fields, key) then 0 else 1
    ensures forall i | 0 <= i < |fields| :: Put(fields, key, v)[i].key == fields[i].key
    ensures !HasKey(fields, key) ==> Put(fields, key, v)[|fields|] == Field(key, v)
    ensures Distinct(fields) ==> Distinct(Put(fields, key, v))
    decreases |fields|
  {
    GetHas(fields, key);
    var r := Put(fields, key, v);
    if Get(fields, key).None? {
      PutNew(fields, key, v);
    } else if fields[0].key != key {
      GetHas(fields[1..], key);
      PutKeys(fields[1..], key, v);
    }
  }

  lemma {:induction false} GetAt(fields: seq<Field>, k: nat)
    requires Distinct(fields) && k < |fields|
    ensures Get(fields, fields[k].key) == Some(fields[k].value)
    decreases k
  {
    if k > 0 {
      assert fields[0].key != fields[k].key;
      GetAt(fields[1..], k - 1);
    }
  }

  // ---------------------------------------------------------------- editing fields in place

  /** A step replaces the value of one key, if the key is there; None is a Python exception. */
  datatype Step = Step(key: string, edit: Json -> Option<Json>)

  function Apply(fields: seq<Field>, s: Step): Option<seq<Field>> {
    var v := Get(fields, s.key);
    if v.None? then Some(fields)
    else if s.edit(v.value).None? then None
    else Some(Put(fields, s.key, s.edit(v.value).value))
  }

  function Pipe(fields: seq<Field>, steps: seq<Step>): Option<seq<Field>>
    decreases |steps|
  {
    if steps == [] then Some(fields)
    else if Apply(fields, steps[0]).None? then None
    else Pipe(Apply(fields, steps[0]).value, steps[1..])
  }

  /** Does the second edit leave everything the first one produces alone? */
  ghost predicate Settles(e: Json -> Option<Json>, e': Json -> Option<Json>) {
    forall v | e(v).Some? :: e'(e(v).value) == Some(e(v).value)
  }

  predicate DistinctSteps(steps: seq<Step>) { forall i, j | 0 <= i < j < |steps| :: steps[i].key != steps[j].key }

  lemma {:induction false} PipeKeeps(fields: seq<Field>, steps: seq<Step>, key: string)
    requires Pipe(fields, steps).Some? && forall i | 0 <= i < |steps| :: steps[i].key != key
    ensures Get(Pipe(fields, steps).value, key) == Get(fields, key)
    decreases |steps|
  {
    if steps != [] { PipeKeeps(Apply(fields, steps[0]).value, steps[1..], key); }
  }

  /** What a pipe leaves under the key of one of its steps. */
  lemma {:induction false} PipeAt(fields: seq<Field>, steps: seq<Step>, i: nat)
    requires Pipe(fields, steps).Some? && DistinctSteps(steps) && i < |steps|
    ensures var v, r := Get(fields, steps[i].key), Get(Pipe(fields, steps).value, steps[i].key);
      if v.None? then r.None? else steps[i].edit(v.value).Some? && r == steps[i].edit(v.value)
    decreases |steps|
  {
    var f1 := Apply(fields, steps[0]).value;
    assert DistinctSteps(steps[1..]) by {
      forall a, b | 0 <= a < b < |steps[1..]| ensures steps[1..][a].key != steps[1..][b].key {
        assert steps[a + 1].key != steps[b + 1].key;
      }
    }
    if i == 0 {
      PipeKeeps(f1, steps[1..], steps[0].key);
    } else {
      PipeAt(f1, steps[1..], i - 1);
    }
  }

  lemma {:induction false} PipeIdle(fields: seq<Field>, steps: seq<Step>)
    requires forall i | 0 <= i < |steps| :: Apply(fields, steps[i]) == Some(fields)
    ensures Pipe(fields, steps) == Some(fields)
    decreases |steps|
  {
    if steps != [] {
      forall i | 0 <= i < |steps[1..]| ensures Apply(fields, steps[1..][i]) == Some(fields) {
        assert steps[1..][i] == steps[i + 1];
      }
      PipeIdle(fields, steps[1..]);
    }
  }

  /** A pipe whose edits settle is done after one pass. */
  lemma {:induction false} PipeSettles(fields: seq<Field>, steps: seq<Step>, steps': seq<Step>)
    requires Pipe(fields, steps).Some? && DistinctSteps(steps) && |steps| == |steps'|
    requires forall i | 0 <= i < |steps| :: steps[i].key == steps'[i].key && Settles(steps[i].edit, steps'[i].edit)
    ensures Pipe(Pipe(fields, steps).value, steps') == Some(Pipe(fields, steps).value)
  {
    var r := Pipe(fields, steps).value;
    forall i | 0 <= i < |steps'| ensures Apply(r, steps'[i]) == Some(r) {
      PipeAt(fields, steps, i);
      if Get(r, steps[i].key).Some? {
        assert Settles(steps[i].edit, steps'[i].edit);
        PutSame(r, steps[i].key, Get(r, steps[i].key).value);
      }
    }
    PipeIdle(r, steps');
  }

  // ---------------------------------------------------------------- paths

  datatype PathStep = Key(key: string) | Index(i: nat)

  type Path = seq<PathStep>

  /** Following a path from a value. */
  function Follow(v: Json, p: Path): Option<Json>
    decreases |p|
  {
    if p == [] then Some(v)
    else
      match p[0]
      case Key(k) => if v.Obj? && Get(v.fields, k).Some? then Follow(Get(v.fields, k).value, p[1..]) else None
      case Index(i) => if v.List? && i < |v.items| then Follow(v.items[i], p[1..]) else None
  }
}
