/** `DataOperations._combine` as it is carried out, on a heap, because the code extends the very lists it is given.  On
    any input it computes the store of CombineModel. */
module Combine {
  import opened Options
  import opened CombineModel

  ghost function Lists(es: seq<Entry>): set<PyList> { set i | 0 <= i < |es| && es[i].1.ListOf? :: es[i].1.list }

  ghost function Snapshot(lists: set<PyList>): Contents
    reads lists
  {
    map l | l in lists :: l.items
  }

  ghost function Items(v: Value): seq<Value>
    reads if v.ListOf? then {v.list} else {}
  {
    if v.ListOf? then v.list.items else [v]
  }

  /** The value is what the slot says; a list made by the loop is none of the inputs. */
  ghost predicate Holds(v: Value, slot: Slot, heap: Contents)
    reads if v.ListOf? then {v.list} else {}
  {
    match slot
    case Scalar(a) => v == Atom(a)
    case Input(l) => v == ListOf(l) && l in heap
    case Own(x) => v.ListOf? && v.list !in heap && v.list.items == x
  }

  /** The dictionary and the heap are the store: the input lists hold what it says, and different keys hold different
      lists of the loop's own. */
  ghost predicate Represents(result: map<string, Value>, s: Store)
    reads s.heap.Keys, set k | k in result && result[k].ListOf? :: result[k].list
  {
    && result.Keys == s.slots.Keys
    && (forall k | k in result :: Holds(result[k], s.slots[k], s.heap))
    && (forall l | l in s.heap :: l.items == s.heap[l])
    && (forall a, b | a in result && b in result && a != b && s.slots[a].Own? :: result[a] != result[b])
  }

  lemma {:induction false} ReadsItems(result: map<string, Value>, s: Store, key: string)
    requires Represents(result, s) && key in result
    ensures Items(result[key]) == Reads(s, s.slots[key])
  {
    assert Holds(result[key], s.slots[key], s.heap);
  }

  /** A new key takes the value itself. */
  method MergeNew(result: map<string, Value>, key: string, value: Value, ghost s: Store) returns (r: map<string, Value>)
    requires key !in result && Represents(result, s) && (value.ListOf? ==> value.list in s.heap)
    ensures r == result[key := value] && Represents(r, Step(s, (key, value)))
  {
    r := result[key := value];
    assert forall k | k in result :: Holds(result[k], s.slots[k], s.heap);
  }

  /** A key with a list: the list grows where it stands. */
  method MergeIntoList(result: map<string, Value>, key: string, value: Value, ghost s: Store)
    requires key in result && result[key].ListOf? && Represents(result, s) && (value.ListOf? ==> value.list in s.heap)
    modifies result[key].list
    ensures Items(result[key]) == old(Items(result[key]) + Items(value)) && Represents(result, Step(s, (key, value)))
  {
    assert forall k | k in result :: Holds(result[k], s.slots[k], s.heap);
    var l := result[key].list;
    if value.ListOf? {
      l.items := l.items + value.list.items;
    } else {
      l.items := l.items + [value];
    }
    ghost var t := Step(s, (key, value));
    forall k | k in result ensures Holds(result[k], t.slots[k], t.heap) {}
  }

  /** A key with a scalar: a new list takes its place. */
  method MergeScalar(result: map<string, Value>, key: string, value: Value, ghost s: Store) returns (r: map<string, Value>)
    requires key in result && !result[key].ListOf? && Represents(result, s) && (value.ListOf? ==> value.list in s.heap)
    ensures r.Keys == result.Keys && r[key].ListOf? && fresh(r[key].list) && r == result[key := r[key]]
    ensures Items(r[key]) == [result[key]] + Items(value) && Represents(r, Step(s, (key, value)))
  {
    assert forall k | k in result :: Holds(result[k], s.slots[k], s.heap);
    var l;
    if value.ListOf? {
      l := new PyList([result[key]] + value.list.items);
    } else {
      l := new PyList([result[key], value]);
    }
    r := result[key := ListOf(l)];
    ghost var t := Step(s, (key, value));
    forall k | k in r ensures Holds(r[k], t.slots[k], t.heap) {}
  }

  /** The body of the inner loop, for one item of a dictionary. */
  method MergeOne(result: map<string, Value>, key: string, value: Value, ghost s: Store) returns (r: map<string, Value>)
    requires Represents(result, s) && (value.ListOf? ==> value.list in s.heap)
    modifies if key in result && result[key].ListOf? then {result[key].list} else {}
    ensures Represents(r, Step(s, (key, value)))
    ensures forall k | k in r :: r[k] == value || (k in result && r[k] == result[k]) || (r[k].ListOf? && fresh(r[k].list))
  {
    hide Represents, Step;
    if key !in result {
      r := MergeNew(result, key, value, s);
    } else if result[key].ListOf? {
      MergeIntoList(result, key, value, s);
      r := result;
    } else {
      r := MergeScalar(result, key, value, s);
    }
  }

  lemma {:induction false} EntriesStep(objs: seq<Dict>, i: nat, j: nat)
    requires i < |objs| && j < |objs[i]|
    ensures Entries(objs[..i]) + objs[i][..j + 1] == Entries(objs[..i]) + objs[i][..j] + [objs[i][j]]
    ensures Entries(objs[..i]) + objs[i][..j + 1] <= Entries(objs)
  {
    EntriesPrefix(objs, i);
  }

  lemma {:induction false} EntriesPrefix(objs: seq<Dict>, i: nat)
    requires i < |objs|
    ensures Entries(objs[..i + 1]) == Entries(objs[..i]) + objs[i] && Entries(objs[..i + 1]) <= Entries(objs)
    decreases |objs| - i
  {
    assert objs[..i + 1][..i] == objs[..i];
    if i + 1 < |objs| {
      EntriesPrefix(objs, i + 1);
    } else {
      assert objs[..i + 1] == objs;
    }
  }

  /** The lists that may have changed: firsts of keys that recur. */
  ghost predicate OnlyFirstsChanged(olds: Contents, es: seq<Entry>)
    reads olds.Keys
  {
    forall l | l in olds :: l.items == olds[l] || exists key :: RecurringFirst(es, l, key)
  }

  /** `_combine`, on any dictionaries, lists shared or not.  For every key the result, read as a list, is the
      concatenation of that key's values over all dictionaries if and only if the condition `Exact` holds of the
      entries and of what the lists hold at the start; and the only inputs that change are lists that were the first
      value of a key that recurs. */
  method Combine(objs: seq<Dict>) returns (result: map<string, Value>)
    modifies Lists(Entries(objs))
    ensures Represents(result, Exec(old(Snapshot(Lists(Entries(objs)))), Entries(objs)))
    ensures forall key :: key in result <==> Count(Entries(objs), key) > 0
    ensures (forall key | key in result :: Items(result[key]) == Gathered(old(Snapshot(Lists(Entries(objs)))), Entries(objs), key))
            <==> Exact(old(Snapshot(Lists(Entries(objs)))), Entries(objs))
    ensures OnlyFirstsChanged(old(Snapshot(Lists(Entries(objs)))), Entries(objs))
  {
    hide Represents, Step, Exact, Gathered, Count, First;
    result := map[];
    ghost var all := Entries(objs);
    ghost var olds := Snapshot(Lists(all));
    Begins(olds, Entries(objs[..0]));
    for i := 0 to |objs|
      invariant Represents(result, Exec(olds, Entries(objs[..i])))
      invariant forall k | k in result && result[k].ListOf? :: result[k].list in Lists(all) || fresh(result[k].list)
    {
      assert Entries(objs[..i]) + objs[i][..0] == Entries(objs[..i]);
      for j := 0 to |objs[i]|
        invariant Represents(result, Exec(olds, Entries(objs[..i]) + objs[i][..j]))
        invariant forall k | k in result && result[k].ListOf? :: result[k].list in Lists(all) || fresh(result[k].list)
      {
        var (key, value) := objs[i][j];
        EntriesStep(objs, i, j);
        ghost var es := Entries(objs[..i]) + objs[i][..j];
        assert value.ListOf? ==> value.list in Lists(all) by {
          assert (es + [objs[i][j]])[|es|] == objs[i][j] == all[|es|];
        }
        HeapKeys(olds, es);
        ExecSnoc(olds, es, objs[i][j]);
        result := MergeOne(result, key, value, Exec(olds, es));
      }
      EntriesPrefix(objs, i);
      assert objs[i][..|objs[i]|] == objs[i];
    }
    assert objs[..|objs|] == objs;
    Meaning(result, olds, all);
  }

  lemma {:induction false} Begins(olds: Contents, es: seq<Entry>)
    requires es == [] && forall l | l in olds :: l.items == olds[l]
    ensures Represents(map[], Exec(olds, es))
  {
  }

  lemma {:induction false} HeapKeys(olds: Contents, es: seq<Entry>)
    ensures olds.Keys <= Exec(olds, es).heap.Keys
    decreases |es|
  {
    if es != [] { HeapKeys(olds, es[..|es| - 1]); }
  }

  /** What the store says of the result. */
  lemma {:induction false} Meaning(result: map<string, Value>, olds: Contents, es: seq<Entry>)
    requires Represents(result, Exec(olds, es)) && Known(olds, es)
    ensures forall key :: key in result <==> Count(es, key) > 0
    ensures (forall key | key in result :: Items(result[key]) == Gathered(olds, es, key)) <==> Exact(olds, es)
    ensures OnlyFirstsChanged(olds, es)
  {
    hide Exec, Exact, Gathered, Count, First;
    forall key ensures key in result <==> Count(es, key) > 0 { Slots(olds, es, key); }
    forall key | key in result ensures Items(result[key]) == Reads(Exec(olds, es), Exec(olds, es).slots[key]) {
      ReadsItems(result, Exec(olds, es), key);
    }
    ConservesExactly(olds, es);
    forall l | l in olds ensures l.items == olds[l] || exists key :: RecurringFirst(es, l, key) { OnlyFirstsChange(olds, es, l); }
  }
}
