/** `DataOperations._combine` on values: what the loop makes of any entries, shared lists included, and exactly when that
    is the concatenation of every key's values. */
module CombineModel {
  import opened Options

  /** A Python value: a list lives on the heap, anything else is an atom here. */
  datatype Value = Atom(text: string) | ListOf(list: PyList)

  class PyList {
    var items: seq<Value>

    constructor (s: seq<Value>)
      ensures items == s
    {
      items := s;
    }
  }

  /** A dictionary is its items in insertion order. */
  type Entry = (string, Value)
  type Dict = seq<Entry>

  function Entries(objs: seq<Dict>): seq<Entry> {
    if objs == [] then [] else Entries(objs[..|objs| - 1]) + objs[|objs| - 1]
  }

  type Contents = map<PyList, seq<Value>>

  /** A value read as a list: a scalar counts as one item. */
  function ItemsIn(heap: Contents, v: Value): seq<Value> {
    if v.ListOf? then (if v.list in heap then heap[v.list] else []) else [v]
  }

  /** All values of a key, in order, each read as a list. */
  function Gathered(olds: Contents, es: seq<Entry>, key: string): seq<Value> {
    if es == [] then []
    else
      var e := es[|es| - 1];
      Gathered(olds, es[..|es| - 1], key) + if e.0 == key then ItemsIn(olds, e.1) else []
  }

  function Count(es: seq<Entry>, key: string): nat {
    if es == [] then 0 else Count(es[..|es| - 1], key) + if es[|es| - 1].0 == key then 1 else 0
  }

  function First(es: seq<Entry>, key: string): Option<Value> {
    if es == [] then None
    else
      var f := First(es[..|es| - 1], key);
      if f.Some? then f else if es[|es| - 1].0 == key then Some(es[|es| - 1].1) else None
  }

  lemma {:induction false} Snoc(olds: Contents, es: seq<Entry>, e: Entry, key: string)
    ensures Gathered(olds, es + [e], key) == Gathered(olds, es, key) + if e.0 == key then ItemsIn(olds, e.1) else []
    ensures Count(es + [e], key) == Count(es, key) + if e.0 == key then 1 else 0
    ensures First(es + [e], key) == if First(es, key).Some? then First(es, key) else if e.0 == key then Some(e.1) else None
  {
    assert (es + [e])[..|es|] == es;
  }

  // ---------------------------------------------------------------- the loop

  /** What a key of the result holds: an atom, an input list (not a copy of it), or a list made by the loop. */
  datatype Slot = Scalar(text: string) | Input(list: PyList) | Own(items: seq<Value>)

  datatype Store = Store(slots: map<string, Slot>, heap: Contents)

  function SlotOf(v: Value): Slot { if v.ListOf? then Input(v.list) else Scalar(v.text) }

  /** What a slot reads as. */
  function Reads(s: Store, slot: Slot): seq<Value> {
    match slot
    case Scalar(a) => [Atom(a)]
    case Input(l) => ItemsIn(s.heap, ListOf(l))
    case Own(x) => x
  }

  /** The body of the inner loop. */
  function Step(s: Store, e: Entry): Store {
    var (k, v) := e;
    if k !in s.slots then s.(slots := s.slots[k := SlotOf(v)])
    else if s.slots[k].Input? then
      s.(heap := s.heap[s.slots[k].list := Reads(s, s.slots[k]) + ItemsIn(s.heap, v)])
    else s.(slots := s.slots[k := Own(Reads(s, s.slots[k]) + ItemsIn(s.heap, v))])
  }

  function Exec(olds: Contents, es: seq<Entry>): Store {
    if es == [] then Store(map[], olds) else Step(Exec(olds, es[..|es| - 1]), es[|es| - 1])
  }

  lemma {:induction false} ExecSnoc(olds: Contents, t: seq<Entry>, e: Entry)
    ensures Exec(olds, t + [e]) == Step(Exec(olds, t), e)
  {
    assert (t + [e])[..|t|] == t;
  }

  /** Every list among the entries is on the heap. */
  predicate Known(heap: Contents, es: seq<Entry>) { forall i | 0 <= i < |es| && es[i].1.ListOf? :: es[i].1.list in heap }

  // ---------------------------------------------------------------- where the slots come from

  predicate SlotFits(s: Store, olds: Contents, es: seq<Entry>, key: string) {
    if First(es, key).None? then key !in s.slots && Count(es, key) == 0
    else
      && key in s.slots && Count(es, key) > 0
      && match First(es, key).value {
           case ListOf(l) => l in olds && s.slots[key] == Input(l)
           case Atom(a) => if Count(es, key) == 1 then s.slots[key] == Scalar(a) else s.slots[key].Own?
         }
  }

  /** A key has its first value if that is a list or the only one, and a list made by the loop otherwise. */
  lemma {:induction false} Slots(olds: Contents, es: seq<Entry>, key: string)
    requires Known(olds, es)
    ensures SlotFits(Exec(olds, es), olds, es, key)
    decreases |es|
  {
    if es != [] {
      var n := |es| - 1;
      var t, e := es[..n], es[n];
      assert es == t + [e];
      Slots(olds, t, key);
      Snoc(olds, t, e, key);
    }
  }

  /** Is the list the first value of a key that recurs? */
  predicate RecurringFirst(es: seq<Entry>, l: PyList, key: string) { First(es, key) == Some(ListOf(l)) && Count(es, key) >= 2 }

  /** The only lists that change are first values of keys that recur, whatever is shared. */
  lemma {:induction false} OnlyFirstsChange(olds: Contents, es: seq<Entry>, l: PyList)
    requires Known(olds, es)
    ensures Exec(olds, es).heap.Keys == olds.Keys
    ensures l in olds && Exec(olds, es).heap[l] != olds[l] ==> exists key :: RecurringFirst(es, l, key)
    decreases |es|
  {
    if es != [] {
      var n := |es| - 1;
      var t, e := es[..n], es[n];
      assert es == t + [e];
      OnlyFirstsChange(olds, t, l);
      Slots(olds, t, e.0);
      var s, r := Exec(olds, t), Exec(olds, es);
      Snoc(olds, t, e, e.0);
      if l in olds && r.heap[l] != olds[l] {
        if s.heap[l] != olds[l] {
          var key :| RecurringFirst(t, l, key);
          Snoc(olds, t, e, key);
          assert RecurringFirst(es, l, key);
        } else {
          assert RecurringFirst(es, l, e.0);
        }
      }
    }
  }

  // ---------------------------------------------------------------- when the result is the concatenation

  /** Every key reads as the concatenation of its values. */
  ghost predicate Conserves(olds: Contents, es: seq<Entry>) {
    forall key | key in Exec(olds, es).slots :: Reads(Exec(olds, es), Exec(olds, es).slots[key]) == Gathered(olds, es, key)
  }

  /** The entry at `p` extends an input list: its key has one as its first value, and there is something to append. */
  predicate Extends(olds: Contents, es: seq<Entry>, p: nat)
    requires p < |es|
  {
    var first := First(es[..p], es[p].0);
    first.Some? && first.value.ListOf? && ItemsIn(olds, es[p].1) != []
  }

  /** The value that stands for that list. */
  function Target(olds: Contents, es: seq<Entry>, p: nat): Value
    requires p < |es| && Extends(olds, es, p)
  {
    First(es[..p], es[p].0).value
  }

  /** No other key has the value as its first. */
  ghost predicate OnlyKeyOf(es: seq<Entry>, key: string, v: Value) { forall k | k != key :: First(es, k) != Some(v) }

  predicate NotAfter(es: seq<Entry>, p: nat, v: Value) { forall q | p < q < |es| :: es[q].1 != v }

  /** A list that is extended is the value of no later entry, and the first value of no other key. */
  ghost predicate Exact(olds: Contents, es: seq<Entry>) {
    forall p | 0 <= p < |es| && Extends(olds, es, p) :: Unread(olds, es, p)
  }

  ghost predicate Unread(olds: Contents, es: seq<Entry>, p: nat)
    requires p < |es| && Extends(olds, es, p)
  {
    NotAfter(es, p, Target(olds, es, p)) && OnlyKeyOf(es, es[p].0, Target(olds, es, p))
  }

  predicate ExtendsTo(olds: Contents, es: seq<Entry>, p: nat, v: Value)
    requires p < |es|
  {
    Extends(olds, es, p) && Target(olds, es, p) == v
  }

  /** Has the value been extended? */
  predicate Extended(olds: Contents, es: seq<Entry>, v: Value) { exists p | 0 <= p < |es| :: ExtendsTo(olds, es, p, v) }

  lemma {:induction false} ExtendsSnoc(olds: Contents, t: seq<Entry>, e: Entry, p: nat)
    requires p < |t|
    ensures Extends(olds, t + [e], p) <==> Extends(olds, t, p)
    ensures Extends(olds, t, p) ==> Target(olds, t + [e], p) == Target(olds, t, p)
  {
    assert (t + [e])[..p] == t[..p];
  }

  lemma {:induction false} ExtendsLast(olds: Contents, t: seq<Entry>, e: Entry)
    ensures Extends(olds, t + [e], |t|) <==> First(t, e.0).Some? && First(t, e.0).value.ListOf? && ItemsIn(olds, e.1) != []
    ensures Extends(olds, t + [e], |t|) ==> Target(olds, t + [e], |t|) == First(t, e.0).value
  {
    assert (t + [e])[..|t|] == t;
  }

  lemma {:induction false} ExtendedSnoc(olds: Contents, t: seq<Entry>, e: Entry, v: Value)
    ensures Extended(olds, t + [e], v) <==> Extended(olds, t, v) || ExtendsTo(olds, t + [e], |t|, v)
  {
    hide Extends, Target;
    forall p | 0 <= p < |t| ensures ExtendsTo(olds, t + [e], p, v) <==> ExtendsTo(olds, t, p, v) { ExtendsSnoc(olds, t, e, p); }
  }

  /** What one more entry adds to the condition: it must not read a list that was extended, and must not extend one
      that another key has. */
  ghost predicate MayFollow(olds: Contents, t: seq<Entry>, e: Entry) {
    && !(e.1.ListOf? && Extended(olds, t, e.1))
    && (Extends(olds, t + [e], |t|) ==> OnlyKeyOf(t, e.0, First(t, e.0).value))
  }

  lemma {:induction false} ExactSnoc(olds: Contents, t: seq<Entry>, e: Entry)
    ensures Exact(olds, t + [e]) <==> Exact(olds, t) && MayFollow(olds, t, e)
  {
    hide Extends, Unread, Target, OnlyKeyOf;
    var es := t + [e];
    forall p | 0 <= p < |t|
      ensures Extends(olds, es, p) <==> Extends(olds, t, p)
      ensures Extends(olds, t, p) ==> (Unread(olds, es, p) <==> Unread(olds, t, p) && !ExtendsTo(olds, t, p, e.1))
    {
      ExtendsSnoc(olds, t, e, p);
      if Extends(olds, t, p) { UnreadSnoc(olds, t, e, p); }
    }
    ExtendsLast(olds, t, e);
    if Extends(olds, es, |t|) { UnreadLast(olds, t, e); }
    AllOrSome(olds, t, e.1);
    TargetsAreLists(olds, t, e.1);
  }

  lemma {:induction false} AllOrSome(olds: Contents, t: seq<Entry>, v: Value)
    ensures Extended(olds, t, v) <==> !forall p | 0 <= p < |t| :: !ExtendsTo(olds, t, p, v)
  {
  }

  lemma {:induction false} TargetsAreLists(olds: Contents, t: seq<Entry>, v: Value)
    ensures Extended(olds, t, v) ==> v.ListOf?
  {
  }

  lemma {:induction false} UnreadSnoc(olds: Contents, t: seq<Entry>, e: Entry, p: nat)
    requires p < |t| && Extends(olds, t, p) && Extends(olds, t + [e], p)
    ensures Unread(olds, t + [e], p) <==> Unread(olds, t, p) && !ExtendsTo(olds, t, p, e.1)
  {
    hide Extends, Target, OnlyKeyOf;
    ExtendsSnoc(olds, t, e, p);
    var v := Target(olds, t, p);
    OnlyKeySnoc(olds, t, e, t[p].0, v);
    NotAfterSnoc(t, e, p, v);
  }

  lemma {:induction false} UnreadLast(olds: Contents, t: seq<Entry>, e: Entry)
    requires Extends(olds, t + [e], |t|)
    ensures Unread(olds, t + [e], |t|) <==> OnlyKeyOf(t, e.0, First(t, e.0).value)
  {
    hide Extends, Target, OnlyKeyOf;
    ExtendsLast(olds, t, e);
    OnlyKeySnoc(olds, t, e, e.0, First(t, e.0).value);
  }

  lemma {:induction false} NotAfterSnoc(t: seq<Entry>, e: Entry, p: nat, v: Value)
    requires p < |t|
    ensures NotAfter(t + [e], p, v) <==> NotAfter(t, p, v) && e.1 != v
  {
    assert (t + [e])[|t|] == e;
    assert forall q | 0 <= q < |t| :: (t + [e])[q] == t[q];
  }

  lemma {:induction false} OnlyKeySnoc(olds: Contents, t: seq<Entry>, e: Entry, key: string, v: Value)
    ensures e.1 != v || e.0 == key || First(t, e.0).Some? ==> (OnlyKeyOf(t + [e], key, v) <==> OnlyKeyOf(t, key, v))
  {
    hide First;
    forall k ensures First(t + [e], k) == if First(t, k).Some? then First(t, k) else if e.0 == k then Some(e.1) else None {
      Snoc(olds, t, e, k);
    }
  }

  // ---------------------------------------------------------------- the condition is enough

  /** As long as the condition holds, lists that were not extended are as they were and every key reads as it should. */
  lemma {:induction false} ExactConserves(olds: Contents, es: seq<Entry>, key: string, v: Value)
    requires Known(olds, es) && Exact(olds, es)
    ensures Exec(olds, es).heap.Keys == olds.Keys
    ensures !Extended(olds, es, v) ==> ItemsIn(Exec(olds, es).heap, v) == ItemsIn(olds, v)
    ensures key in Exec(olds, es).slots ==> Reads(Exec(olds, es), Exec(olds, es).slots[key]) == Gathered(olds, es, key)
    decreases |es|
  {
    hide Exact, MayFollow, Extended, Extends, Target, OnlyKeyOf, First, Count, Gathered, Exec;
    if es == [] {
      NothingYet(olds, key);
    } else {
      var n := |es| - 1;
      var t, e := es[..n], es[n];
      assert es == t + [e];
      ExactSnoc(olds, t, e);
      ExactConserves(olds, t, key, v);
      ExactConserves(olds, t, e.0, e.1);
      ExtendedSnoc(olds, t, e, v);
      ExecSnoc(olds, t, e);
      Snoc(olds, t, e, key);
      ExactStep(olds, t, e, key, v);
    }
  }

  lemma {:induction false} NothingYet(olds: Contents, key: string)
    ensures Exec(olds, []) == Store(map[], olds) && Gathered(olds, [], key) == [] && First([], key) == None
  {
  }

  lemma {:induction false} ExactStep(olds: Contents, t: seq<Entry>, e: Entry, key: string, v: Value)
    requires Known(olds, t + [e]) && MayFollow(olds, t, e) && Exec(olds, t).heap.Keys == olds.Keys
    requires !Extended(olds, t, v) ==> ItemsIn(Exec(olds, t).heap, v) == ItemsIn(olds, v)
    requires !Extended(olds, t, e.1) ==> ItemsIn(Exec(olds, t).heap, e.1) == ItemsIn(olds, e.1)
    requires key in Exec(olds, t).slots ==> Reads(Exec(olds, t), Exec(olds, t).slots[key]) == Gathered(olds, t, key)
    ensures var r := Step(Exec(olds, t), e);
      && r.heap.Keys == olds.Keys
      && (!Extended(olds, t, v) && !ExtendsTo(olds, t + [e], |t|, v) ==> ItemsIn(r.heap, v) == ItemsIn(olds, v))
      && (key in r.slots ==> Reads(r, r.slots[key]) == Gathered(olds, t, key) + if e.0 == key then ItemsIn(olds, e.1) else [])
  {
    hide Extended, Extends, Gathered, Exec, First, Count;
    var s := Exec(olds, t);
    KnownPrefix(olds, t, e);
    Slots(olds, t, e.0);
    Slots(olds, t, key);
    ExtendsLast(olds, t, e);
    TargetsAreLists(olds, t, e.1);
    FirstGathered(olds, t, key);
  }

  lemma {:induction false} KnownPrefix(olds: Contents, t: seq<Entry>, e: Entry)
    requires Known(olds, t + [e])
    ensures Known(olds, t) && (e.1.ListOf? ==> e.1.list in olds)
  {
    assert (t + [e])[|t|] == e;
    assert forall i | 0 <= i < |t| :: (t + [e])[i] == t[i];
  }

  lemma {:induction false} FirstGathered(olds: Contents, t: seq<Entry>, key: string)
    ensures First(t, key).None? ==> Gathered(olds, t, key) == []
    decreases |t|
  {
    if t != [] { FirstGathered(olds, t[..|t| - 1], key); }
  }

  // ---------------------------------------------------------------- the condition is needed

  /** Does the key read as more than the values it was given? */
  predicate Longer(olds: Contents, es: seq<Entry>, key: string) {
    var s := Exec(olds, es);
    key in s.slots && |Reads(s, s.slots[key])| > |Gathered(olds, es, key)|
  }

  /** Nothing ever shrinks, and a list that was extended has grown. */
  lemma {:induction false} Grown(olds: Contents, es: seq<Entry>, key: string, v: Value)
    requires Known(olds, es)
    ensures Exec(olds, es).heap.Keys == olds.Keys
    ensures |ItemsIn(Exec(olds, es).heap, v)| >= |ItemsIn(olds, v)| + if Extended(olds, es, v) then 1 else 0
    ensures key in Exec(olds, es).slots ==> |Reads(Exec(olds, es), Exec(olds, es).slots[key])| >= |Gathered(olds, es, key)|
    decreases |es|
  {
    hide Extended, Extends, Target, First, Count, Gathered, Exec;
    if es == [] {
      NothingYet(olds, key);
      NotExtendedYet(olds, v);
    } else {
      var n := |es| - 1;
      var t, e := es[..n], es[n];
      assert es == t + [e];
      KnownPrefix(olds, t, e);
      Grown(olds, t, key, v);
      Grown(olds, t, e.0, e.1);
      ExtendedSnoc(olds, t, e, v);
      ExecSnoc(olds, t, e);
      Snoc(olds, t, e, key);
      Slots(olds, t, e.0);
      Slots(olds, t, key);
      ExtendsLast(olds, t, e);
      FirstGathered(olds, t, key);
    }
  }

  lemma {:induction false} NotExtendedYet(olds: Contents, v: Value)
    ensures !Extended(olds, [], v)
  {
  }

  /** A key that reads as too much goes on doing so. */
  lemma {:induction false} LongerStays(olds: Contents, t: seq<Entry>, e: Entry, key: string)
    requires Known(olds, t + [e]) && Longer(olds, t, key)
    ensures Longer(olds, t + [e], key)
  {
    hide Extended, Extends, Target, First, Count, Gathered, Exec;
    KnownPrefix(olds, t, e);
    Grown(olds, t, e.0, e.1);
    ExecSnoc(olds, t, e);
    Snoc(olds, t, e, key);
    Slots(olds, t, e.0);
    Slots(olds, t, key);
  }

  /** An entry that reads a list that was extended makes its key read as too much. */
  lemma {:induction false} ReadingExtended(olds: Contents, t: seq<Entry>, e: Entry)
    requires Known(olds, t + [e]) && Extended(olds, t, e.1)
    ensures Longer(olds, t + [e], e.0)
  {
    hide Extended, Extends, Target, First, Count, Gathered, Exec;
    KnownPrefix(olds, t, e);
    Grown(olds, t, e.0, e.1);
    ExecSnoc(olds, t, e);
    Snoc(olds, t, e, e.0);
    Slots(olds, t, e.0);
    FirstGathered(olds, t, e.0);
    TargetsAreLists(olds, t, e.1);
  }

  /** An entry that extends a list another key has makes that key read as too much. */
  lemma {:induction false} ExtendingShared(olds: Contents, t: seq<Entry>, e: Entry, key: string)
    requires Known(olds, t + [e]) && Extends(olds, t + [e], |t|) && key != e.0 && First(t, key) == First(t, e.0)
    ensures Longer(olds, t + [e], key)
  {
    hide Extended, Extends, Target, First, Count, Gathered, Exec;
    KnownPrefix(olds, t, e);
    ExtendsLast(olds, t, e);
    Grown(olds, t, e.0, e.1);
    Grown(olds, t, key, e.1);
    ExecSnoc(olds, t, e);
    Snoc(olds, t, e, key);
    Slots(olds, t, e.0);
    Slots(olds, t, key);
  }

  lemma {:induction false} InexactLonger(olds: Contents, es: seq<Entry>) returns (key: string)
    requires Known(olds, es) && !Exact(olds, es)
    ensures Longer(olds, es, key)
    decreases |es|
  {
    hide Extends, Longer, Exact, Extended, OnlyKeyOf, First;
    if es == [] {
      NothingToExtend(olds);
      assert false;
    } else {
      var n := |es| - 1;
      var t, e := es[..n], es[n];
      assert es == t + [e];
      KnownPrefix(olds, t, e);
      ExactSnoc(olds, t, e);
      if !Exact(olds, t) {
        key := InexactLonger(olds, t);
        LongerStays(olds, t, e, key);
      } else if e.1.ListOf? && Extended(olds, t, e.1) {
        key := e.0;
        ReadingExtended(olds, t, e);
      } else {
        key := OtherKey(olds, t, e);
        ExtendingShared(olds, t, e, key);
      }
    }
  }

  lemma {:induction false} OtherKey(olds: Contents, t: seq<Entry>, e: Entry) returns (key: string)
    requires Extends(olds, t + [e], |t|) && !OnlyKeyOf(t, e.0, First(t, e.0).value)
    ensures key != e.0 && First(t, key) == First(t, e.0)
  {
    hide First, Extends;
    ExtendsLast(olds, t, e);
    key :| key != e.0 && First(t, key) == Some(First(t, e.0).value);
  }

  lemma {:induction false} NothingToExtend(olds: Contents)
    ensures Exact(olds, [])
  {
  }

  /** The result of the loop is, key by key, the concatenation of the values exactly under the condition. */
  lemma {:induction false} ConservesExactly(olds: Contents, es: seq<Entry>)
    requires Known(olds, es)
    ensures Conserves(olds, es) <==> Exact(olds, es)
  {
    hide Exact, Exec, Gathered;
    if Exact(olds, es) {
      forall key | key in Exec(olds, es).slots
        ensures Reads(Exec(olds, es), Exec(olds, es).slots[key]) == Gathered(olds, es, key)
      {
        ExactConserves(olds, es, key, Atom(""));
      }
    } else {
      var key := InexactLonger(olds, es);
    }
  }

  // ---------------------------------------------------------------- two simple cases

  /** The value occurs at no two entries. */
  predicate AtMostOnce(es: seq<Entry>, v: Value) { forall i, j | 0 <= i < j < |es| :: es[i].1 != v || es[j].1 != v }

  /** A list that is the first value of a key that recurs occurs nowhere else. */
  ghost predicate FirstsUnshared(es: seq<Entry>) { forall key :: KeyUnshared(es, key) }

  predicate KeyUnshared(es: seq<Entry>, key: string) {
    Count(es, key) >= 2 && First(es, key).Some? && First(es, key).value.ListOf? ==> AtMostOnce(es, First(es, key).value)
  }

  lemma {:induction false} FirstIsIn(es: seq<Entry>, key: string)
    ensures First(es, key).Some? <==> Count(es, key) > 0
    ensures First(es, key).Some? ==> exists i | 0 <= i < |es| :: es[i] == (key, First(es, key).value)
    decreases |es|
  {
    if es != [] {
      var t := es[..|es| - 1];
      FirstIsIn(t, key);
      if First(t, key).Some? {
        var i :| 0 <= i < |t| && t[i] == (key, First(t, key).value);
        assert es[i] == t[i];
      }
    }
  }

  lemma {:induction false} CountPrefix(es: seq<Entry>, n: nat, key: string)
    requires n <= |es|
    ensures Count(es[..n], key) <= Count(es, key)
    ensures First(es[..n], key).Some? ==> First(es, key) == First(es[..n], key)
    decreases |es|
  {
    if n == |es| {
      assert es[..n] == es;
    } else {
      var t := es[..|es| - 1];
      assert t[..n] == es[..n];
      CountPrefix(t, n, key);
    }
  }

  lemma {:induction false} SamePlace(es: seq<Entry>, v: Value, i: nat, j: nat)
    requires AtMostOnce(es, v) && i < |es| && j < |es| && es[i].1 == v && es[j].1 == v
    ensures i == j
  {
  }

  /** The condition holds when no list that may be extended is shared. */
  lemma {:induction false} UnsharedIsExact(olds: Contents, es: seq<Entry>)
    requires FirstsUnshared(es)
    ensures Exact(olds, es)
  {
    hide First, Count, AtMostOnce, FirstsUnshared;
    forall p | 0 <= p < |es| && Extends(olds, es, p) ensures Unread(olds, es, p) {
      var key, v := es[p].0, Target(olds, es, p);
      var i := OnceOnly(olds, es, p);
      forall q | p < q < |es| ensures es[q].1 != v { if es[q].1 == v { SamePlace(es, v, i, q); } }
      forall k | First(es, k) == Some(v) ensures k == key {
        FirstIsIn(es, k);
        var j :| 0 <= j < |es| && es[j] == (k, v);
        SamePlace(es, v, i, j);
      }
    }
  }

  lemma {:induction false} OnceOnly(olds: Contents, es: seq<Entry>, p: nat) returns (i: nat)
    requires FirstsUnshared(es) && p < |es| && Extends(olds, es, p)
    ensures i < p && es[i] == (es[p].0, Target(olds, es, p)) && AtMostOnce(es, Target(olds, es, p))
  {
    hide First, Count, AtMostOnce;
    var key, v := es[p].0, Target(olds, es, p);
    FirstIsIn(es[..p], key);
    i :| 0 <= i < |es[..p]| && es[..p][i] == (key, v);
    CountPrefix(es, p, key);
    CountPrefix(es, p + 1, key);
    assert es[..p + 1] == es[..p] + [es[p]];
    Snoc(olds, es[..p], es[p], key);
    assert KeyUnshared(es, key);
  }

  function Repeated(key: string, l: PyList, n: nat): seq<Entry> { seq(n, i => (key, ListOf(l))) }

  /** One dictionary of one list given n times, as when a query names one reference several times: right exactly for
      two of them, or when the list is empty. */
  lemma {:induction false} RepeatedExactly(olds: Contents, key: string, l: PyList, n: nat)
    requires l in olds
    ensures Conserves(olds, Repeated(key, l, n)) <==> n <= 2 || olds[l] == []
  {
    var es := Repeated(key, l, n);
    ConservesExactly(olds, es);
    hide Exec, Count, Conserves, First;
    forall p | 1 <= p < n ensures First(es[..p], key) == Some(ListOf(l)) { RepeatedFirst(key, l, n, p); }
    if n > 2 && olds[l] != [] {
      assert Extends(olds, es, 1) && es[2].1 == ListOf(l);
      assert !Unread(olds, es, 1);
    } else {
      forall p | 0 <= p < n && Extends(olds, es, p) ensures Unread(olds, es, p) {
        RepeatedUnread(olds, key, l, n, p);
      }
    }
  }

  lemma {:induction false} RepeatedFirst(key: string, l: PyList, n: nat, p: nat)
    requires 1 <= p <= n
    ensures First(Repeated(key, l, n)[..p], key) == Some(ListOf(l))
    ensures forall k | k != key :: First(Repeated(key, l, n)[..p], k) == None
    decreases p
  {
    var es := Repeated(key, l, n);
    assert es[..p][..p - 1] == es[..p - 1];
    if p > 1 { RepeatedFirst(key, l, n, p - 1); }
  }

  lemma {:induction false} RepeatedUnread(olds: Contents, key: string, l: PyList, n: nat, p: nat)
    requires p < n && (n <= 2 || (l in olds && olds[l] == [])) && Extends(olds, Repeated(key, l, n), p)
    ensures Unread(olds, Repeated(key, l, n), p)
  {
    var es := Repeated(key, l, n);
    RepeatedFirst(key, l, n, n);
    assert es[..n] == es;
    ExtendsLater(olds, es, p);
    RepeatedFirst(key, l, n, p);
  }

  lemma {:induction false} ExtendsLater(olds: Contents, es: seq<Entry>, p: nat)
    requires p < |es| && Extends(olds, es, p)
    ensures p > 0
  {
  }

  function Copies(items: seq<Value>, n: nat): seq<Value> { if n == 0 then [] else Copies(items, n - 1) + items }

  function PowerOfTwo(n: nat): nat { if n == 0 then 1 else 2 * PowerOfTwo(n - 1) }

  /** What the loop makes of n+1 of them: the list is extended by itself, and doubles. */
  lemma {:induction false} RepeatedDoubles(olds: Contents, key: string, l: PyList, n: nat)
    requires l in olds
    ensures Exec(olds, Repeated(key, l, n + 1)) == Store(map[key := Input(l)], olds[l := Copies(olds[l], PowerOfTwo(n))])
  {
    hide Exec, Copies, PowerOfTwo;
    var e := (key, ListOf(l));
    assert Repeated(key, l, n + 1) == Repeated(key, l, n) + [e];
    ExecSnoc(olds, Repeated(key, l, n), e);
    if n == 0 {
      NothingYet(olds, key);
      OneCopy(olds[l]);
      assert olds[l := olds[l]] == olds;
    } else {
      RepeatedDoubles(olds, key, l, n - 1);
      Doubled(olds[l], n - 1);
    }
  }

  lemma {:induction false} OneCopy(items: seq<Value>)
    ensures Copies(items, PowerOfTwo(0)) == items
  {
    assert Copies(items, 0) + items == items;
  }

  lemma {:induction false} Doubled(items: seq<Value>, i: nat)
    ensures Copies(items, PowerOfTwo(i)) + Copies(items, PowerOfTwo(i)) == Copies(items, PowerOfTwo(i + 1))
  {
    CopiesConcat(items, PowerOfTwo(i), PowerOfTwo(i));
  }

  lemma {:induction false} CopiesConcat(items: seq<Value>, a: nat, b: nat)
    ensures Copies(items, a) + Copies(items, b) == Copies(items, a + b)
    decreases b
  {
    if b > 0 { CopiesConcat(items, a, b - 1); }
  }
}
