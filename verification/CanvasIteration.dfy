/** An iteration whose body is a single chain computes a map over its list.

    The scheduler knows nothing of loops: it appends an item, the item's successor, and so on, and the item
    advances a counter.  The reference below is the plain loop: for every element, bind item and index, run
    the chain once, append the wanted outputs.  The theorem says the two agree. */
module CanvasIteration {
  import opened Options
  import opened CanvasModel

  /** `chain` is the whole body of iteration `it`, whose item is `im`. */
  predicate ChainBody(g: Graph, it: Id, im: Id, chain: seq<Id>) {
    && it in g.comps && im in g.comps && it != im && it !in chain && im !in chain && chain != []
    && g.comps[it].kind.Iteration? && g.comps[im].kind.IterationItem?
    && GetStart(g, it) == Some(im) && g.comps[im].parent == Some(it) && g.comps[im].downstream == [chain[0]]
    && (forall i, j | 0 <= i < j < |chain| :: chain[i] != chain[j])
    && (forall j | 0 <= j < |chain| :: InBody(g, it, chain, j))
    && (forall id | id in g.order :: Comp(g, id).parent == Some(it) ==> id == im || id in chain)
  }

  predicate IsBodyKind(k: Kind) { k.Other? || k.Message? }

  predicate InBody(g: Graph, it: Id, chain: seq<Id>, j: nat)
    requires j < |chain|
  {
    && chain[j] in g.comps && IsBodyKind(g.comps[chain[j]].kind) && g.comps[chain[j]].parent == Some(it)
    && g.comps[chain[j]].downstream == if j + 1 < |chain| then [chain[j + 1]] else []
  }

  /** The iteration's collected outputs refer to distinct keys and to members of the body, and its list to
      something outside. */
  predicate Collectable(g: Graph, it: Id, im: Id, chain: seq<Id>) {
    var c := Comp(g, it);
    && (forall i, j | 0 <= i < j < |c.collects| :: c.collects[i].key != c.collects[j].key)
    && (forall x | x in c.collects :: x.ref.cid in chain && x.ref.cid in g.order)
    && (forall i, j | 0 <= i < j < |g.order| :: g.order[i] != g.order[j])
    && c.itemsRef.cid !in chain + [it, im]
  }

  /** The outputs of every component outside `ids` are the same. */
  ghost predicate SameOutside(a: Outs, b: Outs, ids: seq<Id>) {
    forall x | x !in ids :: (x in a <==> x in b) && (x in a ==> a[x] == b[x])
  }

  /** Everything the item and the body refer to lies on the path when their turn comes. */
  predicate InputsReady(g: Graph, before: seq<Id>, it: Id, im: Id, chain: seq<Id>) {
    && (forall r | r in Comp(g, it).refs :: r in before)
    && (forall r | r in Comp(g, im).refs :: r in before + [it])
    && (forall j | 0 <= j < |chain| :: forall r | r in Comp(g, chain[j]).refs :: r in before + [it, im] + chain[..j])
  }

  // ---------------------------------------------------------------- the reference loop

  function Offer(outs: Outs, im: Id, v: Value, k: int): Outs {
    SetOutput(SetOutput(outs, im, "item", v), im, "index", Num(k))
  }

  /** One visit of a body component: its invocation, and for a message the reading of its stream. */
  function Visit(g: Graph, w: World, id: Id, clock: nat, outs: Outs): (Outs, nat) {
    var o := Perform(g, w, clock, id, outs);
    if Comp(g, id).kind.Message? && Streaming(o, id) then
      var (drained, text) := w.drain(clock + 1, id, o);
      (SetOutput(drained, id, "content", Str(text)), clock + 2)
    else (o, clock + 1)
  }

  /** One pass of the chain: the outputs and the clock after it. */
  function Pass(g: Graph, w: World, chain: seq<Id>, clock: nat, outs: Outs): (Outs, nat)
    decreases |chain|
  {
    if chain == [] then (outs, clock)
    else
      var (o, next) := Visit(g, w, chain[0], clock, outs);
      Pass(g, w, chain[1..], next, o)
  }

  /** In this pass every component writes its own outputs only and does not fail, and nobody cancels. */
  ghost predicate PassRuns(g: Graph, w: World, chain: seq<Id>, clock: nat, outs: Outs)
    decreases |chain|
  {
    chain != [] ==>
      var (o, next) := Visit(g, w, chain[0], clock, outs);
      !w.canceled(clock) && SameOutside(outs, o, [chain[0]]) && !Failed(o, chain[0]) && PassRuns(g, w, chain[1..], next, o)
  }

  /** An iteration about to start: its list, and the clock and outputs at the first visit of the item. */
  datatype Setting = Setting(g: Graph, w: World, it: Id, im: Id, chain: seq<Id>, arr: seq<Value>, clock: nat, outs: Outs)

  /** The clock at the item's visit after k passes. */
  function ItemClock(c: Setting, k: nat): nat
    requires k <= |c.arr|
    decreases k, 0
  {
    if k == 0 then c.clock else PassEnd(c, k - 1).1
  }

  /** The outputs after k passes, each collected. */
  function Collected(c: Setting, k: nat): Outs
    requires k <= |c.arr|
    decreases k, 1
  {
    if k == 0 then c.outs else Collate(AfterPass(c, k - 1), c.it, Targets(c.g, c.it, c.g.order)).0
  }

  /** The outputs pass k begins with. */
  function Offered(c: Setting, k: nat): Outs
    requires k < |c.arr|
    decreases k, 2
  {
    Offer(Collected(c, k), c.im, c.arr[k], k)
  }

  function PassEnd(c: Setting, k: nat): (Outs, nat)
    requires k < |c.arr|
    decreases k, 3
  {
    Pass(c.g, c.w, c.chain, ItemClock(c, k) + 4, Offered(c, k))
  }

  /** The outputs at the end of pass k, before they are collected. */
  function AfterPass(c: Setting, k: nat): Outs
    requires k < |c.arr|
    decreases k, 4
  {
    PassEnd(c, k).0
  }

  /** The scheduler and the item, wherever it looks for a cancellation at turn k, find none. */
  predicate Undisturbed(c: Setting, k: nat)
    requires k <= |c.arr|
  {
    var t := ItemClock(c, k);
    && !c.w.canceled(t) && !c.w.canceled(t + 1)
    && (k > 0 ==> !c.w.canceled(t + 2)) && (k < |c.arr| ==> !c.w.canceled(t + 3))
  }

  /** The body runs quietly in every state the passes reach. */
  ghost predicate QuietBody(c: Setting) {
    && (forall k | 0 <= k < |c.arr| :: PassRuns(c.g, c.w, c.chain, ItemClock(c, k) + 4, Offered(c, k)))
    && (forall k | 0 <= k <= |c.arr| :: Undisturbed(c, k))
  }

  /** The batches k passes take: one for the item and one for each of the m body components, every time. */
  function Visits(k: nat, m: nat): nat { if k == 0 then 0 else Visits(k - 1, m) + m + 1 }

  lemma {:induction false} VisitsClosedForm(k: nat, m: nat)
    ensures Visits(k, m) == k * (m + 1)
  {
    if k > 0 {
      VisitsClosedForm(k - 1, m);
      assert k * (m + 1) == (k - 1) * (m + 1) + (m + 1);
    }
  }

  /** What the passes leave in the output `r`, in order. */
  function Results(c: Setting, r: Ref, k: nat): (vs: seq<Value>)
    requires k <= |c.arr|
    ensures |vs| == k && forall i | 0 <= i < k :: vs[i] == Output(AfterPass(c, i), r.cid, r.name)
  {
    if k == 0 then [] else Results(c, r, k - 1) + [Output(AfterPass(c, k - 1), r.cid, r.name)]
  }

  // ---------------------------------------------------------------- collation

  predicate Appendable(outs: Outs, pid: Id, ts: seq<Collect>) {
    forall t | t in ts :: Output(outs, pid, t.key).Truthy() ==> Output(outs, pid, t.key).List?
  }

  predicate DistinctKeys(ts: seq<Collect>) { forall i, j | 0 <= i < j < |ts| :: ts[i].key != ts[j].key }

  function ItemsOf(v: Value): seq<Value> { if v.List? then v.items else [] }

  function Appended(outs: Outs, pid: Id, t: Collect): Outs {
    SetOutput(outs, pid, t.key, List(ItemsOf(Output(outs, pid, t.key)) + [Output(outs, t.ref.cid, t.ref.name)]))
  }

  lemma {:induction false} CollateStep(outs: Outs, pid: Id, ts: seq<Collect>)
    requires ts != [] && Appendable(outs, pid, ts) && DistinctKeys(ts)
    ensures Collate(outs, pid, ts) == Collate(Appended(outs, pid, ts[0]), pid, ts[1..])
    ensures Appendable(Appended(outs, pid, ts[0]), pid, ts[1..]) && DistinctKeys(ts[1..])
    ensures forall t | t in ts[1..] :: t.key != ts[0].key
  {
    assert ts[0] in ts;
    forall t | t in ts[1..] ensures t in ts && t.key != ts[0].key {
      var j :| 0 <= j < |ts[1..]| && ts[1..][j] == t;
      assert ts[j + 1] == t;
    }
  }

  lemma {:induction false} CollateElsewhere(outs: Outs, pid: Id, ts: seq<Collect>, key: string)
    requires Appendable(outs, pid, ts) && DistinctKeys(ts)
    ensures Collate(outs, pid, ts).1 && SameOutside(outs, Collate(outs, pid, ts).0, [pid])
    ensures (forall t | t in ts :: t.key != key) ==> Output(Collate(outs, pid, ts).0, pid, key) == Output(outs, pid, key)
    decreases |ts|
  {
    if ts != [] {
      CollateStep(outs, pid, ts);
      assert ts == [ts[0]] + ts[1..];
      CollateElsewhere(Appended(outs, pid, ts[0]), pid, ts[1..], key);
    }
  }

  /** Collation goes through exactly when every output it appends to is empty or a list. */
  lemma {:induction false} CollateSucceeds(outs: Outs, pid: Id, ts: seq<Collect>)
    requires DistinctKeys(ts)
    ensures Collate(outs, pid, ts).1 <==> Appendable(outs, pid, ts)
    decreases |ts|
  {
    if ts != [] {
      var x, rest := ts[0], ts[1..];
      assert ts == [x] + rest;
      assert DistinctKeys(rest) by {
        forall i, j | 0 <= i < j < |rest| ensures rest[i].key != rest[j].key { assert ts[i + 1].key != ts[j + 1].key; }
      }
      forall t | t in rest ensures Output(Appended(outs, pid, x), pid, t.key) == Output(outs, pid, t.key) {
        var j :| 0 <= j < |rest| && rest[j] == t;
        assert ts[0].key != ts[j + 1].key;
      }
      hide Appended;
      CollateSucceeds(Appended(outs, pid, x), pid, rest);
      assert Appendable(Appended(outs, pid, x), pid, rest) <==> Appendable(outs, pid, rest);
      CollateHead(outs, pid, ts);
    }
  }

  lemma {:induction false} CollateHead(outs: Outs, pid: Id, ts: seq<Collect>)
    requires ts != []
    ensures var v := Output(outs, pid, ts[0].key);
      Collate(outs, pid, ts) == if v.Truthy() && !v.List? then (outs, false) else Collate(Appended(outs, pid, ts[0]), pid, ts[1..])
  {
  }

  lemma {:induction false} AppendedReads(outs: Outs, pid: Id, x: Collect, t: Collect)
    requires t.ref.cid != pid
    ensures var r := Appended(outs, pid, x);
      && Output(r, pid, x.key) == List(ItemsOf(Output(outs, pid, x.key)) + [Output(outs, x.ref.cid, x.ref.name)])
      && (t.key != x.key ==> Output(r, pid, t.key) == Output(outs, pid, t.key))
      && Output(r, t.ref.cid, t.ref.name) == Output(outs, t.ref.cid, t.ref.name)
  {
  }

  /** Collation appends the value of every target to its output. */
  lemma {:induction false} CollateAppends(outs: Outs, pid: Id, ts: seq<Collect>, t: Collect)
    requires Appendable(outs, pid, ts) && DistinctKeys(ts) && t in ts && t.ref.cid != pid
    ensures Output(Collate(outs, pid, ts).0, pid, t.key) ==
            List(ItemsOf(Output(outs, pid, t.key)) + [Output(outs, t.ref.cid, t.ref.name)])
    decreases |ts|
  {
    hide Appended, ItemsOf, Collate, Appendable;
    CollateStep(outs, pid, ts);
    AppendedReads(outs, pid, ts[0], t);
    assert ts == [ts[0]] + ts[1..];
    if t == ts[0] {
      CollateElsewhere(Appended(outs, pid, t), pid, ts[1..], t.key);
    } else {
      CollateAppends(Appended(outs, pid, ts[0]), pid, ts[1..], t);
    }
  }

  lemma {:induction false} TargetsOfMember(cs: seq<Collect>, cid: Id, x: Collect)
    ensures x in TargetsOf(cs, cid) <==> x in cs && x.ref.cid == cid
    decreases |cs|
  {
    if cs != [] {
      assert cs == [cs[0]] + cs[1..];
      TargetsOfMember(cs[1..], cid, x);
    }
  }

  lemma {:induction false} TargetsMember(g: Graph, pid: Id, order: seq<Id>, x: Collect)
    ensures x in Targets(g, pid, order) <==>
            x in Comp(g, pid).collects && x.ref.cid in order && Comp(g, x.ref.cid).parent == Some(pid)
    decreases |order|
  {
    if order != [] {
      assert order == [order[0]] + order[1..];
      TargetsOfMember(Comp(g, pid).collects, order[0], x);
      TargetsMember(g, pid, order[1..], x);
    }
  }

  lemma {:induction false} TargetsOfDistinct(cs: seq<Collect>, cid: Id)
    requires DistinctKeys(cs)
    ensures DistinctKeys(TargetsOf(cs, cid))
    decreases |cs|
  {
    if cs != [] {
      TargetsOfDistinct(cs[1..], cid);
      var rest := TargetsOf(cs[1..], cid);
      forall i | 0 <= i < |rest| ensures rest[i].key != cs[0].key {
        TargetsOfMember(cs[1..], cid, rest[i]);
        var j :| 0 <= j < |cs[1..]| && cs[1..][j] == rest[i];
        assert cs[j + 1] == rest[i];
      }
    }
  }

  lemma {:induction false} KeyDetermines(cs: seq<Collect>, x: Collect, y: Collect)
    requires DistinctKeys(cs) && x in cs && y in cs && x.key == y.key
    ensures x == y
  {
    var i :| 0 <= i < |cs| && cs[i] == x;
    var j :| 0 <= j < |cs| && cs[j] == y;
  }

  lemma {:induction false} TargetsDistinct(g: Graph, pid: Id, order: seq<Id>)
    requires DistinctKeys(Comp(g, pid).collects) && forall i, j | 0 <= i < j < |order| :: order[i] != order[j]
    ensures DistinctKeys(Targets(g, pid, order))
    decreases |order|
  {
    if order != [] {
      var cs := Comp(g, pid).collects;
      TargetsOfDistinct(cs, order[0]);
      TargetsDistinct(g, pid, order[1..]);
      var a := if Comp(g, order[0]).parent == Some(pid) then TargetsOf(cs, order[0]) else [];
      var b := Targets(g, pid, order[1..]);
      forall i, j | 0 <= i < |a| && 0 <= j < |b| ensures a[i].key != b[j].key {
        TargetsOfMember(cs, order[0], a[i]);
        TargetsMember(g, pid, order[1..], b[j]);
        if a[i].key == b[j].key { KeyDetermines(cs, a[i], b[j]); }
      }
    }
  }

  // ---------------------------------------------------------------- what the reference loop leaves

  lemma {:induction false} PassOutside(g: Graph, w: World, chain: seq<Id>, clock: nat, outs: Outs)
    requires PassRuns(g, w, chain, clock, outs)
    ensures SameOutside(outs, Pass(g, w, chain, clock, outs).0, chain)
    decreases |chain|
  {
    hide Visit, Failed;
    if chain != [] {
      assert chain == [chain[0]] + chain[1..];
      var (o, next) := Visit(g, w, chain[0], clock, outs);
      assert SameOutside(outs, o, [chain[0]]);
      PassOutside(g, w, chain[1..], next, o);
    }
  }

  /** The premises of the theorem. */
  ghost predicate Applies(c: Setting) {
    && ChainBody(c.g, c.it, c.im, c.chain) && Collectable(c.g, c.it, c.im, c.chain) && QuietBody(c)
    && (forall x | x in Comp(c.g, c.it).collects :: !Output(c.outs, c.it, x.key).Truthy())
    && Resolve(c.g, c.outs, Comp(c.g, c.it).itemsRef) == Some(List(c.arr))
    && !Failed(c.outs, c.im)
  }

  /** What an iteration collects are all its declared outputs, each once. */
  lemma {:induction false} TargetsAll(g: Graph, it: Id, im: Id, chain: seq<Id>)
    requires ChainBody(g, it, im, chain) && Collectable(g, it, im, chain)
    ensures var ts := Targets(g, it, g.order);
      DistinctKeys(ts) && forall x :: x in ts <==> x in Comp(g, it).collects
  {
    hide Targets, GetStart;
    TargetsDistinct(g, it, g.order);
    forall x ensures x in Targets(g, it, g.order) <==> x in Comp(g, it).collects {
      TargetsMember(g, it, g.order, x);
      if x in Comp(g, it).collects {
        var j :| 0 <= j < |chain| && chain[j] == x.ref.cid;
        assert InBody(g, it, chain, j);
      }
    }
  }

  /** What holds of the outputs throughout: the list is still there, the item has not failed, and the
      collected outputs hold the results of the passes so far. */
  ghost predicate Intact(c: Setting, outs: Outs, k: nat)
    requires k <= |c.arr|
  {
    && SameOutside(c.outs, outs, c.chain + [c.it, c.im])
    && !Failed(outs, c.im)
    && (forall x | x in Comp(c.g, c.it).collects ::
          if k == 0 then !Output(outs, c.it, x.key).Truthy()
          else Output(outs, c.it, x.key) == List(Results(c, x.ref, k)))
  }

  lemma {:induction false} IntactList(c: Setting, outs: Outs, k: nat)
    requires Applies(c) && k <= |c.arr| && Intact(c, outs, k)
    ensures Resolve(c.g, outs, Comp(c.g, c.it).itemsRef) == Some(List(c.arr))
  {
  }

  lemma {:induction false} IntactAppendable(c: Setting, outs: Outs, k: nat)
    requires Applies(c) && k <= |c.arr| && Intact(c, outs, k)
    ensures var ts := Targets(c.g, c.it, c.g.order);
      && Appendable(outs, c.it, ts) && DistinctKeys(ts)
      && (forall x :: x in ts <==> x in Comp(c.g, c.it).collects)
  {
    hide Results, QuietBody, Resolve, Targets, ChainBody, Collectable;
    TargetsAll(c.g, c.it, c.im, c.chain);
  }

  lemma {:induction false} PassIntact(c: Setting, k: nat)
    requires Applies(c) && k < |c.arr| && Intact(c, Collected(c, k), k)
    ensures Intact(c, AfterPass(c, k), k)
  {
    hide Applies, Intact, Collected, Offer, Pass, PassRuns;
    OfferIntact(c, Collected(c, k), k);
    PassOutside(c.g, c.w, c.chain, ItemClock(c, k) + 4, Offered(c, k)) by { Quiet(c, k); }
    Disjoint(c);
    assert Offered(c, k) == Offer(Collected(c, k), c.im, c.arr[k], k);
    assert AfterPass(c, k) == PassEnd(c, k).0 && PassEnd(c, k) == Pass(c.g, c.w, c.chain, ItemClock(c, k) + 4, Offered(c, k));
    ElsewhereIntact(c, Offered(c, k), AfterPass(c, k), k);
  }

  lemma {:induction false} Quiet(c: Setting, k: nat)
    requires Applies(c) && k <= |c.arr|
    ensures Undisturbed(c, k)
    ensures k < |c.arr| ==> PassRuns(c.g, c.w, c.chain, ItemClock(c, k) + 4, Offered(c, k))
  {
    hide ChainBody, Collectable, PassRuns, Resolve, Failed, ItemClock, Offered;
  }

  lemma {:induction false} OfferIntact(c: Setting, o: Outs, k: nat)
    requires Applies(c) && k < |c.arr| && Intact(c, o, k)
    ensures Intact(c, Offer(o, c.im, c.arr[k], k), k)
  {
    hide Applies, Results;
    Disjoint(c);
  }

  lemma {:induction false} ElsewhereIntact(c: Setting, o: Outs, r: Outs, k: nat)
    requires k <= |c.arr| && Intact(c, o, k) && SameOutside(o, r, c.chain) && c.it !in c.chain && c.im !in c.chain
    ensures Intact(c, r, k)
  {
    hide Results;
  }

  lemma {:induction false} Disjoint(c: Setting)
    requires Applies(c)
    ensures c.it !in c.chain && c.im !in c.chain && c.it != c.im
    ensures forall x | x in Comp(c.g, c.it).collects :: x.ref.cid != c.it
  {
  }

  lemma {:induction false} CollectIntact(c: Setting, k: nat)
    requires Applies(c) && k < |c.arr| && Intact(c, AfterPass(c, k), k)
    ensures Intact(c, Collected(c, k + 1), k + 1)
  {
    hide Resolve, Applies, Targets, AfterPass, Collate, Intact;
    var o := AfterPass(c, k);
    var ts := Targets(c.g, c.it, c.g.order);
    IntactAppendable(c, o, k);
    Disjoint(c);
    CollateElsewhere(o, c.it, ts, "");
    var r := Collate(o, c.it, ts).0;
    forall x | x in Comp(c.g, c.it).collects ensures Output(r, c.it, x.key) == List(Results(c, x.ref, k + 1)) {
      assert x in ts;
      CollateAppends(o, c.it, ts, x);
      HeldBefore(c, o, k, x);
    }
    MoreIntact(c, o, r, k);
  }

  lemma {:induction false} HeldBefore(c: Setting, outs: Outs, k: nat, x: Collect)
    requires k <= |c.arr| && Intact(c, outs, k) && x in Comp(c.g, c.it).collects
    ensures ItemsOf(Output(outs, c.it, x.key)) == Results(c, x.ref, k)
  {
    hide Results;
    if k == 0 { assert !Output(outs, c.it, x.key).Truthy(); }
  }

  lemma {:induction false} MoreIntact(c: Setting, o: Outs, r: Outs, k: nat)
    requires k < |c.arr| && Intact(c, o, k) && SameOutside(o, r, [c.it]) && c.it != c.im
    requires forall x | x in Comp(c.g, c.it).collects :: Output(r, c.it, x.key) == List(Results(c, x.ref, k + 1))
    ensures Intact(c, r, k + 1)
  {
    hide Results;
  }

  lemma {:induction false} ReferenceIntact(c: Setting, k: nat)
    requires Applies(c) && k <= |c.arr|
    ensures Intact(c, Collected(c, k), k)
    ensures k < |c.arr| ==> Intact(c, AfterPass(c, k), k)
    decreases k
  {
    hide Applies, Intact, AfterPass, Results;
    if k == 0 {
      StartIntact(c);
    } else {
      ReferenceIntact(c, k - 1);
      CollectIntact(c, k - 1);
    }
    if k < |c.arr| { PassIntact(c, k); }
  }

  lemma {:induction false} StartIntact(c: Setting)
    requires Applies(c)
    ensures Intact(c, Collected(c, 0), 0)
  {
  }
}
