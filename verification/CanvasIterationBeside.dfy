/** An iteration is a map also when other branches of the canvas are pending beside it.

    What the other branches do moves the clock and changes their own outputs, so there is no loop to compare with.  The
    theorem speaks of the run itself: which entry of the iteration is due at which batch, what it finds, and that the
    collected outputs end as the lists of what the body had left each time the item was due again. */
module CanvasIterationBeside {
  import opened Options
  import opened CanvasModel
  import opened CanvasInvariants
  import opened CanvasIteration
  import opened CanvasIterationRun
  import opened CanvasBranches

  /** An iteration, and the components of the branches beside it. */
  datatype Beside = Beside(g: Graph, w: World, it: Id, im: Id, chain: seq<Id>, arr: seq<Value>, others: set<Id>)

  function Members(c: Beside): set<Id> { {c.it, c.im} + set x | x in c.chain }

  /** What the other branches must leave alone: the iteration, and where its list comes from. */
  function Keep(c: Beside): set<Id> { Members(c) + {Comp(c.g, c.it).itemsRef.cid} }

  ghost predicate Apart(c: Beside, before: seq<Id>) {
    && Foreign(c.g, c.w, c.others, Keep(c)) && ChainBody(c.g, c.it, c.im, c.chain) && Collectable(c.g, c.it, c.im, c.chain)
    && before != [] && InputsReady(c.g, before, c.it, c.im, c.chain) && OwnOutputs(c.w, set x | x in c.chain)
  }

  /** The state after j batches. */
  ghost function After(c: Beside, s: State, j: nat): (r: State)
    requires s.idx <= |s.path|
    ensures r.idx <= |r.path|
  {
    if j == 0 then s
    else
      var t := Batch(c.g, c.w, After(c, s, j - 1));
      t.(idx := t.to)
  }

  /** Nothing stops the run at its j-th batch: it is not cancelled, ends without an error and asks for no input; and no
      member of the iteration has failed. */
  ghost predicate Fair(c: Beside, s: State, j: nat)
    requires s.idx <= |s.path|
  {
    var t := After(c, s, j + 1);
    && !c.w.canceled(After(c, s, j).clock) && t.error == "" && FillUps(c.g, t.path[t.idx..]) == []
    && forall x | x in Members(c) :: !Failed(t.outs, x)
  }

  /** The entry x of the iteration is pending, and everything else that is belongs to other branches. */
  ghost predicate Pending(c: Beside, u: State, x: Id)
    requires u.idx <= |u.path|
  {
    exists a, b :: AllIn(a, c.others) && AllIn(b, c.others) && u.path[u.idx..] == a + [x] + b
  }

  predicate Seen(u: State, have: seq<Id>)
    requires u.idx <= |u.path|
  {
    forall r | r in have :: r in u.path[..u.idx]
  }

  /** Between two batches, with x due. */
  ghost predicate Due(c: Beside, u: State, x: Id, have: seq<Id>) {
    && 0 < u.idx <= |u.path| && u.error == "" && NextOk(c.g, u.outs) && Pending(c, u, x) && Seen(u, have)
    && Resolve(c.g, u.outs, Comp(c.g, c.it).itemsRef) == Some(List(c.arr))
  }

  // ---------------------------------------------------------------- one batch with a member due

  lemma {:induction false} ResolveAgrees(g: Graph, a: Outs, b: Outs, r: Ref, keep: set<Id>)
    requires Agree(a, b, keep) && r.cid in keep
    ensures Resolve(g, a, r) == Resolve(g, b, r)
  {
  }

  /** What post-processing a member that does not fail does. */
  lemma {:induction false} MemberPost(g: Graph, w: World, s: State, i: nat, x: Id, ended: bool)
    requires i < |s.path| && s.path[i] == x && (IsBodyKind(Comp(g, x).kind) || Calm(Comp(g, x).kind))
    requires s.error == "" && PostOne(g, w, s, i).error == "" && !Failed(PostOne(g, w, s, i).outs, x)
    requires ended == (Comp(g, x).kind.IterationItem? && TurnOf(s.turn, x) == -1)
    ensures var r := PostOne(g, w, s, i);
      && r.outs == Spoken(g, w, s, x).outs && r.turn == s.turn
      && r.path == Extend(s.path, Successors(g, r, x, ended))
  {
    hide PostOne, Failed, Extend, Successors, Spoken;
    PostShape(g, w, s, i);
    NoMessage(g, w, s, x);
    if IsBodyKind(Comp(g, x).kind) {
      BodyPost(g, w, s, i);
    } else {
      CalmPost(g, w, s, i);
      SuccessorsOnlyOuts(g, s, PostOne(g, w, s, i), x, ended);
    }
  }

  lemma {:induction false} NoMessage(g: Graph, w: World, s: State, x: Id)
    ensures !Comp(g, x).kind.Message? ==> Spoken(g, w, s, x) == s
  {
  }

  /** The pending entries after a batch in which x handed on exactly one successor. */
  lemma {:induction false} NextPending(c: Beside, pa: State, px: State, t: State, x: Id, next: Id)
    requires pa.path != [] && t.to <= |pa.path| && px.path == Extend(pa.path, [next]) && px.path <= t.path
    requires (pa.path[|pa.path| - 1] == x || pa.path[|pa.path| - 1] in c.others) && next != x && next !in c.others
    requires AllIn(pa.path[t.to..], c.others) && AllIn(t.path[|px.path|..], c.others)
    ensures t.to <= |t.path| && Pending(c, t.(idx := t.to), next)
  {
    hide Extend, AllIn;
    ExtendOne(pa.path, next);
    assert px.path == pa.path + [next];
    var a, b := pa.path[t.to..], t.path[|px.path|..];
    RestOf(pa.path, next, t.path, t.to);
    assert AllIn(a, c.others) && AllIn(b, c.others);
  }

  lemma {:induction false} RestOf(p: seq<Id>, x: Id, q: seq<Id>, n: nat)
    requires n <= |p| && p + [x] <= q
    ensures q[n..] == p[n..] + [x] + q[|p| + 1..]
  {
    assert q == p + [x] + q[|p| + 1..];
  }

  /** One batch with a member due that hands on one successor: where the run stands then, and the states in which the
      member was invoked and post-processed. */
  lemma {:induction false} ThreadStep(c: Beside, before: seq<Id>, u: State, x: Id, have: seq<Id>, next: Id)
      returns (sa: State, pa: State, ix: nat)
    requires Apart(c, before) && Due(c, u, x, have) && (forall r | r in Comp(c.g, x).refs :: r in have)
    requires x in Members(c) && next in Members(c) && next != x
    requires forall s: State :: Successors(c.g, s, x, false) == [next]
    requires Batch(c.g, c.w, u).error == "" && !Failed(Batch(c.g, c.w, u).outs, x)
    ensures Around(c.g, c.w, c.others, Keep(c), u, x, sa, pa, ix)
    ensures var px := PostOne(c.g, c.w, pa, ix);
      && px.outs == Spoken(c.g, c.w, pa, x).outs && px.turn == pa.turn && !Failed(px.outs, x)
      && px.path == Extend(pa.path, Successors(c.g, px, x, Comp(c.g, x).kind.IterationItem? && TurnOf(pa.turn, x) == -1))
    ensures var t := Batch(c.g, c.w, u); var v := t.(idx := t.to);
      (Comp(c.g, x).kind.IterationItem? ==> TurnOf(pa.turn, x) != -1) ==>
        0 < v.idx <= |v.path| && v.error == "" && NextOk(c.g, v.outs) && Pending(c, v, next) && Seen(v, have + [x])
  {
    hide NextOk, Foreign, Failed, PostOne, Spoken, Kept, Batch, Invoke, Extend, Successors, ChainBody, Collectable, InputsReady, Resolve, AllIn;
    var a, b :| AllIn(a, c.others) && AllIn(b, c.others) && u.path[u.idx..] == a + [x] + b;
    sa, pa, ix := BesideBatch(c.g, c.w, c.others, Keep(c), u, a, x, b);
    var t, px := Batch(c.g, c.w, u), PostOne(c.g, c.w, pa, ix);
    MemberFacts(c, before, x);
    KeptFailed(px, t, Keep(c), x);
    var ended := Comp(c.g, x).kind.IterationItem? && TurnOf(pa.turn, x) == -1;
    MemberPost(c.g, c.w, pa, ix, x, ended);
    if !ended {
      assert px.path == Extend(pa.path, [next]);
      Disjoint(c, before, next);
      NextPending(c, pa, px, t, x, next);
      SeenMore(c, u, t, pa, x, ix, have);
    }
  }

  lemma {:induction false} Disjoint(c: Beside, before: seq<Id>, x: Id)
    requires Apart(c, before) && x in Members(c)
    ensures x !in c.others && x in Keep(c)
  {
  }

  lemma {:induction false} MemberFacts(c: Beside, before: seq<Id>, x: Id)
    requires Apart(c, before) && x in Members(c)
    ensures x in Keep(c) && (IsBodyKind(Comp(c.g, x).kind) || Calm(Comp(c.g, x).kind))
  {
    hide Foreign, Collectable, InputsReady, OwnOutputs, GetStart;
    if x in c.chain {
      var j :| 0 <= j < |c.chain| && c.chain[j] == x;
      assert InBody(c.g, c.it, c.chain, j);
    }
  }

  lemma {:induction false} KeptFailed(a: State, b: State, keep: set<Id>, x: Id)
    requires Kept(a, b, keep) && x in keep
    ensures Failed(a.outs, x) == Failed(b.outs, x)
  {
    AgreeOutput(a.outs, b.outs, keep, x);
  }

  lemma {:induction false} SeenMore(c: Beside, u: State, t: State, pa: State, x: Id, ix: nat, have: seq<Id>)
    requires u.idx <= |u.path| && Seen(u, have) && u.path[..u.idx] <= pa.path && u.idx <= ix < t.to <= |pa.path| && pa.path[ix] == x
    requires pa.path <= t.path
    ensures 0 < t.to <= |t.path| && Seen(t.(idx := t.to), have + [x])
  {
    forall r | r in have + [x] ensures r in t.path[..t.to] {
      if r in have {
        var i :| 0 <= i < u.idx && u.path[..u.idx][i] == r;
        assert t.path[..t.to][i] == r;
      } else {
        assert t.path[..t.to][ix] == r;
      }
    }
  }

  // ---------------------------------------------------------------- the iteration is due

  lemma {:induction false} NoticeFails(outs: Outs, id: Id)
    ensures Failed(Notice(outs, id), id)
  {
  }

  /** Invoked without failing, the iteration changes nothing. */
  lemma {:induction false} EntrySurvives(g: Graph, w: World, s: State, it: Id, arr: seq<Value>)
    requires Comp(g, it).kind.Iteration? && Resolve(g, s.outs, Comp(g, it).itemsRef) == Some(List(arr))
    requires !Failed(Invoke(g, w, s, it).outs, it)
    ensures Invoke(g, w, s, it).outs == s.outs && Invoke(g, w, s, it).turn == s.turn
  {
    hide Failed, Resolve, Notice, Raise;
    NoticeFails(s.outs, it);
  }

  lemma {:induction false} EnterStep(c: Beside, before: seq<Id>, u: State)
    requires Apart(c, before) && Due(c, u, c.it, before) && Batch(c.g, c.w, u).error == ""
    requires !Failed(Batch(c.g, c.w, u).outs, c.it)
    ensures var t := Batch(c.g, c.w, u); var v := t.(idx := t.to);
      Due(c, v, c.im, before + [c.it]) && Kept(u, v, Keep(c))
  {
    hide NextOk, Foreign, Failed, PostOne, Spoken, Kept, Batch, Invoke, Extend, Successors, ChainBody, Collectable, InputsReady, Resolve, AllIn, Pending;
    EntryKind(c, before);
    var sa, pa, ix := ThreadStep(c, before, u, c.it, before, c.im);
    var t, px := Batch(c.g, c.w, u), PostOne(c.g, c.w, pa, ix);
    var sx := Invoke(c.g, c.w, sa, c.it);
    Disjoint(c, before, c.it);
    NoMessage(c.g, c.w, pa, c.it);
    KeptFailed(sx, pa, Keep(c), c.it);
    KeptResolve(c, u, sa);
    EntrySurvives(c.g, c.w, sa, c.it, c.arr);
    SameKept(sa, sx, Keep(c));
    SameKept(pa, px, Keep(c));
    KeptFive(u, sa, sx, pa, px, t, Keep(c));
    SameKept(t, t.(idx := t.to), Keep(c));
    KeptTrans(u, t, t.(idx := t.to), Keep(c));
    KeptResolve(c, u, t.(idx := t.to));
  }

  lemma {:induction false} EntryKind(c: Beside, before: seq<Id>)
    requires Apart(c, before)
    ensures Comp(c.g, c.it).kind.Iteration? && c.it != c.im && c.im in Members(c) && c.it in Members(c)
    ensures forall r | r in Comp(c.g, c.it).refs :: r in before
    ensures forall s: State :: Successors(c.g, s, c.it, false) == [c.im]
  {
    hide Foreign, Collectable, OwnOutputs, GetStart;
  }

  lemma {:induction false} KeptResolve(c: Beside, a: State, b: State)
    requires Kept(a, b, Keep(c))
    ensures Resolve(c.g, a.outs, Comp(c.g, c.it).itemsRef) == Resolve(c.g, b.outs, Comp(c.g, c.it).itemsRef)
  {
    ResolveAgrees(c.g, a.outs, b.outs, Comp(c.g, c.it).itemsRef, Keep(c));
  }

  lemma {:induction false} KeptFive(a: State, b: State, c: State, d: State, e: State, f: State, keep: set<Id>)
    requires Kept(a, b, keep) && Kept(b, c, keep) && Kept(c, d, keep) && Kept(d, e, keep) && Kept(e, f, keep)
    ensures Kept(a, f, keep)
  {
    hide Kept;
    KeptTrans(a, b, c, keep);
    KeptTrans(a, c, d, keep);
    KeptTrans(a, d, e, keep);
    KeptTrans(a, e, f, keep);
  }

  // ---------------------------------------------------------------- a member of the body is due

  /** Invoked and spoken, a member of the body changes its own outputs only. */
  lemma {:induction false} BodyOwn(c: Beside, before: seq<Id>, sa: State, pa: State, x: Id)
    requires Apart(c, before) && x in c.chain && Kept(Invoke(c.g, c.w, sa, x), pa, Keep(c))
    ensures Agree(sa.outs, Spoken(c.g, c.w, pa, x).outs, Keep(c) - {x})
    ensures forall y | y in Keep(c) :: TurnOf(sa.turn, y) == TurnOf(pa.turn, y)
  {
    hide Foreign, ChainBody, Collectable, InputsReady, Raise, SetOutput, Streaming, Agree, Flush;
    var rest := Keep(c) - {x};
    MemberFacts(c, before, x);
    BodyKindOf(c, before, x);
    var (o, raised) := c.w.invoke(sa.clock, x, sa.outs);
    AgreeOwn(sa.outs, o, x, rest);
    if raised.Some? {
      RaiseAgrees(Comp(c.g, x), o, x, raised.value, rest);
      AgreeTrans(sa.outs, o, Raise(Comp(c.g, x), o, x, raised.value), rest);
    }
    var sx := Invoke(c.g, c.w, sa, x);
    AgreeLess(sx.outs, pa.outs, Keep(c), rest);
    AgreeTrans(sa.outs, sx.outs, pa.outs, rest);
    if Comp(c.g, x).kind.Message? {
      OwnSubset(c);
      assert Kept(pa, Speak(c.w, pa, x), rest) by { SpeakKeeps(c.w, pa, x, (set y | y in c.chain), rest); }
      AgreeTrans(sa.outs, pa.outs, Speak(c.w, pa, x).outs, rest);
    }
  }

  lemma {:induction false} OwnSubset(c: Beside)
    ensures (set x | x in c.chain) <= Members(c)
  {
  }

  lemma {:induction false} BodyKindOf(c: Beside, before: seq<Id>, x: Id)
    requires Apart(c, before) && x in c.chain
    ensures IsBodyKind(Comp(c.g, x).kind)
  {
    hide Foreign, Collectable, InputsReady, OwnOutputs, GetStart;
    var j :| 0 <= j < |c.chain| && c.chain[j] == x;
    assert InBody(c.g, c.it, c.chain, j);
  }

  lemma {:induction false} AgreeLess(a: Outs, b: Outs, keep: set<Id>, less: set<Id>)
    requires Agree(a, b, keep) && less <= keep
    ensures Agree(a, b, less)
  {
  }

  function Following(c: Beside, i: nat): Id
    requires i < |c.chain|
  {
    if i + 1 < |c.chain| then c.chain[i + 1] else c.im
  }

  lemma {:induction false} VisitStep(c: Beside, before: seq<Id>, u: State, i: nat)
    requires Apart(c, before) && i < |c.chain|
    requires Due(c, u, c.chain[i], before + [c.it, c.im] + c.chain[..i])
    requires Batch(c.g, c.w, u).error == "" && !Failed(Batch(c.g, c.w, u).outs, c.chain[i])
    ensures var t := Batch(c.g, c.w, u); var v := t.(idx := t.to);
      && Due(c, v, Following(c, i), before + [c.it, c.im] + c.chain[..i + 1])
      && Agree(u.outs, v.outs, Keep(c) - {c.chain[i]}) && TurnOf(u.turn, c.im) == TurnOf(v.turn, c.im)
  {
    hide NextOk, Foreign, Failed, PostOne, Spoken, Kept, Batch, Invoke, Extend, Successors, ChainBody, Collectable, InputsReady, Resolve, AllIn, Pending, Agree;
    var x, have := c.chain[i], before + [c.it, c.im] + c.chain[..i];
    BodyLinks(c, before, i);
    var sa, pa, ix := ThreadStep(c, before, u, x, have, Following(c, i));
    var t, px := Batch(c.g, c.w, u), PostOne(c.g, c.w, pa, ix);
    BodyOwn(c, before, sa, pa, x);
    var rest := Keep(c) - {x};
    KeptLess(u, sa, Keep(c), rest);
    KeptLess(px, t, Keep(c), rest);
    AgreeTrans(u.outs, sa.outs, px.outs, rest);
    AgreeTrans(u.outs, px.outs, t.outs, rest);
    KeptTurn(c, u, sa);
    KeptTurn(c, px, t);
    assert have + [x] == before + [c.it, c.im] + c.chain[..i + 1];
    ListApart(c, before);
    ResolveAgrees(c.g, u.outs, t.outs, Comp(c.g, c.it).itemsRef, rest);
  }

  lemma {:induction false} KeptLess(a: State, b: State, keep: set<Id>, less: set<Id>)
    requires Kept(a, b, keep) && less <= keep
    ensures Agree(a.outs, b.outs, less)
  {
  }

  lemma {:induction false} KeptTurn(c: Beside, a: State, b: State)
    requires Kept(a, b, Keep(c))
    ensures TurnOf(a.turn, c.im) == TurnOf(b.turn, c.im)
  {
  }

  lemma {:induction false} ListApart(c: Beside, before: seq<Id>)
    requires Apart(c, before)
    ensures Comp(c.g, c.it).itemsRef.cid in Keep(c) && Comp(c.g, c.it).itemsRef.cid !in Members(c)
  {
    hide Foreign, ChainBody, InputsReady, OwnOutputs;
    var cid := Comp(c.g, c.it).itemsRef.cid;
    assert cid !in c.chain && cid != c.it && cid != c.im by {
      assert cid !in c.chain + [c.it, c.im];
      assert c.it in c.chain + [c.it, c.im] && c.im in c.chain + [c.it, c.im];
    }
  }

  lemma {:induction false} BodyLinks(c: Beside, before: seq<Id>, i: nat)
    requires Apart(c, before) && i < |c.chain|
    ensures var x := c.chain[i];
      && x in c.chain && x in Members(c) && Following(c, i) in Members(c) && Following(c, i) != x
      && !Comp(c.g, x).kind.IterationItem?
      && (forall r | r in Comp(c.g, x).refs :: r in before + [c.it, c.im] + c.chain[..i])
      && (forall s: State :: Successors(c.g, s, x, false) == [Following(c, i)])
  {
    hide Foreign, Collectable, OwnOutputs, GetStart;
    assert InBody(c.g, c.it, c.chain, i);
  }

  // ---------------------------------------------------------------- the item is due

  /** Invoked at turn k without failing, the item collects, and then offers element k or ends. */
  lemma {:induction false} ItemSurvives(c: Beside, s: State, k: nat)
    requires Comp(c.g, c.im).kind.IterationItem? && Comp(c.g, c.im).parent == Some(c.it) && k <= |c.arr|
    requires Resolve(c.g, s.outs, Comp(c.g, c.it).itemsRef) == Some(List(c.arr)) && TurnOf(s.turn, c.im) == k
    requires var ts := Targets(c.g, c.it, c.g.order); Appendable(s.outs, c.it, ts) && DistinctKeys(ts)
    requires !Failed(Invoke(c.g, c.w, s, c.im).outs, c.im)
    ensures var sx := Invoke(c.g, c.w, s, c.im);
      var coll := if k > 0 then Collate(s.outs, c.it, Targets(c.g, c.it, c.g.order)).0 else s.outs;
      && sx.outs == (if k < |c.arr| then Offer(coll, c.im, c.arr[k], k) else coll)
      && TurnOf(sx.turn, c.im) == (if k < |c.arr| then k + 1 else -1)
  {
    hide Failed, Resolve, Notice, Raise, Collate, Targets, SetOutput, Appendable, DistinctKeys, Offer;
    var ts := Targets(c.g, c.it, c.g.order);
    CollateElsewhere(s.outs, c.it, ts, "");
    var coll := if k > 0 then Collate(s.outs, c.it, ts).0 else s.outs;
    NoticeFails(s.outs, c.im);
    NoticeFails(coll, c.im);
    if k < |c.arr| { OfferIs(coll, c.im, c.arr[k], k); }
  }

  function ValuesOf(trace: seq<Outs>, r: Ref): seq<Value> {
    seq(|trace|, i requires 0 <= i < |trace| => Output(trace[i], r.cid, r.name))
  }

  /** The collected outputs are the lists of what was there in the states of `trace`; with none of them, they are as
      they were at the start. */
  predicate Has(c: Beside, start: Outs, outs: Outs, trace: seq<Outs>) {
    forall x | x in Comp(c.g, c.it).collects ::
      Output(outs, c.it, x.key) == if trace == [] then Output(start, c.it, x.key) else List(ValuesOf(trace, x.ref))
  }

  predicate Fresh(c: Beside, start: Outs) { forall x | x in Comp(c.g, c.it).collects :: !Output(start, c.it, x.key).Truthy() }

  lemma {:induction false} HasAgrees(c: Beside, start: Outs, a: Outs, b: Outs, trace: seq<Outs>, keep: set<Id>)
    requires Has(c, start, a, trace) && Agree(a, b, keep) && c.it in keep
    ensures Has(c, start, b, trace)
  {
    AgreeOutput(a, b, keep, c.it);
  }

  lemma {:induction false} HasAppendable(c: Beside, start: Outs, outs: Outs, trace: seq<Outs>)
    requires ChainBody(c.g, c.it, c.im, c.chain) && Collectable(c.g, c.it, c.im, c.chain)
    requires Fresh(c, start) && Has(c, start, outs, trace)
    ensures var ts := Targets(c.g, c.it, c.g.order);
      Appendable(outs, c.it, ts) && DistinctKeys(ts) && forall x :: x in ts <==> x in Comp(c.g, c.it).collects
  {
    hide ChainBody, Collectable, Targets;
    TargetsAll(c.g, c.it, c.im, c.chain);
  }

  /** Collation adds what is there now; `u` is a state with the same outputs of the body. */
  lemma {:induction false} CollectStep(c: Beside, start: Outs, outs: Outs, u: Outs, trace: seq<Outs>, before: seq<Id>)
    requires Apart(c, before) && Fresh(c, start) && Has(c, start, outs, trace) && Agree(u, outs, Keep(c))
    ensures var r := Collate(outs, c.it, Targets(c.g, c.it, c.g.order)).0;
      Has(c, start, r, trace + [u]) && SameOutside(outs, r, [c.it])
  {
    hide ChainBody, Collectable, Targets, Collate, Foreign, InputsReady, OwnOutputs, Appendable, DistinctKeys, Agree;
    var ts := Targets(c.g, c.it, c.g.order);
    HasAppendable(c, start, outs, trace);
    CollateElsewhere(outs, c.it, ts, "");
    var r := Collate(outs, c.it, ts).0;
    forall x | x in Comp(c.g, c.it).collects ensures Output(r, c.it, x.key) == List(ValuesOf(trace + [u], x.ref)) {
      RefInBody(c, before, x);
      CollateAppends(outs, c.it, ts, x);
      AgreeOutput(u, outs, Keep(c), x.ref.cid);
      HeldSoFar(c, start, outs, trace, x);
      assert ValuesOf(trace + [u], x.ref) == ValuesOf(trace, x.ref) + [Output(u, x.ref.cid, x.ref.name)];
    }
  }

  lemma {:induction false} HeldSoFar(c: Beside, start: Outs, outs: Outs, trace: seq<Outs>, x: Collect)
    requires Fresh(c, start) && Has(c, start, outs, trace) && x in Comp(c.g, c.it).collects
    ensures ItemsOf(Output(outs, c.it, x.key)) == ValuesOf(trace, x.ref)
  {
    if trace == [] { assert !Output(start, c.it, x.key).Truthy(); }
  }

  lemma {:induction false} RefInBody(c: Beside, before: seq<Id>, x: Collect)
    requires Apart(c, before) && x in Comp(c.g, c.it).collects
    ensures x.ref.cid in Keep(c) && x.ref.cid != c.it
  {
    hide Foreign, InputsReady, OwnOutputs, GetStart;
  }

  /** The item offers element k: what the members find then. */
  predicate Bound(c: Beside, outs: Outs, k: nat)
    requires k < |c.arr|
  {
    Output(outs, c.im, "item") == c.arr[k] && Output(outs, c.im, "index") == Num(k)
  }

  lemma {:induction false} OfferFacts(c: Beside, start: Outs, outs: Outs, trace: seq<Outs>, k: nat)
    requires c.it != c.im && k < |c.arr| && Has(c, start, outs, trace)
    ensures var o := Offer(outs, c.im, c.arr[k], k); Has(c, start, o, trace) && Bound(c, o, k) && SameOutside(outs, o, [c.im])
  {
  }

  lemma {:induction false} ItemKindOf(c: Beside, before: seq<Id>)
    requires Apart(c, before)
    ensures Comp(c.g, c.im).kind.IterationItem? && Comp(c.g, c.im).parent == Some(c.it) && c.it != c.im
    ensures c.chain != [] && c.chain[0] in c.chain && c.chain[0] in Members(c) && c.chain[0] != c.im
    ensures c.im in Members(c) && c.it in Members(c)
    ensures forall r | r in Comp(c.g, c.im).refs :: r in before + [c.it]
    ensures forall s: State :: Successors(c.g, s, c.im, false) == [c.chain[0]]
    ensures forall s: State :: Successors(c.g, s, c.im, true) == Comp(c.g, c.it).downstream
  {
    hide Foreign, Collectable, OwnOutputs, GetStart;
  }

  function TraceAfter(trace: seq<Outs>, k: nat, u: Outs): seq<Outs> { if k > 0 then trace + [u] else trace }

  /** What the item leaves, up to the other branches: collected, and then offered or ended. */
  lemma {:induction false} ItemLeaves(c: Beside, before: seq<Id>, start: Outs, u: State, sa: State, k: nat, trace: seq<Outs>)
    requires Apart(c, before) && Fresh(c, start) && Has(c, start, u.outs, trace) && k <= |c.arr| && (k == 0 ==> trace == [])
    requires Kept(u, sa, Keep(c)) && TurnOf(u.turn, c.im) == k
    requires Resolve(c.g, u.outs, Comp(c.g, c.it).itemsRef) == Some(List(c.arr))
    requires !Failed(Invoke(c.g, c.w, sa, c.im).outs, c.im)
    ensures var sx := Invoke(c.g, c.w, sa, c.im);
      && Has(c, start, sx.outs, TraceAfter(trace, k, u.outs)) && Agree(u.outs, sx.outs, Keep(c) - {c.it, c.im})
      && (if k < |c.arr| then Bound(c, sx.outs, k) && TurnOf(sx.turn, c.im) == k + 1 else TurnOf(sx.turn, c.im) == -1)
  {
    hide Apart, Fresh, Has, Failed, Resolve, Collate, Targets, Offer, Appendable, DistinctKeys, Agree, Bound, Invoke;
    ItemKindOf(c, before);
    Disjoint(c, before, c.it);
    KeptParts(u, sa, Keep(c), c.im, before, c);
    HasAgrees(c, start, u.outs, sa.outs, trace, Keep(c));
    KeptResolve(c, u, sa);
    assert ChainBody(c.g, c.it, c.im, c.chain) && Collectable(c.g, c.it, c.im, c.chain) by { ApartBody(c, before); }
    HasAppendable(c, start, sa.outs, trace);
    ItemSurvives(c, sa, k);
    CollectStep(c, start, sa.outs, u.outs, trace, before);
    var r := Collate(sa.outs, c.it, Targets(c.g, c.it, c.g.order)).0;
    var coll := if k > 0 then r else sa.outs;
    var rest := Keep(c) - {c.it, c.im};
    AgreeLess(u.outs, sa.outs, Keep(c), rest);
    AgreeOwn(sa.outs, r, c.it, rest);
    AgreeTrans(u.outs, sa.outs, r, rest);
    if k < |c.arr| {
      OfferFacts(c, start, coll, TraceAfter(trace, k, u.outs), k);
      var o := Offer(coll, c.im, c.arr[k], k);
      AgreeOwn(coll, o, c.im, rest);
      AgreeTrans(u.outs, coll, o, rest);
    }
  }

  lemma {:induction false} ApartBody(c: Beside, before: seq<Id>)
    requires Apart(c, before)
    ensures ChainBody(c.g, c.it, c.im, c.chain) && Collectable(c.g, c.it, c.im, c.chain)
  {
  }

  lemma {:induction false} KeptParts(a: State, b: State, keep: set<Id>, im: Id, before: seq<Id>, c: Beside)
    requires Apart(c, before) && keep == Keep(c) && im == c.im && Kept(a, b, keep)
    ensures Agree(a.outs, b.outs, keep) && TurnOf(a.turn, im) == TurnOf(b.turn, im)
  {
  }

  /** A batch with the item due at turn k. */
  lemma {:induction false} ItemStep(c: Beside, before: seq<Id>, start: Outs, u: State, have: seq<Id>, k: nat, trace: seq<Outs>) returns (p: seq<Id>)
    requires Apart(c, before) && Fresh(c, start) && Has(c, start, u.outs, trace) && k <= |c.arr| && (k == 0 ==> trace == [])
    requires Due(c, u, c.im, have) && (forall r | r in before + [c.it] :: r in have) && TurnOf(u.turn, c.im) == k
    requires Batch(c.g, c.w, u).error == "" && !Failed(Batch(c.g, c.w, u).outs, c.im)
    ensures var t := Batch(c.g, c.w, u); var v := t.(idx := t.to);
      && Has(c, start, v.outs, TraceAfter(trace, k, u.outs))
      && (if k < |c.arr| then
            Due(c, v, c.chain[0], have + [c.im]) && Bound(c, v.outs, k) && TurnOf(v.turn, c.im) == k + 1
          else
            && TurnOf(v.turn, c.im) == -1 && v.error == "" && v.idx <= |v.path|
            && v.path[..v.idx] <= p && Extend(p, Comp(c.g, c.it).downstream) <= v.path)
  {
    hide Apart, Fresh, Has, NextOk, Failed, PostOne, Spoken, Batch, Invoke, Extend, Successors, Resolve, AllIn, Pending, Agree, Bound;
    ItemKindOf(c, before);
    var sa, pa, ix := ThreadStep(c, before, u, c.im, have, c.chain[0]);
    var t, px := Batch(c.g, c.w, u), PostOne(c.g, c.w, pa, ix);
    var sx := Invoke(c.g, c.w, sa, c.im);
    p := pa.path;
    Disjoint(c, before, c.im);
    Disjoint(c, before, c.it);
    NoMessage(c.g, c.w, pa, c.im);
    KeptFailed(sx, pa, Keep(c), c.im);
    ItemLeaves(c, before, start, u, sa, k, trace);
    SameKept(pa, px, Keep(c));
    KeptTrans(sx, pa, px, Keep(c));
    KeptTrans(sx, px, t, Keep(c));
    KeptParts(sx, t, Keep(c), c.im, before, c);
    KeptParts(sx, pa, Keep(c), c.im, before, c);
    HasAgrees(c, start, sx.outs, t.outs, TraceAfter(trace, k, u.outs), Keep(c));
    if k < |c.arr| {
      BoundAgrees(c, sx.outs, t.outs, Keep(c), k);
      var rest := Keep(c) - {c.it, c.im};
      AgreeLess(sx.outs, t.outs, Keep(c), rest);
      AgreeTrans(u.outs, sx.outs, t.outs, rest);
      ListApart(c, before);
      ResolveAgrees(c.g, u.outs, t.outs, Comp(c.g, c.it).itemsRef, rest);
    } else {
      assert px.path == Extend(pa.path, Comp(c.g, c.it).downstream);
    }
  }

  lemma {:induction false} BoundAgrees(c: Beside, a: Outs, b: Outs, keep: set<Id>, k: nat)
    requires k < |c.arr| && Bound(c, a, k) && Agree(a, b, keep) && c.im in keep
    ensures Bound(c, b, k)
  {
    AgreeOutput(a, b, keep, c.im);
  }

  // ---------------------------------------------------------------- the whole iteration

  /** The outputs each time the item is due again, after the first k passes. */
  ghost function Trace(c: Beside, s: State, k: nat): seq<Outs>
    requires s.idx <= |s.path|
  {
    if k == 0 then [] else Trace(c, s, k - 1) + [After(c, s, 1 + Visits(k, |c.chain|)).outs]
  }

  /** The number of batches of the whole iteration. */
  function Batches(c: Beside): nat { Cost(|c.arr|, |c.chain|) }

  lemma {:induction false} VisitsGrow(j: nat, k: nat, m: nat)
    requires j <= k
    ensures Visits(j, m) <= Visits(k, m)
    decreases k - j
  {
    if j < k { VisitsGrow(j, k - 1, m); }
  }

  /** Where the iteration begins: it is due, at its first entry, and nothing will stop the run. */
  ghost predicate Begins(c: Beside, before: seq<Id>, s: State) {
    && Apart(c, before) && Due(c, s, c.it, before) && TurnOf(s.turn, c.im) == 0 && Fresh(c, s.outs)
    && forall j | 0 <= j < Batches(c) :: Fair(c, s, j)
  }

  lemma {:induction false} FairAt(c: Beside, before: seq<Id>, s: State, j: nat)
    requires Begins(c, before, s) && j < Batches(c)
    ensures var u := After(c, s, j); var t := Batch(c.g, c.w, u);
      && After(c, s, j + 1) == t.(idx := t.to) && !c.w.canceled(u.clock) && t.error == ""
      && FillUps(c.g, t.path[t.to..]) == [] && forall x | x in Members(c) :: !Failed(t.outs, x)
  {
    hide Apart, Due, Batch, Failed, FillUps, Members, Fresh;
    DueIndex(c, s, c.it, before);
    assert Fair(c, s, j);
  }

  /** The run is where it has come after j batches. */
  ghost predicate Reaches(c: Beside, s: State, j: nat, fuel: nat)
    requires s.idx <= |s.path|
  {
    j <= fuel && RunLoop(c.g, c.w, s, fuel) == RunLoop(c.g, c.w, After(c, s, j), fuel - j)
  }

  lemma {:induction false} ReachesMore(c: Beside, before: seq<Id>, s: State, j: nat, fuel: nat)
    requires Begins(c, before, s) && j < Batches(c) <= fuel && Reaches(c, s, j, fuel)
    requires exists x :: Pending(c, After(c, s, j), x)
    ensures Reaches(c, s, j + 1, fuel)
  {
    hide Begins, After, Batch, FillUps, AllIn;
    FairAt(c, before, s, j);
  }

  lemma {:induction false} Entered(c: Beside, before: seq<Id>, s: State, fuel: nat)
    requires Begins(c, before, s) && fuel >= Batches(c)
    ensures var u := After(c, s, 1);
      Due(c, u, c.im, before + [c.it]) && TurnOf(u.turn, c.im) == 0 && Has(c, s.outs, u.outs, []) && Reaches(c, s, 1, fuel)
  {
    hide Apart, Batch, Fresh, Fair, FillUps, Failed, NextOk, Resolve, Pending, Seen;
    FairAt(c, before, s, 0);
    EntryKind(c, before);
    EnterStep(c, before, s);
    var u := After(c, s, 1);
    KeptTurn(c, s, u);
    Disjoint(c, before, c.it);
    KeptParts(s, u, Keep(c), c.im, before, c);
    HasAgrees(c, s.outs, s.outs, u.outs, [], Keep(c));
    assert After(c, s, 0) == s;
    ReachesMore(c, before, s, 0, fuel);
  }

  lemma {:induction false} SeenLess(c: Beside, u: State, x: Id, have: seq<Id>, less: seq<Id>)
    requires Due(c, u, x, have) && forall r | r in less :: r in have
    ensures Due(c, u, x, less)
  {
    hide Pending, NextOk, Resolve;
  }

  function Held(k: nat): nat { if k == 0 then 0 else k - 1 }

  /** The item is due at turn k, with the first passes collected. */
  ghost predicate ItemDue(c: Beside, before: seq<Id>, s: State, k: nat)
    requires s.idx <= |s.path|
  {
    var u := After(c, s, 1 + Visits(k, |c.chain|));
    Due(c, u, c.im, before + [c.it]) && TurnOf(u.turn, c.im) == k && Has(c, s.outs, u.outs, Trace(c, s, Held(k)))
  }

  /** The i-th component of the body is due in pass k, bound to element k. */
  ghost predicate BodyDue(c: Beside, before: seq<Id>, s: State, k: nat, i: nat)
    requires s.idx <= |s.path| && k < |c.arr| && i < |c.chain|
  {
    var u := After(c, s, 2 + Visits(k, |c.chain|) + i);
    && Due(c, u, c.chain[i], before + [c.it, c.im] + c.chain[..i]) && TurnOf(u.turn, c.im) == k + 1
    && Bound(c, u.outs, k) && Has(c, s.outs, u.outs, Trace(c, s, k))
  }

  lemma {:induction false} ItemComesDue(c: Beside, before: seq<Id>, s: State, k: nat, fuel: nat)
    requires Begins(c, before, s) && k <= |c.arr| && fuel >= Batches(c)
    ensures ItemDue(c, before, s, k) && Reaches(c, s, 1 + Visits(k, |c.chain|), fuel)
    decreases k, 0
  {
    hide Begins, BodyDue, Reaches, Batches, Due, Has, After;
    BeginsIndex(c, before, s);
    if k == 0 {
      Entered(c, before, s, fuel);
      NoTrace(c, s);
    } else {
      hide ItemDue, Visits;
      BodyThere(c, before, s);
      BodyComesDue(c, before, s, k - 1, |c.chain| - 1, fuel);
      PassEnds(c, before, s, k - 1, fuel);
    }
  }

  lemma {:induction false} BodyThere(c: Beside, before: seq<Id>, s: State)
    requires Begins(c, before, s)
    ensures c.chain != []
  {
    hide Apart, Due, Fresh, Fair;
    ItemKindOf(c, before);
  }

  lemma {:induction false} PassEnds(c: Beside, before: seq<Id>, s: State, k: nat, fuel: nat)
    requires Begins(c, before, s) && k < |c.arr| && c.chain != [] && fuel >= Batches(c)
    requires s.idx <= |s.path| && BodyDue(c, before, s, k, |c.chain| - 1)
    requires Reaches(c, s, 2 + Visits(k, |c.chain|) + (|c.chain| - 1), fuel)
    ensures ItemDue(c, before, s, k + 1) && Reaches(c, s, 1 + Visits(k + 1, |c.chain|), fuel)
  {
    hide Apart, Due, Batch, Fair, Fresh, Has, Reaches, After, Bound, Keep, NextOk, Trace, Begins, Members, Failed, Batches;
    var m := |c.chain|;
    InTime(c, k, m);
    BeginsWell(c, before, s);
    var j := 2 + Visits(k, m) + (m - 1);
    assert j + 1 == 1 + Visits(k + 1, m);
    hide Visits;
    var u := After(c, s, j);
    DuePending(c, u, c.chain[m - 1], before + [c.it, c.im] + c.chain[..m - 1]);
    FairAt(c, before, s, j);
    VisitStep(c, before, u, m - 1);
    var v := After(c, s, j + 1);
    SeenLess(c, v, c.im, before + [c.it, c.im] + c.chain[..m - 1 + 1], before + [c.it]);
    BodyKeeps(c, before, s.outs, u, v, c.chain[m - 1], k, Trace(c, s, k));
    ReachesMore(c, before, s, j, fuel);
  }

  lemma {:induction false} BodyComesDue(c: Beside, before: seq<Id>, s: State, k: nat, i: nat, fuel: nat)
    requires Begins(c, before, s) && k < |c.arr| && i < |c.chain| && fuel >= Batches(c)
    ensures BodyDue(c, before, s, k, i) && Reaches(c, s, 2 + Visits(k, |c.chain|) + i, fuel)
    decreases k, i + 1
  {
    hide Begins, ItemDue, BodyDue, Reaches, Visits, Batches;
    BeginsIndex(c, before, s);
    if i == 0 {
      ItemComesDue(c, before, s, k, fuel);
      PassStarts(c, before, s, k, fuel);
    } else {
      BodyComesDue(c, before, s, k, i - 1, fuel);
      PassGoesOn(c, before, s, k, i - 1, fuel);
    }
  }

  lemma {:induction false} PassStarts(c: Beside, before: seq<Id>, s: State, k: nat, fuel: nat)
    requires Begins(c, before, s) && k < |c.arr| && c.chain != [] && fuel >= Batches(c)
    requires s.idx <= |s.path| && ItemDue(c, before, s, k) && Reaches(c, s, 1 + Visits(k, |c.chain|), fuel)
    ensures BodyDue(c, before, s, k, 0) && Reaches(c, s, 2 + Visits(k, |c.chain|), fuel)
  {
    hide Apart, Due, Batch, Fair, Fresh, Has, Reaches, After, Bound, Keep, NextOk, Begins, Members, Failed, Visits, Batches;
    var m := |c.chain|;
    InTime(c, k, 0);
    BeginsWell(c, before, s);
    ItemKindOf(c, before);
    var j := 1 + Visits(k, m);
    var u := After(c, s, j);
    DuePending(c, u, c.im, before + [c.it]);
    FairAt(c, before, s, j);
    var p := ItemStep(c, before, s.outs, u, before + [c.it], k, Trace(c, s, Held(k)));
    assert before + [c.it] + [c.im] == before + [c.it, c.im] + c.chain[..0];
    ReachesMore(c, before, s, j, fuel);
  }

  lemma {:induction false} PassGoesOn(c: Beside, before: seq<Id>, s: State, k: nat, i: nat, fuel: nat)
    requires Begins(c, before, s) && k < |c.arr| && i + 1 < |c.chain| && fuel >= Batches(c)
    requires s.idx <= |s.path| && BodyDue(c, before, s, k, i) && Reaches(c, s, 2 + Visits(k, |c.chain|) + i, fuel)
    ensures BodyDue(c, before, s, k, i + 1) && Reaches(c, s, 2 + Visits(k, |c.chain|) + (i + 1), fuel)
  {
    hide Apart, Due, Batch, Fair, Fresh, Has, Reaches, After, Bound, Keep, NextOk, Trace, Begins, Members, Failed, Visits, Batches;
    var m := |c.chain|;
    InTime(c, k, i + 1);
    BeginsWell(c, before, s);
    var j := 2 + Visits(k, m) + i;
    var u := After(c, s, j);
    DuePending(c, u, c.chain[i], before + [c.it, c.im] + c.chain[..i]);
    FairAt(c, before, s, j);
    VisitStep(c, before, u, i);
    BodyKeeps(c, before, s.outs, u, After(c, s, j + 1), c.chain[i], k, Trace(c, s, k));
    ReachesMore(c, before, s, j, fuel);
  }

  lemma {:induction false} NoTrace(c: Beside, s: State)
    requires s.idx <= |s.path|
    ensures Trace(c, s, 0) == []
  {
  }

  lemma {:induction false} InTime(c: Beside, k: nat, i: nat)
    requires k < |c.arr| && i <= |c.chain|
    ensures 1 + Visits(k, |c.chain|) + i < Batches(c)
  {
    VisitsGrow(k + 1, |c.arr|, |c.chain|);
  }

  lemma {:induction false} DuePending(c: Beside, u: State, x: Id, have: seq<Id>)
    requires Due(c, u, x, have)
    ensures u.idx <= |u.path| && Pending(c, u, x)
  {
    hide Pending, NextOk, Resolve;
  }

  lemma {:induction false} BeginsWell(c: Beside, before: seq<Id>, s: State)
    requires Begins(c, before, s)
    ensures Apart(c, before) && Fresh(c, s.outs) && s.idx <= |s.path|
    ensures forall i | 0 <= i < |c.chain| :: c.chain[i] in Members(c)
  {
    hide Apart, Fair, Fresh, Due;
    assert s.idx <= |s.path| by { DueIndex(c, s, c.it, before); }
  }

  lemma {:induction false} BeginsIndex(c: Beside, before: seq<Id>, s: State)
    requires Begins(c, before, s)
    ensures s.idx <= |s.path|
  {
    hide Begins;
    BeginsWell(c, before, s);
  }

  lemma {:induction false} DueIndex(c: Beside, u: State, x: Id, have: seq<Id>)
    requires Due(c, u, x, have)
    ensures u.idx <= |u.path|
  {
  }

  /** A member of the body leaves what is collected and what is bound. */
  lemma {:induction false} BodyKeeps(c: Beside, before: seq<Id>, start: Outs, u: State, v: State, x: Id, k: nat, trace: seq<Outs>)
    requires Apart(c, before) && x in c.chain && k < |c.arr| && Agree(u.outs, v.outs, Keep(c) - {x})
    requires Has(c, start, u.outs, trace) && Bound(c, u.outs, k)
    ensures Has(c, start, v.outs, trace) && Bound(c, v.outs, k)
  {
    hide Has, Bound, Agree;
    BodyApart(c, before, x);
    HasAgrees(c, start, u.outs, v.outs, trace, Keep(c) - {x});
    BoundAgrees(c, u.outs, v.outs, Keep(c) - {x}, k);
  }

  lemma {:induction false} BodyApart(c: Beside, before: seq<Id>, x: Id)
    requires Apart(c, before) && x in c.chain
    ensures c.it in Keep(c) - {x} && c.im in Keep(c) - {x}
  {
  }

  /** Iteration is a map, beside other branches.  At its first entry, over n items, with nothing stopping the run: the item
      is due n+1 times, with turns 0 to n; in between each component of the body is due n times, in order, finding
      element k and index k in pass k; the collected outputs end as the lists of what the body had left each time the
      item was due again (as they were, for n = 0); and the iteration's successors are scheduled. */
  lemma {:induction false} IterationBesideIsMap(c: Beside, before: seq<Id>, s: State, fuel: nat) returns (p: seq<Id>)
    requires Begins(c, before, s) && fuel >= Batches(c)
    ensures s.idx <= |s.path|
    ensures forall k | 0 <= k <= |c.arr| :: ItemDue(c, before, s, k)
    ensures forall k, i | 0 <= k < |c.arr| && 0 <= i < |c.chain| :: BodyDue(c, before, s, k, i)
    ensures var t := After(c, s, Batches(c));
      && t.error == "" && TurnOf(t.turn, c.im) == -1 && Has(c, s.outs, t.outs, Trace(c, s, |c.arr|))
      && t.path[..t.idx] <= p && Extend(p, Comp(c.g, c.it).downstream) <= t.path
      && RunLoop(c.g, c.w, s, fuel) == RunLoop(c.g, c.w, t, fuel - Batches(c))
  {
    hide Apart, Due, Batch, Fair, Fresh, Has, After, Bound, Keep, ItemDue, BodyDue, NextOk, RunLoop, Extend;
    BeginsWell(c, before, s);
    forall k | 0 <= k <= |c.arr| ensures ItemDue(c, before, s, k) { ItemComesDue(c, before, s, k, fuel); }
    forall k, i | 0 <= k < |c.arr| && 0 <= i < |c.chain| ensures BodyDue(c, before, s, k, i) { BodyComesDue(c, before, s, k, i, fuel); }
    p := Ends(c, before, s, fuel);
  }

  lemma {:induction false} Ends(c: Beside, before: seq<Id>, s: State, fuel: nat) returns (p: seq<Id>)
    requires Begins(c, before, s) && fuel >= Batches(c) && s.idx <= |s.path|
    ensures var t := After(c, s, Batches(c));
      && t.error == "" && TurnOf(t.turn, c.im) == -1 && Has(c, s.outs, t.outs, Trace(c, s, |c.arr|))
      && t.path[..t.idx] <= p && Extend(p, Comp(c.g, c.it).downstream) <= t.path && Reaches(c, s, Batches(c), fuel)
  {
    hide Apart, Due, Batch, Fair, Fresh, Has, After, Bound, Keep, NextOk, Reaches, Extend;
    BeginsWell(c, before, s);
    ItemKindOf(c, before);
    var n := |c.arr|;
    ItemComesDue(c, before, s, n, fuel);
    var j := 1 + Visits(n, |c.chain|);
    var u := After(c, s, j);
    DuePending(c, u, c.im, before + [c.it]);
    FairAt(c, before, s, j);
    p := ItemStep(c, before, s.outs, u, before + [c.it], n, Trace(c, s, Held(n)));
    ReachesMore(c, before, s, j, fuel);
  }
}
