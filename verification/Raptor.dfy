/** The RAPTOR layer loop.  The cancel flag, the language model and the embedder are arbitrary functions, asked one time
    after the other; clustering gives any count in its range and any labels; and tasks of a layer advance in any
    order. */
module Raptor {
  import opened Options
  import opened RaptorTree

  datatype Chunk = Chunk(text: string, embedding: seq<real>)

  datatype Input = Input(text: string, embedding: seq<real>)

  datatype Outcome = Returned(chunks: seq<Chunk>, layers: seq<Interval>) | Raised

  /** A summarise task: before its first await, holding the texts it read, or over. */
  datatype Task = Created | Reading(texts: seq<string>) | Over

  /** The chunks with a text and an embedding. */
  function Usable(input: seq<Input>): seq<Chunk> {
    if input == [] then []
    else (if input[0].text != "" && input[0].embedding != [] then [Chunk(input[0].text, input[0].embedding)] else [])
         + Usable(input[1..])
  }

  /** `at` are, in order, exactly the places of the input whose chunk has a text and an embedding, and `chunks` are those
      chunks. */
  predicate Selected(input: seq<Input>, chunks: seq<Chunk>, at: seq<nat>) {
    Increasing(at) && Places(input, at) && Contents(input, chunks, at)
  }

  predicate Increasing(at: seq<nat>) { forall j, k | 0 <= j < k < |at| :: at[j] < at[k] }

  predicate Places(input: seq<Input>, at: seq<nat>) {
    (forall i | i in at :: i < |input|) && forall i | 0 <= i < |input| :: i in at <==> input[i].text != "" && input[i].embedding != []
  }

  predicate Contents(input: seq<Input>, chunks: seq<Chunk>, at: seq<nat>) {
    |at| == |chunks| && forall k | 0 <= k < |at| :: at[k] < |input| && chunks[k] == Chunk(input[at[k]].text, input[at[k]].embedding)
  }

  /** The chunks the code starts from are the usable ones of the input. */
  lemma {:induction false} UsableSelected(input: seq<Input>) returns (at: seq<nat>)
    ensures Selected(input, Usable(input), at) && |at| == |Usable(input)|
    decreases |input|
  {
    at := [];
    if input != [] {
      hide Usable, Places, Increasing;
      UsableStep(input);
      var rest := UsableSelected(input[1..]);
      var keep := input[0].text != "" && input[0].embedding != [];
      var first: seq<nat> := if keep then [0] else [];
      at := first + seq(|rest|, k requires 0 <= k < |rest| => rest[k] + 1);
      IncreasingStep(first, rest, at);
      PlacesStep(input, first, rest, at);
      ContentsStep(input, Usable(input[1..]), first, rest, at);
    }
  }

  lemma {:induction false} IncreasingStep(first: seq<nat>, rest: seq<nat>, at: seq<nat>)
    requires Increasing(rest) && (first == [] || first == [0])
    requires at == first + seq(|rest|, k requires 0 <= k < |rest| => rest[k] + 1)
    ensures Increasing(at)
  {
  }

  lemma {:induction false} PlacesStep(input: seq<Input>, first: seq<nat>, rest: seq<nat>, at: seq<nat>)
    requires input != [] && Places(input[1..], rest)
    requires first == if input[0].text != "" && input[0].embedding != [] then [0] else []
    requires at == first + seq(|rest|, k requires 0 <= k < |rest| => rest[k] + 1)
    ensures Places(input, at)
  {
    forall i | i in at ensures i < |input| { PlacesShifted(first, rest, at, i); }
    forall i | 0 <= i < |input| ensures i in at <==> input[i].text != "" && input[i].embedding != [] {
      PlacesShifted(first, rest, at, i);
      if i > 0 { assert input[1..][i - 1] == input[i]; }
    }
  }

  lemma {:induction false} ContentsStep(input: seq<Input>, chunks: seq<Chunk>, first: seq<nat>, rest: seq<nat>, at: seq<nat>)
    requires input != [] && Contents(input[1..], chunks, rest)
    requires first == if input[0].text != "" && input[0].embedding != [] then [0] else []
    requires at == first + seq(|rest|, k requires 0 <= k < |rest| => rest[k] + 1)
    ensures Contents(input, (if first != [] then [Chunk(input[0].text, input[0].embedding)] else []) + chunks, at)
  {
    var all := (if first != [] then [Chunk(input[0].text, input[0].embedding)] else []) + chunks;
    forall k | 0 <= k < |at| ensures at[k] < |input| && all[k] == Chunk(input[at[k]].text, input[at[k]].embedding) {
      if k >= |first| {
        assert at[k] == rest[k - |first|] + 1 && all[k] == chunks[k - |first|];
        assert input[1..][rest[k - |first|]] == input[at[k]];
      }
    }
  }

  lemma {:induction false} UsableStep(input: seq<Input>)
    requires input != []
    ensures Usable(input) ==
            (if input[0].text != "" && input[0].embedding != [] then [Chunk(input[0].text, input[0].embedding)] else [])
            + Usable(input[1..])
  {
  }

  lemma {:induction false} PlacesShifted(first: seq<nat>, rest: seq<nat>, at: seq<nat>, i: nat)
    requires at == first + seq(|rest|, k requires 0 <= k < |rest| => rest[k] + 1) && (first == [] || first == [0])
    ensures i in at <==> if i == 0 then first == [0] else i - 1 in rest
  {
    if i > 0 && i - 1 in rest {
      var k :| 0 <= k < |rest| && rest[k] == i - 1;
      assert at[|first| + k] == i;
    }
    if i == 0 && first == [0] { assert at[0] == 0; }
  }

  function Members(lbls: seq<nat>, c: nat, start: nat): seq<nat> {
    if lbls == [] then []
    else Members(lbls[..|lbls| - 1], c, start) + if lbls[|lbls| - 1] == c then [|lbls| - 1 + start] else []
  }

  lemma {:induction false} MembersAre(lbls: seq<nat>, c: nat, start: nat)
    ensures forall x :: x in Members(lbls, c, start) <==> start <= x < start + |lbls| && lbls[x - start] == c
    decreases |lbls|
  {
    if lbls != [] { MembersAre(lbls[..|lbls| - 1], c, start); }
  }

  ghost function SetOf(s: seq<nat>): set<nat> { set x | x in s }

  /** Labels turn into a partition, provided no cluster is empty, whatever order the clusters come in. */
  lemma {:induction false} LabelsPartition(lbls: seq<nat>, n: nat, start: nat, order: seq<nat>, parts: seq<set<nat>>)
    requires forall i | 0 <= i < |lbls| :: lbls[i] < n
    requires forall c: nat | c < n :: Members(lbls, c, start) != []
    requires |order| == n && (forall k | 0 <= k < n :: order[k] < n) && forall j, k | 0 <= j < k < n :: order[j] != order[k]
    requires |parts| == n && forall k | 0 <= k < n :: parts[k] == SetOf(Members(lbls, order[k], start))
    ensures Partition(parts, start, start + |lbls|)
  {
    forall k | 0 <= k < n ensures parts[k] != {} && forall x | x in parts[k] :: start <= x < start + |lbls| && lbls[x - start] == order[k] {
      MembersAre(lbls, order[k], start);
      assert Members(lbls, order[k], start)[0] in parts[k];
    }
    forall x: nat | start <= x < start + |lbls| ensures InSome(parts, x) {
      var c := lbls[x - start];
      AllValues(order, n, c);
      var k :| 0 <= k < n && order[k] == c;
      MembersAre(lbls, c, start);
      assert x in parts[k];
    }
  }

  function Below(n: nat): (s: set<nat>)
    ensures |s| == n && forall x: nat :: x in s <==> x < n
  {
    if n == 0 then {} else Below(n - 1) + {n - 1}
  }

  lemma {:induction false} CardDistinct(s: seq<nat>)
    requires forall j, k | 0 <= j < k < |s| :: s[j] != s[k]
    ensures |SetOf(s)| == |s|
    decreases |s|
  {
    if s != [] {
      var n := |s| - 1;
      var t := s[..n];
      CardDistinct(t);
      assert s == t + [s[n]];
      assert SetOf(s) == SetOf(t) + {s[n]};
      assert s[n] !in t;
    }
  }

  lemma {:induction false} SubsetCard(a: set<nat>, b: set<nat>)
    requires a <= b
    ensures |a| <= |b|
    decreases |a|
  {
    if a != {} {
      var x :| x in a;
      SubsetCard(a - {x}, b - {x});
    }
  }

  /** n distinct numbers below n are all of them. */
  lemma {:induction false} AllValues(order: seq<nat>, n: nat, c: nat)
    requires |order| == n && (forall k | 0 <= k < n :: order[k] < n) && c < n
    requires forall j, k | 0 <= j < k < n :: order[j] != order[k]
    ensures c in order
  {
    CardDistinct(order);
    if c !in order {
      SubsetCard(SetOf(order), Below(n) - {c});
    }
  }

  /** Steps a set of tasks has left. */
  function Remaining(tasks: seq<Task>): nat {
    if tasks == [] then 0
    else Remaining(tasks[1..]) + match tasks[0] { case Created => 2 case Reading(_) => 1 case Over => 0 }
  }

  lemma {:induction false} RemainingStep(tasks: seq<Task>, c: nat, t: Task)
    requires c < |tasks| && ((tasks[c].Created? && t.Reading?) || (tasks[c].Reading? && t.Over?))
    ensures Remaining(tasks[c := t]) == Remaining(tasks) - 1
    decreases c
  {
    if c > 0 {
      RemainingStep(tasks[1..], c - 1, t);
      assert tasks[c := t][1..] == tasks[1..][c - 1 := t];
    }
  }

  /** How many tasks are over. */
  function OverCount(tasks: seq<Task>): nat { if tasks == [] then 0 else OverCount(tasks[1..]) + if tasks[0].Over? then 1 else 0 }

  lemma {:induction false} OverStep(tasks: seq<Task>, c: nat, t: Task)
    requires c < |tasks| && !tasks[c].Over?
    ensures OverCount(tasks[c := t]) == OverCount(tasks) + if t.Over? then 1 else 0
    decreases c
  {
    if c > 0 {
      assert tasks[c := t][1..] == tasks[1..][c - 1 := t];
      OverStep(tasks[1..], c - 1, t);
    } else {
      assert tasks[0 := t][1..] == tasks[1..];
    }
  }

  lemma {:induction false} NoneOver(n: nat)
    ensures OverCount(seq(n, i => Created)) == 0
    decreases n
  {
    if n > 0 {
      var s: seq<Task> := seq(n, i => Created);
      var t: seq<Task> := seq(n - 1, i => Created);
      assert s[1..] == t;
      NoneOver(n - 1);
    }
  }

  lemma {:induction false} AllFinished(tasks: seq<Task>)
    requires Remaining(tasks) == 0
    ensures OverCount(tasks) == |tasks|
    decreases |tasks|
  {
    if tasks != [] { AllFinished(tasks[1..]); }
  }

  lemma {:induction false} SomeTask(tasks: seq<Task>)
    requires Remaining(tasks) > 0
    ensures exists c :: 0 <= c < |tasks| && !tasks[c].Over?
    decreases |tasks|
  {
    if tasks[0].Over? {
      SomeTask(tasks[1..]);
      var c :| 0 <= c < |tasks[1..]| && !tasks[1..][c].Over?;
      assert !tasks[c + 1].Over?;
    }
  }

  lemma {:induction false} AllCreated(n: nat)
    ensures Remaining(seq(n, i => Created)) == 2 * n
    decreases n
  {
    if n > 0 {
      AllCreated(n - 1);
      assert seq<Task>(n, i => Created)[1..] == seq<Task>(n - 1, i => Created);
    }
  }

  /** A task holds the texts its cluster has in `chunks`. */
  predicate Holds(texts: seq<string>, ckIdx: seq<nat>, chunks: seq<Chunk>) {
    |texts| == |ckIdx| && forall k | 0 <= k < |ckIdx| :: ckIdx[k] < |chunks| && texts[k] == chunks[ckIdx[k]].text
  }

  /** The summaries so far are, in order of completion, those of distinct clusters. */
  ghost predicate Completed(order: seq<nat>, clusters: seq<seq<nat>>, summaries: seq<set<nat>>) {
    && |order| == |summaries| && (forall k | 0 <= k < |order| :: order[k] < |clusters|)
    && (forall j, k | 0 <= j < k < |order| :: order[j] != order[k])
    && (forall k | 0 <= k < |order| :: summaries[k] == SetOf(clusters[order[k]]))
  }

  predicate AllOver(order: seq<nat>, tasks: seq<Task>) { forall c | c in order :: c < |tasks| && tasks[c].Over? }

  lemma {:induction false} NoneCompleted(clusters: seq<seq<nat>>)
    ensures Completed([], clusters, [])
  {
  }

  /** Texts read while summaries are being appended are those of the layer as it was. */
  lemma {:induction false} HoldsBefore(texts: seq<string>, ckIdx: seq<nat>, before: seq<Chunk>, after: seq<Chunk>)
    requires before <= after && Holds(texts, ckIdx, after) && forall x | x in ckIdx :: x < |before|
    ensures Holds(texts, ckIdx, before)
  {
    forall k | 0 <= k < |ckIdx| ensures ckIdx[k] < |before| && texts[k] == before[ckIdx[k]].text {
      assert ckIdx[k] in ckIdx;
    }
  }

  lemma {:induction false} CompletedMore(order: seq<nat>, clusters: seq<seq<nat>>, summaries: seq<set<nat>>, c: nat)
    requires Completed(order, clusters, summaries) && c < |clusters| && c !in order
    ensures Completed(order + [c], clusters, summaries + [SetOf(clusters[c])])
  {
  }

  lemma {:induction false} PairPartition(start: nat)
    ensures Partition([SetOf([start, start + 1])], start, start + 2)
  {
    var parts := [SetOf([start, start + 1])];
    assert start in [start, start + 1] && [start, start + 1][1] == start + 1;
    assert start in parts[0] && start + 1 in parts[0];
  }

  lemma {:induction false} HoldStep(tasks: seq<Task>, clusters: seq<seq<nat>>, chunks: seq<Chunk>, c: nat, t: Task)
    requires AllHold(tasks, clusters, chunks) && c < |tasks| == |clusters|
    requires t.Reading? ==> Holds(t.texts, clusters[c], chunks)
    ensures AllHold(tasks[c := t], clusters, chunks)
  {
    hide Holds;
  }

  lemma {:induction false} HeldBy(tasks: seq<Task>, clusters: seq<seq<nat>>, chunks: seq<Chunk>, c: nat)
    requires AllHold(tasks, clusters, chunks) && c < |tasks| && tasks[c].Reading?
    ensures c < |clusters| && Holds(tasks[c].texts, clusters[c], chunks)
  {
    hide Holds;
  }

  lemma {:induction false} NoneReading(clusters: seq<seq<nat>>, chunks: seq<Chunk>)
    ensures var tasks: seq<Task> := seq(|clusters|, i => Created); AllHold(tasks, clusters, chunks) && AllOver([], tasks)
  {
  }

  lemma {:induction false} OverMore(order: seq<nat>, tasks: seq<Task>, c: nat, t: Task)
    requires AllOver(order, tasks) && c < |tasks| && !tasks[c].Over?
    ensures c !in order && AllOver(order, tasks[c := t]) && (t.Over? ==> AllOver(order + [c], tasks[c := t]))
  {
  }

  lemma {:induction false} RestGrows<T>(was: seq<T>, now: seq<T>, end: nat, x: T)
    requires was <= now && |now| == |was| + 1 && now[|was|] == x && end <= |was|
    ensures now[end..] == was[end..] + [x]
  {
    assert now == was + [x];
  }

  /** Every reading task holds what its cluster had in `chunks`. */
  predicate AllHold(tasks: seq<Task>, clusters: seq<seq<nat>>, chunks: seq<Chunk>) {
    forall c | 0 <= c < |tasks| && tasks[c].Reading? :: c < |clusters| && Holds(tasks[c].texts, clusters[c], chunks)
  }

  /** A new layer over a built tree. */
  lemma {:induction false} LayerAdded(layers: seq<Interval>, origin: seq<set<nat>>, start: nat, end: nat)
    requires end <= |origin| && Built(layers, origin[..end]) && layers[|layers| - 1] == (start, end)
    requires end < |origin| ==> Partition(origin[end..], start, end)
    ensures Built(layers + [(end, |origin|)], origin)
  {
    var more := layers + [(end, |origin|)];
    FirstBelow(layers, end, |layers| - 1);
    forall i | 0 <= i < |origin| && i < more[0].1 ensures origin[i] == {} { assert origin[..end][i] == origin[i]; }
    forall k | 1 <= k < |more| ensures BuiltLayer(more, origin, k) {
      if k < |layers| {
        TilesBounds(layers, end, k);
        assert BuiltLayer(layers, origin[..end], k);
        assert origin[..end][layers[k].0..layers[k].1] == origin[layers[k].0..layers[k].1];
      } else {
        assert origin[end..|origin|] == origin[end..];
      }
    }
  }

  /** What the clustering of a layer gave: a count, and labels, too few where a chunk has no label. */
  datatype Labeling = Labeling(n: nat, labels: seq<nat>, width: nat)

  /** Every chunk has a label and every cluster a member. */
  predicate Complete(l: Labeling) { |l.labels| == l.width && forall c: nat | c < l.n :: c in l.labels }

  predicate AllComplete(ls: seq<Labeling>) { forall k | 0 <= k < |ls| :: Complete(ls[k]) }

  lemma {:induction false} MembersExist(lbls: seq<nat>, c: nat, start: nat)
    ensures Members(lbls, c, start) != [] <==> c in lbls
    decreases |lbls|
  {
    if lbls != [] {
      var t := lbls[..|lbls| - 1];
      MembersExist(t, c, start);
      assert lbls == t + [lbls[|lbls| - 1]];
    }
  }

  /** The variables of one call, shared by the loop and the tasks it starts, and the error count of the object. */
  class Layering {
    const maxCluster: nat
    const maxErrors: nat
    var chunks: seq<Chunk>
    var layers: seq<Interval>
    var start: nat
    var end: nat
    var errorCount: nat
    ghost var origin: seq<set<nat>>
    const flag: nat -> bool                               // the cancel flag, look by look
    const model: (nat, seq<string>) -> Option<string>     // what the model makes of texts; None where it raises
    const embedder: (nat, string) -> Option<seq<real>>
    var looks: nat                                        // how often the flag was looked at
    var asked: nat                                        // how many tasks have gone to the model
    ghost var labelings: seq<Labeling>                    // the clusterings so far

    constructor (m: nat, e: nat, cancelFlag: nat -> bool, llm: (nat, seq<string>) -> Option<string>, emb: (nat, string) -> Option<seq<real>>)
      ensures maxCluster == m && maxErrors == (if e < 1 then 1 else e) && errorCount == 0
      ensures flag == cancelFlag && model == llm && embedder == emb && looks == asked == 0 && labelings == []
    {
      maxCluster, maxErrors, errorCount := m, if e < 1 then 1 else e, 0;
      flag, model, embedder, looks, asked, labelings := cancelFlag, llm, emb, 0, 0, [];
      chunks, layers, start, end, origin := [], [], 0, 0, [];
    }

    /** Was a cancellation seen between two looks? */
    ghost predicate Noticed(from: nat, to: nat) { exists i | from <= i < to :: flag(i) }

    /** `_check_task_canceled`; it raises where the answer is yes. */
    method Look() returns (canceled: bool)
      modifies this`looks
      ensures looks == old(looks) + 1 && canceled == flag(old(looks))
    {
      canceled := flag(looks);
      looks := looks + 1;
    }

    /** The state at every point of a call, tasks in flight included: the recorded layers tile what was there
        before the layer in hand, and everything past `end` is that layer's. */
    ghost predicate Valid()
      reads this
    {
      && start <= end <= |chunks| == |origin| && layers != [] && layers[|layers| - 1] == (start, end)
      && Built(layers, origin[..end]) && Grounded(origin) && Narrowing(layers, Cap())
    }

    /** A pair is summarised whatever the cluster limit is. */
    ghost function Cap(): nat { if maxCluster < 2 then 2 else maxCluster }

    /** Between two layers. */
    ghost predicate Settled()
      reads this
    {
      Valid() && end == |chunks|
    }

    /** A task reads the texts of its cluster. */
    method ReadTexts(ckIdx: seq<nat>) returns (texts: seq<string>)
      requires forall k | 0 <= k < |ckIdx| :: ckIdx[k] < |chunks|
      ensures Holds(texts, ckIdx, chunks)
    {
      texts := [];
      for k := 0 to |ckIdx|
        invariant |texts| == k && forall j | 0 <= j < k :: texts[j] == chunks[ckIdx[j]].text
      {
        texts := texts + [chunks[ckIdx[k]].text];
      }
    }

    /** The rest of a task: ask the model and the embedder about the texts, and append the summary; or, where one of them
        raises, count an error and skip the cluster.  It raises because of a cancellation or too many errors. */
    method FinishTask(ckIdx: seq<nat>, texts: seq<string>) returns (raised: bool, appended: bool)
      requires Valid() && ckIdx != [] && Holds(texts, ckIdx, chunks[..end]) && forall x | x in ckIdx :: start <= x < end
      modifies this`chunks, this`origin, this`errorCount, this`looks, this`asked
      ensures Valid() && old(chunks) <= chunks && old(origin) <= origin && looks >= old(looks)
      ensures if appended then
                && |chunks| == old(|chunks|) + 1 && origin[old(|origin|)] == SetOf(ckIdx) && errorCount == old(errorCount)
                && |origin| == old(|origin|) + 1
                && var c := chunks[old(|chunks|)];
                   model(old(asked), texts) == Some(c.text) && embedder(old(asked), c.text) == Some(c.embedding)
              else chunks == old(chunks) && origin == old(origin)
      ensures raised <==> Noticed(old(looks), looks) || (errorCount > old(errorCount) && errorCount >= maxErrors)
      ensures !raised ==> errorCount == old(errorCount) + if appended then 0 else 1
      ensures old(errorCount) <= errorCount <= old(errorCount) + 1 && (raised ==> !appended)
      ensures asked <= old(asked) + 1
      ensures errorCount > old(errorCount) ==>
                var text := model(old(asked), texts); text.None? || embedder(old(asked), text.value).None?
    {
      raised, appended := false, false;
      ghost var l0 := looks;
      raised := Look();
      if raised { assert flag(l0); return; }
      var text := model(asked, texts);
      if text.Some? {
        raised := Look();
        if raised { assert flag(l0 + 1); return; }
      }
      var embedding: Option<seq<real>> := None;
      if text.Some? { embedding := embedder(asked, text.value); }
      asked := asked + 1;
      if embedding.Some? {
        ghost var before := origin;
        chunks := chunks + [Chunk(text.value, embedding.value)];
        origin := origin + [SetOf(ckIdx)];
        assert origin[..end] == before[..end];
        appended := true;
      } else {
        errorCount := errorCount + 1;
        raised := errorCount >= maxErrors;
      }
    }

    /** `asyncio.gather` over the tasks of a layer: at every step some unfinished task advances.  Whatever the
        order, tasks only append past `end`, so what each of them reads is the layer as it was; and the
        summaries that appear are, in order of completion, those of distinct clusters. */
    method RunTasks(clusters: seq<seq<nat>>) returns (raised: bool, ghost order: seq<nat>)
      requires Settled() && forall c | 0 <= c < |clusters| :: clusters[c] != [] && forall x | x in clusters[c] :: start <= x < end
      modifies this`chunks, this`origin, this`errorCount, this`looks, this`asked
      ensures Valid() && old(chunks) <= chunks && old(origin) <= origin && Completed(order, clusters, origin[end..])
      ensures looks >= old(looks) && errorCount >= old(errorCount)
      ensures raised <==> Noticed(old(looks), looks) || (errorCount > old(errorCount) && errorCount >= maxErrors)
      ensures !raised ==> |order| + (errorCount - old(errorCount)) == |clusters|
    {
      hide Built, Grounded, Narrowing, Completed, Holds, Remaining, OverCount, Noticed, AllOver, AllHold;
      var tasks: seq<Task> := seq(|clusters|, i => Created);
      var left := 2 * |clusters|;
      AllCreated(|clusters|);
      NoneOver(|clusters|);
      order := [];
      raised := false;
      NoneCompleted(clusters);
      assert origin[end..] == [];
      NothingNoticed(looks);
      NoneReading(clusters, chunks);
      while left > 0
        invariant |tasks| == |clusters| && left == Remaining(tasks)
        invariant Valid() && old(chunks) <= chunks && old(origin) <= origin && end == old(|chunks|)
        invariant Completed(order, clusters, origin[end..]) && AllOver(order, tasks)
        invariant AllHold(tasks, clusters, old(chunks))
        invariant looks >= old(looks) && errorCount >= old(errorCount) && !raised
        invariant !Noticed(old(looks), looks) && (errorCount > old(errorCount) ==> errorCount < maxErrors)
        invariant |order| + (errorCount - old(errorCount)) == OverCount(tasks)
        decreases left
      {
        SomeTask(tasks);
        var c: nat :| c < |tasks| && !tasks[c].Over?;
        assert clusters[c] != [] && forall x | x in clusters[c] :: start <= x < end;
        if tasks[c].Created? {
          ghost var l0 := looks;
          raised := Look();
          NoticedMore(old(looks), l0);
          if raised { return; }
          assert forall k | 0 <= k < |clusters[c]| :: clusters[c][k] in clusters[c];
          var texts := ReadTexts(clusters[c]);
          assert Holds(texts, clusters[c], old(chunks)) by { HoldsBefore(texts, clusters[c], old(chunks), chunks); }
          RemainingStep(tasks, c, Reading(texts));
          OverStep(tasks, c, Reading(texts));
          HoldStep(tasks, clusters, old(chunks), c, Reading(texts));
          OverMore(order, tasks, c, Reading(texts));
          tasks := tasks[c := Reading(texts)];
        } else {
          HeldBy(tasks, clusters, old(chunks), c);
          OverMore(order, tasks, c, Over);
          HoldStep(tasks, clusters, old(chunks), c, Over);
          ghost var was := origin;
          ghost var before := origin[end..];
          assert chunks[..end] == old(chunks);
          ghost var l0 := looks;
          var appended;
          raised, appended := FinishTask(clusters[c], tasks[c].texts);
          NoticedSplit(old(looks), l0, looks);
          if appended {
            CompletedMore(order, clusters, before, c);
            order := order + [c];
            RestGrows(was, origin, end, SetOf(clusters[c]));
          } else {
            assert origin[end..] == before;
          }
          RemainingStep(tasks, c, Over);
          OverStep(tasks, c, Over);
          tasks := tasks[c := Over];
          if raised { return; }
        }
        left := left - 1;
      }
      AllFinished(tasks);
    }

    /** The pair branch: two chunks are summarised without clustering. */
    method SummarizePair() returns (raised: bool)
      requires Settled() && end - start == 2
      modifies this
      ensures labelings == old(labelings) && looks >= old(looks) && errorCount >= old(errorCount)
      ensures raised <==> Noticed(old(looks), looks) || (errorCount > old(errorCount) && errorCount >= maxErrors)
      ensures !raised ==> Settled() && old(chunks) <= chunks && layers[..|layers| - 1] == old(layers)
      ensures !raised ==> errorCount - old(errorCount) == 1 - (end - start) && end - start <= 1
    {
      hide Built, Grounded, Narrowing, Noticed, Partition, Holds, SetOf;
      ghost var l0 := looks;
      raised := Look();
      NothingNoticed(l0);
      NoticedMore(l0, l0);
      if raised { return; }
      ghost var l1 := looks;
      var appended;
      var pair := [start, start + 1];
      var texts := ReadTexts(pair);
      assert chunks[..end] == chunks;
      raised, appended := FinishTask(pair, texts);
      NoticedSplit(l0, l1, looks);
      if raised { return; }
      if appended {
        assert origin[end..] == [SetOf(pair)];
        PairPartition(start);
      }
      CloseLayer();
    }

    /** `layers.append((end, len(chunks)))`, and the next layer begins. */
    method CloseLayer()
      requires Valid() && (end < |chunks| ==> Partition(origin[end..], start, end))
      requires |chunks| - end < end - start && |chunks| - end < Cap() && end - start > 1
      modifies this`layers, this`start, this`end
      ensures Settled() && layers == old(layers) + [(old(end), |chunks|)]
      ensures start == old(end) && end == |chunks|
    {
      ghost var before := layers;
      layers := layers + [(end, |chunks|)];
      LayerAdded(before, origin, start, end);
      start := end;
      end := |chunks|;
      assert origin[..end] == origin;
      forall k | 1 <= k < |layers| ensures Narrows(layers, Cap(), k) {
        if k < |before| { assert Narrows(before, Cap(), k); }
      }
    }

    /** Why the general branch raises: a cancellation, a limit of at most one cluster, a labeling that is not complete, or
        a task that failed. */
    ghost predicate Trouble(looks0: nat, errors0: nat, labelings0: seq<Labeling>)
      reads this
    {
      || Noticed(looks0, looks) || maxCluster <= 1 || errorCount > errors0
      || (labelings0 <= labelings && !AllComplete(labelings[|labelings0|..]))
    }

    /** The looks at the cancel flag while candidate counts are tried. */
    method TryCounts(bound: nat) returns (raised: bool)
      modifies this`looks
      ensures looks >= old(looks) && (raised <==> Noticed(old(looks), looks))
    {
      raised := false;
      for n := 1 to if bound < 1 then 1 else bound
        invariant looks >= old(looks) && !Noticed(old(looks), looks) && !raised
      {
        ghost var l0 := looks;
        raised := Look();
        if raised { assert flag(l0); return; }
      }
    }

    /** The members of every cluster; the code insists that there are some. */
    method Gather(l: Labeling) returns (raised: bool, clusters: seq<seq<nat>>)
      requires |l.labels| == l.width
      modifies this`looks
      ensures looks >= old(looks) && (raised <==> Noticed(old(looks), looks) || !Complete(l))
      ensures !raised ==> |clusters| == l.n && forall k | 0 <= k < l.n :: clusters[k] == Members(l.labels, k, start) != []
    {
      raised, clusters := false, [];
      for c := 0 to l.n
        invariant |clusters| == c && forall k | 0 <= k < c :: clusters[k] == Members(l.labels, k, start) != [] && k in l.labels
        invariant looks >= old(looks) && !Noticed(old(looks), looks) && !raised
      {
        var ckIdx := Members(l.labels, c, start);
        MembersExist(l.labels, c, start);
        if ckIdx == [] { return true, clusters; }
        ghost var l0 := looks;
        raised := Look();
        if raised { assert flag(l0); return; }
        clusters := clusters + [ckIdx];
      }
    }

    /** The clustering of a layer. */
    method Cluster(width: nat) returns (raised: bool, l: Labeling)
      requires width > 2
      modifies this`looks, this`labelings
      ensures looks >= old(looks) && old(labelings) <= labelings
      ensures raised <==> Noticed(old(looks), looks) || maxCluster <= 1 || |l.labels| != l.width
      ensures !raised ==> l.width == width && 1 <= l.n < width && l.n < maxCluster && forall i | 0 <= i < width :: l.labels[i] < l.n
      ensures labelings == old(labelings) || labelings == old(labelings) + [l]
      ensures !Noticed(old(looks), looks) && maxCluster > 1 ==> labelings == old(labelings) + [l]
    {
      l := Labeling(0, [], 0);
      var bound := if maxCluster < width then maxCluster else width;
      raised := TryCounts(bound);
      if raised { return; }
      if bound <= 1 { return true, l; }  // the argmin of no scores raises
      var n: nat :| 1 <= n < bound;
      var lbls := ChooseLabels(width, n);
      l := Labeling(n, lbls, width);
      labelings := labelings + [l];
      raised := |lbls| != width;  // a row without a probability above the threshold raises
    }

    /** The general branch: cluster, summarise every cluster, and insist that every one gave a summary. */
    method ClusterLayer() returns (raised: bool)
      requires Settled() && end - start > 2
      modifies this
      ensures looks >= old(looks) && errorCount >= old(errorCount) && old(labelings) <= labelings
      ensures raised <==> Trouble(old(looks), old(errorCount), old(labelings))
      ensures !raised ==> Settled() && old(chunks) <= chunks && layers[..|layers| - 1] == old(layers)
      ensures !raised ==> 0 < end - start < old(end - start) && end - start < maxCluster
    {
      hide Built, Grounded, Narrowing, Noticed, Complete, Partition, Completed;
      var l;
      raised, l := Cluster(end - start);
      OneMore(old(labelings), labelings, l);
      if raised { return; }
      var clusters;
      ghost var l1 := looks;
      raised, clusters := Gather(l);
      NoticedSplit(old(looks), l1, looks);
      if raised { return; }
      forall c, x | 0 <= c < |clusters| && x in clusters[c] ensures start <= x < end { MembersAre(l.labels, c, start); }
      ghost var order;
      ghost var l2 := looks;
      raised, order := RunTasks(clusters);
      NoticedSplit(old(looks), l2, looks);
      CompletedCount(order, clusters, origin[end..]);
      if raised || |chunks| - end != l.n { return true; }
      assert forall c: nat | c < l.n :: Members(l.labels, c, start) != [];
      CompletedParts(order, clusters, origin[end..], l, start);
      CloseLayer();
    }

    lemma {:induction false} NoticedMore(a: nat, b: nat)
      requires a <= b
      ensures Noticed(a, b + 1) <==> Noticed(a, b) || flag(b)
    {
    }

    lemma {:induction false} NothingNoticed(a: nat)
      ensures !Noticed(a, a)
    {
    }

    lemma {:induction false} NoticedSplit(a: nat, b: nat, c: nat)
      requires a <= b <= c
      ensures Noticed(a, c) <==> Noticed(a, b) || Noticed(b, c)
    {
    }

    /** Hard labels in 0..n, or a shorter list where the code raises. */
    method ChooseLabels(width: nat, n: nat) returns (lbls: seq<nat>)
      requires n >= 1
      ensures |lbls| <= width && forall i | 0 <= i < |lbls| :: lbls[i] < n
      ensures n == 1 ==> |lbls| == width
    {
      lbls := [];
      for i := 0 to width
        invariant |lbls| == i && forall k | 0 <= k < i :: lbls[k] < n
      {
        var lbl: nat := 0;
        if n > 1 {
          var none: bool := *;
          if none { return; }
          lbl :| lbl < n;
        }
        lbls := lbls + [lbl];
      }
    }

    /** One turn of the layer loop. */
    method NextLayer() returns (raised: bool)
      requires Settled() && end - start > 1
      modifies this
      ensures looks >= old(looks) && errorCount >= old(errorCount) && old(labelings) <= labelings
      ensures raised ==>
        || Noticed(old(looks), looks) || (maxCluster <= 1 && old(end - start) > 2) || errorCount > old(errorCount)
        || !AllComplete(labelings[|old(labelings)|..])
      ensures !raised ==>
        && Settled() && old(chunks) <= chunks && layers[..|layers| - 1] == old(layers) && end - start < old(end - start)
        && !Noticed(old(looks), looks) && AllComplete(labelings[|old(labelings)|..])
        && (old(end - start) > 2 ==> maxCluster > 1 && errorCount == old(errorCount))
        && (errorCount == old(errorCount) || (errorCount == old(errorCount) + 1 < maxErrors && start == end))
    {
      hide Built, Grounded, Narrowing, Noticed, AllComplete;
      ghost var l0, labelings0 := looks, labelings;
      raised := Look();
      NoticedMore(l0, l0);
      NothingNoticed(l0);
      if raised { return; }
      ghost var l1 := looks;
      assert labelings[|labelings0|..] == [];
      NoneMissing();
      if end - start == 2 {
        raised := SummarizePair();
        assert labelings[|labelings0|..] == [];
      } else {
        raised := ClusterLayer();
      }
      NoticedSplit(l0, l1, looks);
    }

    /** `__call__`.  A successful call on more than one chunk returns layers that tile the chunks, start with the input
        chunks that have a text and an embedding, in order, are each built from a partition of the one below, and stay
        within the size bound.  It raises only if a cancellation was seen, a task failed, a labeling was not complete, or
        clusters were needed and the limit is at most one; and whenever one of these is so, save for one failed task that
        was to summarise the last two chunks: that leaves an empty layer, unless the errors have reached their limit. */
    method Call(input: seq<Input>) returns (r: Outcome, ghost at: seq<nat>)
      modifies this
      ensures |input| <= 1 ==> r == Returned([], [])
      ensures looks >= old(looks) && errorCount >= old(errorCount) && old(labelings) <= labelings
      ensures |input| > 1 && r.Returned? ==>
        && Settled() && r.chunks == chunks && r.layers == layers && end - start <= 1
        && |at| <= |r.chunks| && Selected(input, r.chunks[..|at|], at) && r.layers[0] == (0, |at|)
        && Built(r.layers, origin) && Grounded(origin) && |origin| == |r.chunks| && Narrowing(r.layers, Cap())
        && (maxCluster >= 2 ==> |r.layers| <= maxCluster && 2 * (|r.chunks| - |at|) <= maxCluster * (maxCluster - 1))
      ensures |input| > 1 ==> Selected(input, Usable(input), at)
      ensures |input| > 1 && r.Raised? ==>
        || Noticed(old(looks), looks) || (maxCluster <= 1 && |at| > 2) || errorCount > old(errorCount)
        || !AllComplete(labelings[|old(labelings)|..])
      ensures |input| > 1 && r.Returned? ==>
        && !Noticed(old(looks), looks) && (maxCluster <= 1 ==> |at| <= 2) && AllComplete(labelings[|old(labelings)|..])
        && (errorCount == old(errorCount) || (errorCount == old(errorCount) + 1 < maxErrors && start == end))
    {
      hide Selected, Usable, Built, Grounded, Noticed, AllComplete;
      at := [];
      if |input| <= 1 { return Returned([], []), at; }
      chunks := Usable(input);
      at := UsableSelected(input);
      var n := |chunks|;
      layers := [(0, n)];
      start, end := 0, n;
      origin := seq(n, i => {});
      assert origin[..end] == origin;
      assert labelings[|old(labelings)|..] == [];
      NothingNoticed(looks);
      AllInput(n);
      NoneMissing();
      while end - start > 1
        invariant Settled() && n == |Usable(input)| && Usable(input) <= chunks && layers[0] == (0, n)
        invariant (|layers| == 1 ==> end - start == n) && (maxCluster <= 1 && n > 2 ==> |layers| == 1)
        invariant looks >= old(looks) && !Noticed(old(looks), looks)
        invariant old(labelings) <= labelings && AllComplete(labelings[|old(labelings)|..])
        invariant errorCount == old(errorCount) || (errorCount == old(errorCount) + 1 < maxErrors && start == end)
        decreases end - start
      {
        ghost var l1, labelings1 := looks, labelings;
        var raised := NextLayer();
        NoticedSplit(old(looks), l1, looks);
        LabelingsGrow(old(labelings), labelings1, labelings);
        if raised { return Raised, at; }
        assert layers[..|layers| - 1][0] == layers[0];
      }
      assert origin[..end] == origin;
      assert chunks[..n] == Usable(input);
      BuiltTiles(layers, origin);
      if maxCluster >= 2 { SizeBound(layers, |chunks|, maxCluster); }
      return Returned(chunks, layers), at;
    }
  }

  lemma {:induction false} OneMore(a: seq<Labeling>, b: seq<Labeling>, l: Labeling)
    requires b == a || b == a + [l]
    ensures a <= b && (b == a + [l] ==> (AllComplete(b[|a|..]) <==> Complete(l))) && (b == a ==> AllComplete(b[|a|..]))
    ensures |l.labels| != l.width ==> !Complete(l)
  {
    assert b == a + [l] ==> b[|a|..] == [l] && [l][0] == l;
  }

  lemma {:induction false} CompletedCount(order: seq<nat>, clusters: seq<seq<nat>>, summaries: seq<set<nat>>)
    requires Completed(order, clusters, summaries)
    ensures |order| == |summaries|
  {
  }

  /** With a summary of every cluster, the summaries partition the layer. */
  lemma {:induction false} CompletedParts(order: seq<nat>, clusters: seq<seq<nat>>, summaries: seq<set<nat>>, l: Labeling, start: nat)
    requires Completed(order, clusters, summaries) && |summaries| == |clusters| == l.n && |l.labels| == l.width
    requires forall i | 0 <= i < |l.labels| :: l.labels[i] < l.n
    requires forall k | 0 <= k < l.n :: clusters[k] == Members(l.labels, k, start) != []
    ensures Partition(summaries, start, start + l.width)
  {
    hide Partition, Members;
    LabelsPartition(l.labels, l.n, start, order, summaries);
  }

  lemma {:induction false} NoneMissing()
    ensures AllComplete([])
  {
  }

  lemma {:induction false} BuiltTiles(layers: seq<Interval>, origin: seq<set<nat>>)
    requires Built(layers, origin)
    ensures Tiles(layers, |origin|)
  {
  }

  /** The input alone is a tree of one layer. */
  lemma {:induction false} AllInput(n: nat)
    ensures var origin: seq<set<nat>> := seq(n, i => {}); Built([(0, n)], origin) && Grounded(origin)
  {
  }

  lemma {:induction false} LabelingsGrow(a: seq<Labeling>, b: seq<Labeling>, c: seq<Labeling>)
    requires a <= b <= c && AllComplete(b[|a|..])
    ensures a <= c && (AllComplete(c[|a|..]) <==> AllComplete(c[|b|..]))
  {
    assert c[|a|..] == b[|a|..] + c[|b|..];
  }
}
