/** Merging generated metadata into a document's metadata. */
module MetaUpdate {
  import opened Options

  /** A metadata value: a list, or anything else; every item has its text, Python's `str`. */
  datatype Item = Text(text: string) | Thing(handle: nat, text: string)

  datatype Value = One(item: Item) | Many(items: seq<Item>)

  /** What the generated dictionary may hold under a key. */
  datatype Update = Entry(key: string, value: Value)

  predicate HasText(items: seq<Item>, t: string) { exists i | 0 <= i < |items| :: items[i].text == t }

  /** No two items with the same text. */
  predicate AllDistinct(items: seq<Item>) { forall i, j | 0 <= i < j < |items| :: items[i].text != items[j].text }

  /** First occurrences only, in order. */
  function Dedupe(items: seq<Item>): (r: seq<Item>)
    ensures AllDistinct(r) && (forall t :: HasText(r, t) <==> HasText(items, t))
  {
    if items == [] then []
    else
      var r, x := Dedupe(items[..|items| - 1]), items[|items| - 1];
      assert forall t :: HasText(items, t) <==> HasText(items[..|items| - 1], t) || x.text == t by {
        HasSnoc(items[..|items| - 1], x);
        assert items == items[..|items| - 1] + [x];
      }
      if HasText(r, x.text) then r
      else
        HasSnoc(r, x);
        r + [x]
  }

  lemma {:induction false} HasSnoc(items: seq<Item>, x: Item)
    ensures forall t :: HasText(items + [x], t) <==> HasText(items, t) || x.text == t
  {
    forall t ensures HasText(items + [x], t) <==> HasText(items, t) || x.text == t {
      var l := items + [x];
      if x.text == t { assert l[|items|].text == t; }
      if HasText(items, t) {
        var i :| 0 <= i < |items| && items[i].text == t;
        assert l[i].text == t;
      }
      if HasText(l, t) && x.text != t {
        var i :| 0 <= i < |l| && l[i].text == t;
        assert items[i].text == t;
      }
    }
  }

  /** `dedupe_list` */
  method DedupeList(values: seq<Item>) returns (deduped: seq<Item>)
    ensures deduped == Dedupe(values)
  {
    var seen: set<string> := {};
    deduped := [];
    for i := 0 to |values|
      invariant deduped == Dedupe(values[..i]) && forall t :: t in seen <==> HasText(deduped, t)
    {
      assert values[..i + 1][..i] == values[..i];
      var key := values[i].text;
      if key in seen { continue; }
      seen := seen + {key};
      HasSnoc(deduped, values[i]);
      deduped := deduped + [values[i]];
    }
    assert values[..|values|] == values;
  }

  // ---------------------------------------------------------------- merging

  function Texts(items: seq<Item>): seq<Item> {
    if items == [] then [] else (if items[0].Text? then [items[0]] else []) + Texts(items[1..])
  }

  /** The value an update entry contributes, if any: a string, or the distinct strings of a list with some. */
  function Contribution(v: Value): Option<Value> {
    match v
    case One(x) => if x.Text? then Some(v) else None
    case Many(items) => if Texts(items) == [] then None else Some(Many(Dedupe(Texts(items))))
  }

  function ItemsOf(v: Value): seq<Item> { if v.Many? then v.items else [v.item] }

  function Merged(before: Option<Value>, v: Value): Value {
    match before
    case None => v
    case Some(One(_)) => v
    case Some(Many(items)) => Many(Dedupe(items + ItemsOf(v)))
  }

  function Lookup(m: map<string, Value>, k: string): Option<Value> { if k in m then Some(m[k]) else None }

  function ApplyEntry(m: map<string, Value>, u: Update): map<string, Value> {
    var c := Contribution(u.value);
    if c.None? then m else m[u.key := Merged(Lookup(m, u.key), c.value)]
  }

  function ApplyAll(m: map<string, Value>, us: seq<Update>): map<string, Value>
    decreases |us|
  {
    if us == [] then m else ApplyAll(ApplyEntry(m, us[0]), us[1..])
  }

  /** The loop of `update_metadata_to`, on a dictionary of updates. */
  method UpdateMetadata(m0: map<string, Value>, us: seq<Update>) returns (metadata: map<string, Value>)
    ensures metadata == ApplyAll(m0, us)
  {
    hide Dedupe, Texts;
    metadata := m0;
    for i := 0 to |us|
      invariant ApplyAll(m0, us) == ApplyAll(metadata, us[i..])
    {
      assert us[i..][1..] == us[i + 1..];
      var k, v := us[i].key, us[i].value;
      if v.Many? {
        var strings := Texts(v.items);
        if strings == [] { continue; }
        var d := DedupeList(strings);
        v := Many(d);
      } else if !v.item.Text? {
        continue;
      }
      if k !in metadata {
        metadata := metadata[k := v];
      } else if metadata[k].Many? {
        var items := metadata[k].items + if v.Many? then v.items else [v.item];
        var d := DedupeList(items);
        metadata := metadata[k := Many(d)];
      } else {
        metadata := metadata[k := v];
      }
    }
  }

  /** What generation returns: nothing, a text that has yet to be repaired and parsed, a dictionary, or anything else. */
  datatype Meta = Nothing | Raw(text: string) | Dictionary(updates: seq<Update>) | Another

  /** The repair and parsing of a text; None where it raises. */
  type Parser = string -> Option<Meta>

  /** The dictionary of updates there is in what generation returned, if any. */
  function UpdatesOf(parse: Parser, meta: Meta): seq<Update> {
    var m := if meta.Raw? && meta.text != "" then parse(meta.text) else Some(meta);
    if m.Some? && m.value.Dictionary? then m.value.updates else []
  }

  /** `update_metadata_to` */
  method UpdateMetadataTo(parse: Parser, metadata: map<string, Value>, meta: Meta) returns (r: map<string, Value>)
    ensures r == ApplyAll(metadata, UpdatesOf(parse, meta))
  {
    var m := meta;
    if m.Nothing? || m == Raw("") { return metadata; }
    if m.Raw? {
      var parsed := parse(m.text);
      if parsed.None? { return metadata; }
      m := parsed.value;
    }
    if !m.Dictionary? { return metadata; }
    r := UpdateMetadata(metadata, m.updates);
  }

  predicate DistinctKeys(us: seq<Update>) { forall i, j | 0 <= i < j < |us| :: us[i].key != us[j].key }

  // ---------------------------------------------------------------- idempotence

  lemma {:induction false} DedupeSnoc(items: seq<Item>, x: Item)
    ensures Dedupe(items + [x]) == if HasText(items, x.text) then Dedupe(items) else Dedupe(items) + [x]
  {
    hide HasText;
    var l := items + [x];
    assert l[..|l| - 1] == items && l[|l| - 1] == x;
  }

  lemma {:induction false} LastDiffers(items: seq<Item>, x: Item)
    requires AllDistinct(items + [x])
    ensures !HasText(items, x.text) && AllDistinct(items)
  {
    var l := items + [x];
    assert l[|items|] == x;
    forall i | 0 <= i < |items| ensures items[i].text != x.text && l[i] == items[i] { assert l[i].text != l[|items|].text; }
  }

  lemma {:induction false} DedupeIdle(items: seq<Item>)
    requires AllDistinct(items)
    ensures Dedupe(items) == items
    decreases |items|
  {
    hide HasText, Dedupe, AllDistinct;
    if items == [] {
      DedupeNothing();
    } else {
      var n := |items| - 1;
      var r, x := items[..n], items[n];
      assert items == r + [x];
      LastDiffers(r, x);
      DedupeIdle(r);
      DedupeSnoc(r, x);
    }
  }

  lemma {:induction false} DedupeNothing()
    ensures Dedupe([]) == []
  {
  }

  /** Items whose texts are there already add nothing. */
  lemma {:induction false} DedupeAbsorbs(items: seq<Item>, more: seq<Item>)
    requires AllDistinct(items) && forall x | x in more :: HasText(items, x.text)
    ensures Dedupe(items + more) == items
    decreases |more|
  {
    if more == [] {
      assert items + more == items;
      DedupeIdle(items);
    } else {
      var r, x := more[..|more| - 1], more[|more| - 1];
      DedupeAbsorbs(items, r);
      assert (items + more)[..|items + more| - 1] == items + r;
      assert x in more;
    }
  }

  lemma {:induction false} MemberHasText(items: seq<Item>, more: seq<Item>, x: Item)
    requires x in more
    ensures HasText(items + more, x.text)
  {
    var i :| 0 <= i < |more| && more[i] == x;
    assert (items + more)[|items| + i] == x;
  }

  /** Merging the same value again changes nothing. */
  lemma {:induction false} MergedSettles(before: Option<Value>, u: Value)
    requires Contribution(u).Some?
    ensures var v := Contribution(u).value; Merged(Some(Merged(before, v)), v) == Merged(before, v)
  {
    hide Dedupe, Texts;
    var v := Contribution(u).value;
    var r := Merged(before, v);
    if r.Many? {
      var more := ItemsOf(v);
      forall x | x in more ensures HasText(r.items, x.text) {
        if before.Some? && before.value.Many? {
          MemberHasText(before.value.items, more, x);
        } else {
          MemberHasText([], more, x);
          assert [] + more == more;
        }
      }
      DedupeAbsorbs(r.items, more);
    }
  }

  /** What the whole update does to one key. */
  lemma {:induction false} AppliedAt(m: map<string, Value>, us: seq<Update>, k: string)
    requires DistinctKeys(us)
    ensures (forall i | 0 <= i < |us| :: us[i].key != k || Contribution(us[i].value).None?) ==>
              Lookup(ApplyAll(m, us), k) == Lookup(m, k)
    ensures forall i | 0 <= i < |us| && us[i].key == k && Contribution(us[i].value).Some? ::
              Lookup(ApplyAll(m, us), k) == Some(Merged(Lookup(m, k), Contribution(us[i].value).value))
    decreases |us|
  {
    hide Merged, Contribution;
    if us != [] {
      var rest := us[1..];
      forall i | 0 <= i < |rest| ensures rest[i] == us[i + 1] && rest[i].key != us[0].key {}
      assert DistinctKeys(rest) by {
        forall i, j | 0 <= i < j < |rest| ensures rest[i].key != rest[j].key { assert us[i + 1].key != us[j + 1].key; }
      }
      AppliedAt(ApplyEntry(m, us[0]), rest, k);
    }
  }

  lemma {:induction false} SettledAt(m: map<string, Value>, us: seq<Update>, k: string)
    requires DistinctKeys(us)
    ensures Lookup(ApplyAll(ApplyAll(m, us), us), k) == Lookup(ApplyAll(m, us), k)
  {
    hide Merged, Contribution, Lookup, ApplyAll;
    AppliedAt(m, us, k);
    AppliedAt(ApplyAll(m, us), us, k);
    if i :| 0 <= i < |us| && us[i].key == k && Contribution(us[i].value).Some? {
      MergedSettles(Lookup(m, k), us[i].value);
    }
  }

  /** Merging is idempotent: applying an update twice equals applying it once. */
  lemma {:induction false} UpdateIdempotent(m: map<string, Value>, us: seq<Update>)
    requires DistinctKeys(us)
    ensures ApplyAll(ApplyAll(m, us), us) == ApplyAll(m, us)
  {
    hide ApplyAll;
    var once := ApplyAll(m, us);
    var twice := ApplyAll(once, us);
    forall k ensures (k in twice <==> k in once) && (k in once ==> twice[k] == once[k]) {
      SettledAt(m, us, k);
    }
  }

  // ---------------------------------------------------------------- what is written

  /** No item before place `p` has the text of the item there. */
  predicate FirstAt(items: seq<Item>, p: nat) { p < |items| && !HasText(items[..p], items[p].text) }

  /** `kept` is what remains of `items` when every item is dropped whose text occurred before: `at` gives the places
      of the kept items, which are in order and are exactly the first occurrences. */
  ghost predicate FirstOccurrences(items: seq<Item>, kept: seq<Item>, at: seq<nat>) {
    |at| == |kept| &&
    (forall i | 0 <= i < |at| :: FirstAt(items, at[i]) && items[at[i]] == kept[i]) &&
    (forall i, j | 0 <= i < j < |at| :: at[i] < at[j]) &&
    (forall p | 0 <= p < |items| && FirstAt(items, p) :: p in at)
  }

  lemma {:induction false} FirstAtSnoc(items: seq<Item>, x: Item, p: nat)
    requires p <= |items|
    ensures FirstAt(items + [x], p) <==> if p < |items| then FirstAt(items, p) else !HasText(items, x.text)
    ensures (items + [x])[p] == if p < |items| then items[p] else x
  {
    hide HasText;
    assert (items + [x])[..p] == items[..p];
    if p == |items| { assert items[..p] == items; }
  }

  lemma {:induction false} FirstOccurrencesSnoc(items: seq<Item>, x: Item, kept: seq<Item>, at: seq<nat>)
    requires FirstOccurrences(items, kept, at)
    ensures if HasText(items, x.text) then FirstOccurrences(items + [x], kept, at)
            else FirstOccurrences(items + [x], kept + [x], at + [|items|])
  {
    hide HasText;
    forall p | 0 <= p <= |items|
      ensures FirstAt(items + [x], p) <==> if p < |items| then FirstAt(items, p) else !HasText(items, x.text)
      ensures (items + [x])[p] == if p < |items| then items[p] else x
    {
      FirstAtSnoc(items, x, p);
    }
    hide FirstAt;
    assert forall i | 0 <= i < |at| :: at[i] < |items|;
    if !HasText(items, x.text) {
      var at' := at + [|items|];
      assert at'[|at|] == |items|;
      forall p | 0 <= p < |items + [x]| && FirstAt(items + [x], p) ensures p in at' {}
    }
  }

  lemma {:induction false} DedupeKeepsFirsts(items: seq<Item>) returns (at: seq<nat>)
    ensures FirstOccurrences(items, Dedupe(items), at)
    decreases |items|
  {
    hide HasText, FirstOccurrences;
    if items == [] {
      at := [];
      NoOccurrences();
    } else {
      var n := |items| - 1;
      var was, x := items[..n], items[n];
      var before := DedupeKeepsFirsts(was);
      assert items == was + [x];
      assert HasText(Dedupe(was), x.text) <==> HasText(was, x.text);
      FirstOccurrencesSnoc(was, x, Dedupe(was), before);
      at := if HasText(was, x.text) then before else before + [n];
    }
  }

  lemma {:induction false} NoOccurrences()
    ensures FirstOccurrences([], [], [])
  {}

  /** The string at place `p`, when no earlier item is the same string. */
  predicate FirstStringAt(items: seq<Item>, p: nat) {
    p < |items| && items[p].Text? && forall q | 0 <= q < p :: items[q] != items[p]
  }

  predicate Place(at: seq<nat>, p: nat) { p in at }

  /** `kept` are the strings among `items`, each once and in the order of their first places `at`. */
  ghost predicate Strings(items: seq<Item>, kept: seq<Item>, at: seq<nat>) {
    && |at| == |kept|
    && (forall i | 0 <= i < |at| :: FirstStringAt(items, at[i]) && items[at[i]] == kept[i])
    && (forall i, j | 0 <= i < j < |at| :: at[i] < at[j])
    && (forall p | 0 <= p < |items| && FirstStringAt(items, p) :: Place(at, p))
  }

  lemma {:induction false} TextsSnoc(items: seq<Item>, x: Item)
    ensures Texts(items + [x]) == Texts(items) + if x.Text? then [x] else []
    decreases |items|
  {
    if items == [] {
      assert (items + [x])[1..] == [] && Texts([]) == [];
    } else {
      var l, rest := items + [x], items[1..];
      assert l[0] == items[0] && l[1..] == rest + [x];
      TextsSnoc(rest, x);
      var first, last := if items[0].Text? then [items[0]] else [], if x.Text? then [x] else [];
      assert first + (Texts(rest) + last) == (first + Texts(rest)) + last;
    }
  }

  lemma {:induction false} AllTexts(items: seq<Item>, t: string)
    ensures HasText(Texts(items), t) <==> Text(t) in items
    ensures Texts(items) == [] <==> forall p | 0 <= p < |items| :: !items[p].Text?
    decreases |items|
  {
    if items == [] {
      assert !HasText([], t);
    } else {
      hide HasText;
      var rest := items[1..];
      AllTexts(rest, t);
      assert items == [items[0]] + rest && [] + Texts(rest) == Texts(rest);
      assert forall p | 0 <= p < |rest| :: items[p + 1] == rest[p];
      if items[0].Text? { HasCons(items[0], Texts(rest), t); }
    }
  }

  lemma {:induction false} HasCons(x: Item, items: seq<Item>, t: string)
    ensures HasText([x] + items, t) <==> x.text == t || HasText(items, t)
  {
    var l := [x] + items;
    if x.text == t { assert l[0].text == t; }
    if i :| 0 <= i < |items| && items[i].text == t { assert l[i + 1].text == t; }
  }

  lemma {:induction false} FirstStringSnoc(items: seq<Item>, x: Item, p: nat)
    requires p <= |items|
    ensures FirstStringAt(items + [x], p) <==> if p < |items| then FirstStringAt(items, p) else x.Text? && x !in items
  {
    var l := items + [x];
    assert forall q | 0 <= q < |items| :: l[q] == items[q];
    if p < |items| { assert l[p] == items[p]; }
  }

  lemma {:induction false} StringsSnoc(items: seq<Item>, x: Item, kept: seq<Item>, at: seq<nat>)
    requires Strings(items, kept, at)
    ensures if x.Text? && x !in items then Strings(items + [x], kept + [x], at + [|items|]) else Strings(items + [x], kept, at)
  {
    forall p | 0 <= p <= |items|
      ensures FirstStringAt(items + [x], p) <==> if p < |items| then FirstStringAt(items, p) else x.Text? && x !in items
    {
      FirstStringSnoc(items, x, p);
    }
    assert forall i | 0 <= i < |at| :: at[i] < |items|;
    hide FirstStringAt;
    if x.Text? && x !in items {
      var at' := at + [|items|];
      assert at'[|at|] == |items|;
      forall p | 0 <= p < |items + [x]| && FirstStringAt(items + [x], p) ensures Place(at', p) {
        if p < |items| { assert Place(at, p); }
      }
    }
  }

  lemma {:induction false} DedupedStrings(items: seq<Item>) returns (at: seq<nat>)
    ensures Strings(items, Dedupe(Texts(items)), at)
    decreases |items|
  {
    hide Strings, Texts, Dedupe, HasText;
    if items == [] {
      at := [];
      NoStrings();
    } else {
      var n := |items| - 1;
      var was, x := items[..n], items[n];
      var before := DedupedStrings(was);
      assert items == was + [x];
      TextsSnoc(was, x);
      AllTexts(was, x.text);
      StringsSnoc(was, x, Dedupe(Texts(was)), before);
      at := if x.Text? && x !in was then before + [n] else before;
      if x.Text? { DedupeSnoc(Texts(was), x); } else { assert Texts(was) + [] == Texts(was); }
    }
  }

  lemma {:induction false} NoStrings()
    ensures Strings([], Dedupe(Texts([])), [])
  {
  }

  /** A value an update has nothing to take from: neither a string nor a list with one. */
  predicate Silent(v: Value) {
    match v
    case One(x) => !x.Text?
    case Many(items) => forall p | 0 <= p < |items| :: !items[p].Text?
  }

  /** What an update takes from a value: the string it is, or the strings in the list it is, each once. */
  ghost predicate Taken(v: Value, c: Value) {
    match v
    case One(x) => x.Text? && c == v
    case Many(items) => c.Many? && c.items != [] && exists at :: Strings(items, c.items, at)
  }

  lemma {:induction false} ContributionIs(v: Value)
    ensures Contribution(v).None? <==> Silent(v)
    ensures Contribution(v).Some? ==> Taken(v, Contribution(v).value)
  {
    hide Texts, Dedupe, Strings;
    if v.Many? {
      AllTexts(v.items, "");
      var at := DedupedStrings(v.items);
      if Texts(v.items) != [] { StaysNonEmpty(Texts(v.items)); }
    }
  }

  lemma {:induction false} StaysNonEmpty(items: seq<Item>)
    requires items != []
    ensures Dedupe(items) != []
  {
    assert HasText(items, items[0].text);
    assert HasText(Dedupe(items), items[0].text);
  }

  /** What the update leaves alone and what it writes.  A key without an update, or with one that has nothing to take,
      keeps its value; any other gets a list of distinct texts, the first occurrences in what it had followed by what
      was taken, or, where there was no list, what was taken. */
  lemma {:induction false} UpdateWrites(m: map<string, Value>, us: seq<Update>, k: string)
    requires DistinctKeys(us)
    ensures (forall i | 0 <= i < |us| :: us[i].key != k || Silent(us[i].value)) ==> Lookup(ApplyAll(m, us), k) == Lookup(m, k)
    ensures forall i | 0 <= i < |us| && us[i].key == k && !Silent(us[i].value) ::
              k in ApplyAll(m, us) && Writes(Lookup(m, k), us[i].value, ApplyAll(m, us)[k])
  {
    hide Dedupe, Texts, ApplyAll, Contribution, Silent, Writes;
    AppliedAt(m, us, k);
    forall i | 0 <= i < |us| ensures Contribution(us[i].value).None? <==> Silent(us[i].value) { ContributionIs(us[i].value); }
    forall i | 0 <= i < |us| && us[i].key == k && !Silent(us[i].value)
      ensures k in ApplyAll(m, us) && Writes(Lookup(m, k), us[i].value, ApplyAll(m, us)[k])
    {
      MergedWrites(Lookup(m, k), us[i].value);
    }
  }

  ghost predicate Writes(before: Option<Value>, v: Value, after: Value) {
    exists c :: Taken(v, c) && Written(before, c, after)
  }

  ghost predicate Written(before: Option<Value>, c: Value, after: Value) {
    if before.Some? && before.value.Many? then
      after.Many? && AllDistinct(after.items) && exists at :: FirstOccurrences(before.value.items + ItemsOf(c), after.items, at)
    else after == c && AllDistinct(ItemsOf(after))
  }

  lemma {:induction false} MergedWrites(before: Option<Value>, u: Value)
    requires Contribution(u).Some?
    ensures Writes(before, u, Merged(before, Contribution(u).value))
  {
    hide HasText, FirstOccurrences, Texts, Taken;
    var c := Contribution(u).value;
    ContributionIs(u);
    if before.Some? && before.value.Many? {
      var at := DedupeKeepsFirsts(before.value.items + ItemsOf(c));
    }
    assert Written(before, c, Merged(before, c));
  }
}
