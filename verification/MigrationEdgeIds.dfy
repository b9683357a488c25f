/** The ids of edges: replacing a text everywhere, and the order in which the ids are replaced. */
module MigrationEdgeIds {
  import opened Migration

  // ---------------------------------------------------------------- replacing

  /** The parts with `sep` between them. */
  function Joined(parts: seq<string>, sep: string): string
    requires parts != []
  {
    if |parts| == 1 then parts[0] else parts[0] + (sep + Joined(parts[1..], sep))
  }

  predicate At(part: string, s: string, i: nat) { i + |part| <= |s| && s[i..i + |part|] == part }

  /** From the beginning of part k on, `sep` first occurs behind that part, if at all. */
  predicate CutAt(parts: seq<string>, sep: string, k: nat)
    requires k < |parts|
  {
    forall i | 0 <= i < |parts[k]| :: !At(sep, Joined(parts[k..], sep), i)
  }

  /** `s` is cut at the occurrences of `sep`, the leftmost first. */
  predicate Cut(s: string, parts: seq<string>, sep: string) {
    parts != [] && s == Joined(parts, sep) && forall k | 0 <= k < |parts| :: CutAt(parts, sep, k)
  }

  lemma {:induction false} CutCons(s: string, p: string, rest: seq<string>, sep: string)
    requires Cut(s, rest, sep)
    requires forall i | 0 <= i < |p| :: !At(sep, p + (sep + s), i)
    ensures Cut(p + (sep + s), [p] + rest, sep)
  {
    hide At;
    var parts := [p] + rest;
    assert parts[1..] == rest && parts[0..] == parts;
    forall k | 0 <= k < |parts| ensures CutAt(parts, sep, k) {
      if k > 0 {
        assert parts[k..] == rest[k - 1..];
        assert CutAt(rest, sep, k - 1);
      }
    }
  }

  lemma {:induction false} CutGrows(s: string, c: char, rest: seq<string>, sep: string)
    requires Cut(s, rest, sep) && !At(sep, [c] + s, 0)
    ensures Cut([c] + s, [[c] + rest[0]] + rest[1..], sep)
  {
    var parts := [[c] + rest[0]] + rest[1..];
    GrownJoined(c, rest, sep);
    assert parts[0..] == parts && rest[0..] == rest;
    forall k | 0 <= k < |parts| ensures CutAt(parts, sep, k) {
      if k == 0 {
        forall i | 0 <= i < |parts[0]| ensures !At(sep, [c] + s, i) {
          if i > 0 { assert CutAt(rest, sep, 0) && !At(sep, s, i - 1); AtShifted(sep, c, s, i); }
        }
      } else {
        assert parts[k..] == rest[k..];
        assert CutAt(rest, sep, k);
      }
    }
  }

  lemma {:induction false} AtShifted(part: string, c: char, s: string, i: nat)
    requires i > 0
    ensures At(part, [c] + s, i) <==> At(part, s, i - 1)
  {
    if i + |part| <= |s| + 1 { assert ([c] + s)[i..i + |part|] == s[i - 1..i - 1 + |part|]; }
  }

  lemma {:induction false} GrownJoined(c: char, rest: seq<string>, sep: string)
    requires rest != []
    ensures Joined([[c] + rest[0]] + rest[1..], sep) == [c] + Joined(rest, sep)
  {
    var parts := [[c] + rest[0]] + rest[1..];
    assert parts[1..] == rest[1..];
  }

  /** `s.replace(old, new)`: cut at the occurrences of the old text, leftmost first and not overlapping, and joined
      again with the new one. */
  lemma {:induction false} ReplaceIs(s: string, old_: string, new_: string) returns (parts: seq<string>)
    requires old_ != ""
    ensures Cut(s, parts, old_) && Replace(s, old_, new_) == Joined(parts, new_)
    decreases |s|
  {
    hide CutAt, At;
    if |s| < |old_| {
      parts := [s];
      WholeCut(s, old_);
    } else if s[..|old_|] == old_ {
      var rest := ReplaceIs(s[|old_|..], old_, new_);
      parts := [""] + rest;
      assert parts[1..] == rest;
      assert s == "" + (old_ + s[|old_|..]);
      CutCons(s[|old_|..], "", rest, old_);
      assert "" + (new_ + Joined(rest, new_)) == new_ + Joined(rest, new_);
    } else {
      var rest := ReplaceIs(s[1..], old_, new_);
      parts := [[s[0]] + rest[0]] + rest[1..];
      assert s == [s[0]] + s[1..];
      NotAtHead(s, old_);
      CutGrows(s[1..], s[0], rest, old_);
      GrownJoined(s[0], rest, new_);
    }
  }

  lemma {:induction false} WholeCut(s: string, sep: string)
    requires |s| < |sep|
    ensures Cut(s, [s], sep)
  {
    assert [s][0..] == [s];
  }

  lemma {:induction false} NotAtHead(s: string, part: string)
    requires |part| <= |s| && s[..|part|] != part
    ensures !At(part, s, 0)
  {
  }

  // ---------------------------------------------------------------- the order of the replacements

  function OfLength(n: nat, ids: seq<string>): seq<string> {
    if ids == [] then [] else (if |ids[0]| == n then [ids[0]] else []) + OfLength(n, ids[1..])
  }

  predicate Descending(ids: seq<string>) { forall i, j | 0 <= i < j < |ids| :: |ids[i]| >= |ids[j]| }

  lemma {:induction false} InsertKeepsOrder(x: string, ids: seq<string>)
    requires Descending(ids)
    ensures Descending(Insert(x, ids)) && forall y | y in Insert(x, ids) :: y == x || y in ids
    decreases |ids|
  {
    if ids != [] && |ids[0]| > |x| {
      var r := Insert(x, ids[1..]);
      InsertKeepsOrder(x, ids[1..]);
      var all := [ids[0]] + r;
      forall i, j | 0 <= i < j < |all| ensures |all[i]| >= |all[j]| {
        if i == 0 { assert all[j] == r[j - 1] && r[j - 1] in r; }
      }
    }
  }

  lemma {:induction false} OfLengthCons(n: nat, x: string, ids: seq<string>)
    ensures OfLength(n, [x] + ids) == (if |x| == n then [x] else []) + OfLength(n, ids)
  {
    assert ([x] + ids)[1..] == ids;
  }

  lemma {:induction false} InsertKeepsLengths(x: string, ids: seq<string>, n: nat)
    ensures OfLength(n, Insert(x, ids)) == OfLength(n, [x] + ids)
    decreases |ids|
  {
    if ids != [] && |ids[0]| > |x| {
      hide OfLength;
      var y, rest := ids[0], ids[1..];
      InsertKeepsLengths(x, rest, n);
      OfLengthCons(n, y, Insert(x, rest));
      OfLengthCons(n, x, rest);
      OfLengthCons(n, y, rest);
      assert ids == [y] + rest;
      OfLengthCons(n, x, ids);
      var a, b, c := if |x| == n then [x] else [], if |y| == n then [y] else [], OfLength(n, rest);
      assert b + (a + c) == a + (b + c);
    }
  }

  /** Longest first, ids of one length in their order: nothing else is a sorting of `ids`. */
  lemma {:induction false} LongestIs(ids: seq<string>, n: nat)
    ensures Descending(Longest(ids)) && OfLength(n, Longest(ids)) == OfLength(n, ids)
    decreases |ids|
  {
    if ids != [] {
      var r := Longest(ids[1..]);
      LongestIs(ids[1..], n);
      InsertKeepsOrder(ids[0], r);
      InsertKeepsLengths(ids[0], r, n);
      OfLengthCons(n, ids[0], r);
    }
  }
}
