/** Migrating a template and the canvas together does not change what the template renders to. */
module RenderingPreserved {
  import opened Options
  import opened Scanning
  import opened References
  import opened Rendering

  /** A match of the runtime pattern with its component renamed and the rest rewritten. */
  function Migrated(f: map<string, string>, r: Option<(Key, string)>): Option<(Key, string)> {
    if r.Some? then Some((RenamedKey(f, r.value.0), Rewrite(f, r.value.1))) else None
  }

  lemma {:induction false} TailStable(f: map<string, string>, t: string)
    ensures Tail(Rewrite(f, t)) == Rewrite(f, Tail(t))
  {
    hide Rewrite, MatchRef, Tail;
    var n := Span(NotOpen, t);
    var a, b := t[..n], t[n..];
    assert t == a + b;
    PassThrough(f, a, b);
    HeadKept(f, b);
    TailWithin(a, b);
    TailWithin(a, Rewrite(f, b));
    PassThrough(f, Tail(a), b);
  }

  lemma {:induction false} NoKeyHere(t: string)
    requires t != "" && (IsSpace(t[0]) || IsOpen(t[0]))
    ensures KeyAt(t) == None
  {
    hide IsSpace, IsVarChar, IsGlobalChar, Closed;
    KeyClasses();
    if |t| >= 4 {
      assert t[..4][0] == t[0];
      assert "sys."[0] == 's' && "env."[0] == 'e' && !IsSpace('s') && !IsSpace('e') by { LettersAreNoSpace(); }
    }
  }

  lemma {:induction false} LettersAreNoSpace()
    ensures !IsSpace('s') && !IsSpace('e')
  {
  }

  lemma {:induction false} KeyAtCase(t: string) returns (n: nat, k: nat)
    requires KeyAt(t).Some? && KeyAt(t).value.0.Output?
    ensures n == Span(IsKeyChar, t) && 0 < n < |t| && t[n] == '@' && k == Span(IsVarChar, t[n + 1..]) && k > 0
    ensures KeyAt(t) == Closed(Output(t[..n], t[n..][..k + 1]), t[n..][k + 1..])
  {
    hide IsKeyChar, IsVarChar, Closed, GlobalKey, Span;
    GlobalIsGlobal(t);
    n := Span(IsKeyChar, t);
    k := Span(IsVarChar, t[n + 1..]);
  }

  lemma {:induction false} KeyAtOutput(t: string)
    requires KeyAt(t).Some? && KeyAt(t).value.0.Output?
    ensures var k := KeyAt(t).value.0;
      && k.id != "" && All(IsKeyChar, k.id) && IsAttr(k.attr)
      && |k.id| + |k.attr| < |t| && t == k.id + (k.attr + t[|k.id| + |k.attr|..]) && t[|k.id| + |k.attr|] == '}'
  {
    hide IsKeyChar, IsVarChar, Closed, KeyAt, Span;
    var n, k := KeyAtCase(t);
    var id, attr, w := t[..n], t[n..][..k + 1], t[n..][k + 1..];
    ClosedBrace(Output(id, attr), w);
    assert IsAttr(attr) by { assert attr[1..] == t[n + 1..][..k]; }
    KeySplit(t, n, k);
  }

  lemma {:induction false} KeySplit(t: string, n: nat, k: nat)
    requires n + k < |t|
    ensures var id, attr, w := t[..n], t[n..][..k + 1], t[n..][k + 1..];
      |id| + |attr| == n + k + 1 && t == id + (attr + w) && t[n + k + 1..] == w
  {
  }

  lemma {:induction false} ClosedBrace(k: Key, w: string)
    ensures Closed(k, w).Some? ==> w != "" && w[0] == '}' && Closed(k, w).value.0 == k
  {
  }

  lemma {:induction false} GlobalIsGlobal(t: string)
    ensures GlobalKey(t).Some? ==> GlobalKey(t).value.0.Global?
  {
    hide IsGlobalChar, Tail;
  }

  lemma {:induction false} PlainMatch(braces: string, id: string, attr: string, w: string)
    requires braces != "" && All(IsOpen, braces) && id != "" && All(IsIdChar, id) && IsAttr(attr) && w != "" && w[0] == '}'
    ensures MatchRef(braces + (id + (attr + w))).Some?
  {
    hide IsSpace, IsIdChar, IsAttr, MatchRef;
    var c := Span(IsClose, w);
    var close, rest := w[..c], w[c..];
    var m := Match(braces, "", id, attr, "", close, rest);
    assert Shaped(m);
    hide Span, Shaped, All, Stops;
    assert w == close + rest && "" + w == w;
    assert m.Body() == id + (attr + w) && "" + m.Body() == m.Body();
    MatchRefIff(m.Text(), m);
  }

  /** A component reference the runtime sees behind braces is one the migration sees. */
  lemma {:induction false} KeyIsRef(braces: string, u: string)
    requires braces != "" && All(IsOpen, braces) && KeyAt(u).Some? && KeyAt(u).value.0.Output?
    ensures MatchRef(braces + u).Some?
  {
    hide IsKeyChar, IsIdChar, IsAttr, KeyAt, MatchRef, IsSpace;
    KeyAtOutput(u);
    KeyClasses();
    var k := KeyAt(u).value.0;
    PlainMatch(braces, k.id, k.attr, u[|k.id| + |k.attr|..]);
  }

  lemma {:induction false} RenamedClasses(f: map<string, string>, id: string)
    requires KeepsClasses(f) && id != "" && All(IsIdChar, id)
    ensures var id' := Renamed(f, id);
      id' != "" && All(IsIdChar, id') && (All(IsKeyChar, id') <==> All(IsKeyChar, id))
  {
  }

  /** The runtime pattern on a reference and on its rewriting. */
  lemma {:induction false} RefStable(f: map<string, string>, m: Match)
    requires Shaped(m) && KeepsClasses(f)
    ensures KeyAt(m.gap + m.(id := Renamed(f, m.id), rest := Rewrite(f, m.rest)).Body()) == Migrated(f, KeyAt(m.gap + m.Body()))
    ensures m.gap == "" && m.gap2 == "" && All(IsKeyChar, m.id) ==> KeyAt(m.Body()).Some?
  {
    hide IsKeyChar, IsVarChar, IsSpace, KeyAt, MatchRef, KeepsClasses, Closed, Tail, Rewrite;
    Classes();
    KeyClasses();
    var rest' := Rewrite(f, m.rest);
    var id' := Renamed(f, m.id);
    if m.gap != "" {
      NoKeyHere(m.gap + m.Body());
      NoKeyHere(m.gap + m.(id := id', rest := rest').Body());
    } else {
      assert "" + m.Body() == m.Body() && "" + m.(id := id', rest := rest').Body() == m.(id := id', rest := rest').Body();
      RenamedClasses(f, m.id);
      KeyOfRef(m.id, m.attr, m.gap2 + (m.close + m.rest));
      KeyOfRef(id', m.attr, m.gap2 + (m.close + rest'));
      ClosedStable(f, m, Output(m.id, m.attr), Output(id', m.attr));
    }
  }

  lemma {:induction false} ClosedStable(f: map<string, string>, m: Match, k: Key, k': Key)
    requires All(IsSpace, m.gap2) && m.close != "" && All(IsClose, m.close) && RenamedKey(f, k) == k'
    ensures Closed(k', m.gap2 + (m.close + Rewrite(f, m.rest))) == Migrated(f, Closed(k, m.gap2 + (m.close + m.rest)))
    ensures m.gap2 == "" ==> Closed(k, m.gap2 + (m.close + m.rest)).Some?
  {
    hide IsSpace, Tail, Rewrite;
    Classes();
    var rest' := Rewrite(f, m.rest);
    if m.gap2 == "" {
      assert "" + (m.close + m.rest) == m.close + m.rest && "" + (m.close + rest') == m.close + rest';
      assert (m.close + m.rest)[1..] == m.close[1..] + m.rest && (m.close + rest')[1..] == m.close[1..] + rest';
      PassThrough(f, m.close[1..], m.rest);
      TailStable(f, m.close[1..] + m.rest);
    }
  }

  /** Behind a run of braces, rewriting commutes with the rest of the runtime pattern. */
  lemma {:induction false} BehindBraces(f: map<string, string>, t: string)
    requires KeepsClasses(f) && Span(IsOpen, t) > 0
    ensures var b := Span(IsOpen, t);
      && b <= |Rewrite(f, t)| && Rewrite(f, t)[..b] == t[..b] && Stops(IsOpen, Rewrite(f, t)[b..])
      && (Stops(IsBlank, Rewrite(f, t)[b..]) <==> Stops(IsBlank, t[b..]))
      && KeyAt(Rewrite(f, t)[b..]) == Migrated(f, KeyAt(t[b..]))
      && (MatchRef(t).None? ==> Rewrite(f, t)[b..] == Rewrite(f, t[b..]))
  {
    hide IsKeyChar, IsVarChar, IsSpace, KeyAt, MatchRef, KeepsClasses, IsIdChar, Rewrite;
    var b, r := Span(IsOpen, t), Rewrite(f, t);
    var u := t[b..];
    assert t == t[..b] + u;
    if MatchRef(t).None? {
      BracesPass(f, t, b);
      assert r[..b] == t[..b] && r[b..] == Rewrite(f, u);
      HeadKept(f, u);
      KeyStable(f, u);
      if KeyAt(u).Some? && KeyAt(u).value.0.Output? { KeyIsRef(t[..b], u); }
    } else {
      var m := MatchRef(t).value;
      RewriteReplaces(f, t);
      Classes();
      SpanIs(IsOpen, m.braces, m.gap + m.Body());
      RefStable(f, m);
      RenamedClasses(f, m.id);
      var m' := m.(id := Renamed(f, m.id), rest := Rewrite(f, m.rest));
      assert r == m.braces + (m.gap + m'.Body());
      assert r[..b] == m.braces && r[b..] == m.gap + m'.Body() && u == m.gap + m.Body();
      BlankHead(m.gap, m.Body(), m'.Body());
    }
  }

  lemma {:induction false} BlankHead(gap: string, x: string, y: string)
    requires x != "" && y != "" && IsIdChar(x[0]) && IsIdChar(y[0])
    ensures Stops(IsBlank, gap + x) <==> Stops(IsBlank, gap + y)
    ensures All(IsSpace, gap) ==> Stops(IsOpen, gap + x)
  {
    hide IsSpace;
    Classes();
    assert gap != "" ==> (gap + x)[0] == gap[0] && (gap + y)[0] == gap[0];
    assert gap == "" ==> gap + x == x && gap + y == y;
  }

  /** Past a run of blanks, the runtime pattern wants one more brace and then its group. */
  function AfterBlanks(u: string): Option<(Key, string)> {
    var v := u[Span(IsBlank, u)..];
    if v != "" && v[0] == '{' then KeyAt(v[1..]) else None
  }

  lemma {:induction false} AfterBlanksAt(a: string, v: string)
    requires All(IsBlank, a) && Stops(IsBlank, v)
    ensures AfterBlanks(a + v) == if v != "" && v[0] == '{' then KeyAt(v[1..]) else None
  {
    hide KeyAt, Span;
    SpanIs(IsBlank, a, v);
  }

  lemma {:induction false} AfterBlanksStable(f: map<string, string>, u: string)
    requires KeepsClasses(f)
    ensures AfterBlanks(Rewrite(f, u)) == Migrated(f, AfterBlanks(u))
  {
    hide IsKeyChar, IsVarChar, IsSpace, KeyAt, MatchRef, KeepsClasses, IsIdChar, Rewrite, AfterBlanks;
    KeyClasses();
    var c := Span(IsBlank, u);
    var a, v := u[..c], u[c..];
    assert u == a + v;
    PassThrough(f, a, v);
    HeadKept(f, v);
    AfterBlanksAt(a, v);
    AfterBlanksAt(a, Rewrite(f, v));
    if v != "" && v[0] == '{' { BehindOneBrace(f, v); }
  }

  lemma {:induction false} BehindOneBrace(f: map<string, string>, v: string)
    requires KeepsClasses(f) && v != "" && v[0] == '{'
    ensures Rewrite(f, v) != "" && KeyAt(Rewrite(f, v)[1..]) == Migrated(f, KeyAt(v[1..]))
  {
    hide IsKeyChar, IsVarChar, IsSpace, KeyAt, MatchRef, KeepsClasses, IsIdChar, Rewrite;
    var b, v' := Span(IsOpen, v), Rewrite(f, v);
    BehindBraces(f, v);
    if b == 1 {
      assert v'[..1] == v[..1];
    } else {
      assert v'[1] == v'[..b][1] == v[..b][1] == v[1];
      NoKeyHere(v[1..]);
      NoKeyHere(v'[1..]);
    }
  }

  lemma {:induction false} BlankGap(gap: string, x: string)
    requires gap != "" && All(IsSpace, gap) && x != "" && IsIdChar(x[0])
    ensures AfterBlanks(gap + x) == None
  {
    hide IsSpace, KeyAt;
    Classes();
    KeyClasses();
    var u := gap + x;
    var c := Span(IsBlank, u);
    SpanWithin(IsBlank, gap, x);
    assert u[c] == if c < |gap| then gap[c] else x[0];
  }

  /** Rewriting commutes with the whole runtime pattern. */
  lemma {:induction false} MatchStable(f: map<string, string>, t: string)
    requires KeepsClasses(f)
    ensures MatchVar(Rewrite(f, t)) == Migrated(f, MatchVar(t))
  {
    hide IsKeyChar, IsVarChar, IsSpace, KeyAt, MatchRef, KeepsClasses, IsIdChar, Rewrite, AfterBlanks;
    var b := Span(IsOpen, t);
    var u, r := t[b..], Rewrite(f, t);
    if b == 0 {
      HeadKept(f, t);
      assert t[0..] == t && r[0..] == r;
      AfterBlanksStable(f, t);
      MatchVarCases(t, 0);
      MatchVarCases(r, 0);
    } else {
      BehindBraces(f, t);
      assert r == r[..b] + r[b..];
      SpanIs(IsOpen, r[..b], r[b..]);
      MatchVarCases(t, b);
      MatchVarCases(r, b);
      if MatchRef(t).None? {
        AfterBlanksStable(f, u);
      } else {
        BlankAfterMatch(f, t);
      }
    }
  }

  lemma {:induction false} BlankAfterMatch(f: map<string, string>, t: string)
    requires KeepsClasses(f) && MatchRef(t).Some?
    ensures var b := Span(IsOpen, t);
      b <= |Rewrite(f, t)| &&
      (!Stops(IsBlank, t[b..]) ==> AfterBlanks(t[b..]) == None && AfterBlanks(Rewrite(f, t)[b..]) == None)
  {
    hide IsKeyChar, IsVarChar, IsSpace, KeyAt, MatchRef, KeepsClasses, IsIdChar, Rewrite, AfterBlanks;
    Classes();
    KeyClasses();
    RewriteReplaces(f, t);
    var m := MatchRef(t).value;
    RenamedClasses(f, m.id);
    var m' := m.(id := Renamed(f, m.id), rest := Rewrite(f, m.rest));
    SpanIs(IsOpen, m.braces, m.gap + m.Body());
    assert (m.braces + (m.gap + m'.Body()))[|m.braces|..] == m.gap + m'.Body();
    if m.gap != "" {
      BlankGap(m.gap, m.Body());
      BlankGap(m.gap, m'.Body());
    } else {
      assert m.gap + m.Body() == m.Body();
    }
  }

  lemma {:induction false} MatchVarCases(t: string, b: nat)
    requires Span(IsOpen, t) == b
    ensures MatchVar(t) ==
            if Stops(IsBlank, t[b..]) then (if b > 0 then KeyAt(t[b..]) else None) else AfterBlanks(t[b..])
  {
    hide KeyAt;
  }

  /** Where the runtime sees nothing and the migration renames nothing, the migrated text agrees for one character. */
  lemma {:induction false} LiteralStep(f: map<string, string>, t: string)
    requires t != "" && (MatchRef(t).Some? ==> Renamed(f, MatchRef(t).value.id) == MatchRef(t).value.id)
    ensures Rewrite(f, t) == [t[0]] + Rewrite(f, t[1..])
  {
    hide MatchRef, Rewrite;
    if MatchRef(t).None? { RewriteSkips(f, t); } else { UnrenamedStep(f, t); }
  }
  // ---------------------------------------------------------------- suffixes

  predicate IsSuffix(r: string, t: string) { |r| <= |t| && r == t[|t| - |r|..] }

  lemma {:induction false} SuffixOfRest(r: string, t: string, n: nat)
    requires n <= |t| && IsSuffix(r, t[n..])
    ensures IsSuffix(r, t)
  {
  }

  lemma {:induction false} ClosedSuffix(k: Key, w: string)
    ensures Closed(k, w).Some? ==> IsSuffix(Closed(k, w).value.1, w)
  {
    hide Tail;
    if w != "" {
      TailSuffix(w[1..]);
      SuffixOfRest(Tail(w[1..]), w, 1);
    }
  }

  lemma {:induction false} KeySuffix(t: string)
    ensures KeyAt(t).Some? ==> IsSuffix(KeyAt(t).value.1, t)
  {
    hide IsKeyChar, IsVarChar, Closed, GlobalKey, IsSuffix, Span;
    GlobalSuffix(t);
    var n := Span(IsKeyChar, t);
    if KeyAt(t).Some? && 0 < n < |t| && t[n] == '@' {
      var k := Span(IsVarChar, t[n + 1..]);
      var w := t[n..][k + 1..];
      ClosedSuffix(Output(t[..n], t[n..][..k + 1]), w);
      SuffixOfRest(KeyAt(t).value.1, t[n..], k + 1);
      SuffixOfRest(KeyAt(t).value.1, t, n);
    }
  }

  lemma {:induction false} GlobalSuffix(t: string)
    ensures GlobalKey(t).Some? ==> IsSuffix(GlobalKey(t).value.1, t)
  {
    hide IsGlobalChar, Closed, IsSuffix, Span;
    if GlobalKey(t).Some? {
      var n := Span(IsGlobalChar, t[4..]);
      ClosedSuffix(Global(t[..4 + n]), t[4..][n..]);
      SuffixOfRest(GlobalKey(t).value.1, t[4..], n);
      SuffixOfRest(GlobalKey(t).value.1, t, 4);
    }
  }

  lemma {:induction false} TailSuffix(t: string)
    ensures IsSuffix(Tail(t), t)
  {
  }

  lemma {:induction false} MatchSuffix(t: string)
    ensures MatchVar(t).Some? ==> IsSuffix(MatchVar(t).value.1, t)
  {
    hide KeyAt;
    var u := t[Span(IsOpen, t)..];
    KeySuffix(u);
    var v := u[Span(IsBlank, u)..];
    if v != "" { KeySuffix(v[1..]); }
  }
}
