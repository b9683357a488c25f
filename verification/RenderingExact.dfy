/** Exactly when migrating a template with its canvas leaves what it renders to unchanged. */
module RenderingExact {
  import opened Options
  import opened Scanning
  import opened References
  import opened Rendering
  import opened RenderingPreserved

  // ---------------------------------------------------------------- references the runtime does not read

  /** The text of a match without what follows it. */
  function Whole(m: Match): string { m.(rest := "").Text() }

  lemma {:induction false} TextOfWhole(m: Match)
    ensures m.Text() == Whole(m) + m.rest
  {
    var a, c := m.attr + (m.gap2 + m.close), m.close + "";
    assert c == m.close;
    assert m.attr + (m.gap2 + (m.close + m.rest)) == a + m.rest;
    assert m.Body() == (m.id + a) + m.rest;
    assert m.Text() == (m.braces + (m.gap + (m.id + a))) + m.rest;
  }

  /** The runtime recognises a reference exactly when it is in form. */
  lemma {:induction false} FormIsKey(m: Match)
    requires Shaped(m)
    ensures KeyAt(m.gap + m.Body()).Some? <==> InForm(m)
  {
    hide IsKeyChar, IsVarChar, IsSpace, KeyAt, Tail, IsIdChar;
    Classes();
    KeyClasses();
    var y := m.gap2 + (m.close + m.rest);
    if m.gap != "" {
      NoKeyHere(m.gap + m.Body());
    } else {
      assert "" + m.Body() == m.Body();
      assert y[0] == if m.gap2 != "" then m.gap2[0] else m.close[0];
      KeyOfRef(m.id, m.attr, y);
    }
  }

  lemma {:induction false} UnreadRef(t: string)
    requires MatchRef(t).Some? && !InForm(MatchRef(t).value)
    ensures MatchVar(t).None?
  {
    hide MatchRef, InForm, KeyAt, AfterBlanks, IsSpace, IsIdChar, IsVarChar, MatchVar;
    MatchRefSound(t);
    var m := MatchRef(t).value;
    Classes();
    KeyClasses();
    SpanIs(IsOpen, m.braces, m.gap + m.Body());
    MatchVarCases(t, |m.braces|);
    FormIsKey(m);
    BlankBehind(m);
  }

  lemma {:induction false} BlankBehind(m: Match)
    requires Shaped(m)
    ensures !Stops(IsBlank, m.gap + m.Body()) ==> AfterBlanks(m.gap + m.Body()) == None
  {
    hide IsSpace, IsIdChar, IsVarChar, AfterBlanks;
    Classes();
    KeyClasses();
    if m.gap != "" { BlankGap(m.gap, m.Body()); } else { assert m.gap + m.Body() == m.Body(); }
  }

  /** Text without an opening brace that does not end in a blank is rendered as it stands. */
  lemma {:induction false} PlainPrefix<O>(rt: Runtime<O>, a: string, rest: string)
    requires All(NotOpen, a) && (a != "" ==> !IsBlank(a[|a| - 1]))
    ensures Render(rt, a + rest) == Prepend(a, Render(rt, rest)) && KeysOf(a + rest) == KeysOf(rest)
    decreases |a|
  {
    hide MatchVar;
    if a == "" {
      assert a + rest == rest;
    } else {
      NoVarHere(a, rest);
      assert (a + rest)[1..] == a[1..] + rest;
      PlainPrefix(rt, a[1..], rest);
      assert a == [a[0]] + a[1..];
    }
  }

  lemma {:induction false} NoVarHere(a: string, rest: string)
    requires a != "" && All(NotOpen, a) && !IsBlank(a[|a| - 1])
    ensures MatchVar(a + rest) == None
  {
    hide KeyAt;
    var c := Span(IsBlank, a + rest);
    assert (a + rest)[|a| - 1] == a[|a| - 1];
    assert c < |a|;
    assert Span(IsOpen, a + rest) == 0 && (a + rest)[0..] == a + rest;
    assert (a + rest)[c] == a[c];
  }

  lemma {:induction false} FewerBraces(m: Match)
    requires Shaped(m) && |m.braces| > 1
    ensures var m1 := m.(braces := m.braces[1..]); Shaped(m1) && (InForm(m1) <==> InForm(m))
    ensures m.Text()[1..] == m.(braces := m.braces[1..]).Text() && m.Text()[0] == m.braces[0]
    ensures Whole(m) == [m.braces[0]] + Whole(m.(braces := m.braces[1..]))
  {
    hide IsSpace, IsIdChar, IsVarChar;
    assert m.braces == [m.braces[0]] + m.braces[1..];
  }

  lemma {:induction false} InnerIsPlain(m: Match)
    requires Shaped(m)
    ensures var a := m.gap + m.(rest := "").Body();
      && All(NotOpen, a) && a != "" && !IsBlank(a[|a| - 1])
      && Whole(m) == m.braces + a && m.Text() == m.braces + (a + m.rest)
  {
    hide IsSpace, IsIdChar, IsVarChar;
    InnerHasNoBrace(m);
    var a := m.gap + m.(rest := "").Body();
    assert m.close + "" == m.close;
    assert a[|a| - 1] == m.close[|m.close| - 1];
    TextOfWhole(m);
    assert m.Text() == m.braces + a + m.rest;
  }

  /** A reference that is not in form is rendered as it stands. */
  lemma {:induction false} UnreadRefIsText<O>(rt: Runtime<O>, m: Match)
    requires Shaped(m) && !InForm(m)
    ensures Render(rt, m.Text()) == Prepend(Whole(m), Render(rt, m.rest)) && KeysOf(m.Text()) == KeysOf(m.rest)
    decreases |m.braces|
  {
    hide MatchVar, MatchRef, InForm, Shaped, Whole, Render, KeysOf;
    MatchRefIff(m.Text(), m);
    UnreadRef(m.Text());
    TextNonEmpty(m);
    StepOver(rt, m.Text());
    var a := m.gap + m.(rest := "").Body();
    InnerIsPlain(m);
    if |m.braces| > 1 {
      FewerBraces(m);
      UnreadRefIsText(rt, m.(braces := m.braces[1..]));
    } else {
      assert m.Text()[1..] == a + m.rest && Whole(m) == [m.Text()[0]] + a;
      PlainPrefix(rt, a, m.rest);
    }
  }

  lemma {:induction false} StepOver<O>(rt: Runtime<O>, t: string)
    requires t != "" && MatchVar(t).None?
    ensures Render(rt, t) == Prepend([t[0]], Render(rt, t[1..])) && KeysOf(t) == KeysOf(t[1..])
  {
    hide MatchVar;
  }

  lemma {:induction false} TextNonEmpty(m: Match)
    requires Shaped(m)
    ensures m.braces != "" && m.Text() != ""
  {
  }

  /** Two references that differ in the id only are different texts, whatever follows them. */
  lemma {:induction false} DifferentRefs(m: Match, id: string, x: string, y: string)
    requires Shaped(m) && All(IsIdChar, id) && id != m.id
    ensures Whole(m) + x != Whole(m.(id := id)) + y
  {
    hide IsIdChar, IsVarChar, IsSpace, Whole;
    Classes();
    var tail := m.attr + (m.gap2 + (m.close + ""));
    assert (tail + x)[0] == '@' && (tail + y)[0] == '@';
    WholeFromId(m, x);
    WholeFromId(m.(id := id), y);
    if Whole(m) + x == Whole(m.(id := id)) + y {
      SamePrefix(m.braces + m.gap, m.id + (tail + x), id + (tail + y));
      SameIds(m.id, id, tail + x, tail + y);
    }
  }

  lemma {:induction false} WholeFromId(m: Match, x: string)
    ensures Whole(m) + x == (m.braces + m.gap) + (m.id + (m.attr + (m.gap2 + (m.close + "")) + x))
  {
    var tail := m.attr + (m.gap2 + (m.close + ""));
    assert Whole(m) == m.braces + (m.gap + (m.id + tail));
    assert m.braces + (m.gap + (m.id + tail)) + x == (m.braces + m.gap) + (m.id + tail + x);
    assert m.id + tail + x == m.id + (tail + x);
  }

  lemma {:induction false} SamePrefix(pre: string, x: string, y: string)
    requires pre + x == pre + y
    ensures x == y
  {
    assert (pre + x)[|pre|..] == x && (pre + y)[|pre|..] == y;
  }

  lemma {:induction false} SameIds(a: string, b: string, x: string, y: string)
    requires All(IsIdChar, a) && All(IsIdChar, b) && Stops(IsIdChar, x) && Stops(IsIdChar, y) && a + x == b + y
    ensures a == b
  {
    hide IsIdChar;
    SpanIs(IsIdChar, a, x);
    SpanIs(IsIdChar, b, y);
  }

  // ---------------------------------------------------------------- references the runtime reads

  lemma {:induction false} KeyIsPlain(u: string)
    requires KeyAt(u).Some?
    ensures |KeyAt(u).value.1| <= |u| && forall i | 0 <= i < |u| - |KeyAt(u).value.1| :: u[i] != '{'
  {
    hide KeyAt;
    var n := Span(NotOpen, u);
    var a, b := u[..n], u[n..];
    assert u == a + b;
    KeyWithin(a, b);
    KeySuffix(u);
  }

  lemma {:induction false} PlainAt(u: string, i: nat)
    requires KeyAt(u).Some? && i < |u| && i + |KeyAt(u).value.1| < |u|
    ensures u[i] != '{'
  {
    hide KeyAt;
    KeyIsPlain(u);
  }

  /** A reference that begins inside what the runtime reads as one variable is in form. */
  lemma {:induction false} FormWithin(t: string, p: nat)
    requires MatchVar(t).Some? && p < |t| && p + |MatchVar(t).value.1| < |t| && MatchRef(t[p..]).Some?
    ensures InForm(MatchRef(t[p..]).value)
  {
    hide MatchRef, InForm, KeyAt, AfterBlanks, IsSpace, IsIdChar, IsVarChar, MatchVar;
    MatchRefSound(t[p..]);
    var m := MatchRef(t[p..]).value;
    var b := Span(IsOpen, t);
    var u := t[b..];
    Classes();
    KeyClasses();
    MatchVarCases(t, b);
    SpanIs(IsOpen, m.braces, m.gap + m.Body());
    FormIsKey(m);
    BlankBehind(m);
    if p < b {
      BracesFrom(t, p);
      assert u == m.gap + m.Body();
    } else if Stops(IsBlank, u) {
      PlainAt(u, p - b);
    } else {
      FormBehindBlanks(t, p);
    }
  }

  lemma {:induction false} BracesFrom(t: string, p: nat)
    requires p < Span(IsOpen, t)
    ensures Span(IsOpen, t[p..]) == Span(IsOpen, t) - p
    ensures t[p..][Span(IsOpen, t) - p..] == t[Span(IsOpen, t)..]
    decreases p
  {
    var b := Span(IsOpen, t);
    assert t[p..] == t[p..b] + t[b..];
    SpanIs(IsOpen, t[p..b], t[b..]);
  }

  lemma {:induction false} FormBehindBlanks(t: string, p: nat)
    requires MatchVar(t).Some? && Span(IsOpen, t) <= p && p + |MatchVar(t).value.1| < |t| && MatchRef(t[p..]).Some?
    requires !Stops(IsBlank, t[Span(IsOpen, t)..])
    ensures InForm(MatchRef(t[p..]).value)
  {
    hide MatchRef, InForm, KeyAt, IsSpace, IsIdChar, IsVarChar, MatchVar;
    MatchRefSound(t[p..]);
    var m := MatchRef(t[p..]).value;
    var b := Span(IsOpen, t);
    var u := t[b..];
    var c := Span(IsBlank, u);
    var v := u[c..];
    MatchVarCases(t, b);
    var w := v[1..];
    assert w == t[b + c + 1..];
    assert t[p] == t[p..][0] == '{';
    if p < b + c {
      BlankAt(t, p);
    } else if p == b + c {
      assert t[p..] == v;
      OneBrace(m, w);
      FormIsKey(m);
    } else {
      PlainAt(w, p - b - c - 1);
    }
  }

  lemma {:induction false} BlankAt(t: string, p: nat)
    requires Span(IsOpen, t) <= p < Span(IsOpen, t) + Span(IsBlank, t[Span(IsOpen, t)..])
    ensures t[p] == ' '
  {
    assert t[p] == t[Span(IsOpen, t)..][p - Span(IsOpen, t)];
  }

  /** A brace before a key is a single one. */
  lemma {:induction false} OneBrace(m: Match, w: string)
    requires Shaped(m) && m.Text()[1..] == w && KeyAt(w).Some?
    ensures w == m.gap + m.Body()
  {
    hide KeyAt, IsSpace, IsIdChar, IsVarChar;
    if |m.braces| > 1 {
      assert w[0] == m.braces[1];
      NoKeyHere(w);
    }
  }

  /** What lies behind a variable decides whether a template is in form. */
  lemma {:induction false} FormBehindVar(f: map<string, string>, t: string)
    requires MatchVar(t).Some?
    ensures InRuntimeForm(f, t) <==> InRuntimeForm(f, MatchVar(t).value.1)
  {
    hide MatchVar, UnreadRename;
    var rest := MatchVar(t).value.1;
    MatchSuffix(t);
    var d := |t| - |rest|;
    forall p | 0 <= p < d ensures !UnreadRename(f, t[p..]) { ReadOrKept(f, t, p); }
    forall p | 0 <= p < |rest| ensures rest[p..] == t[d + p..] {}
    if InRuntimeForm(f, rest) {
      forall p | d <= p < |t| ensures !UnreadRename(f, t[p..]) { assert rest[p - d..] == t[p..]; }
    }
  }

  lemma {:induction false} ReadOrKept(f: map<string, string>, t: string, p: nat)
    requires MatchVar(t).Some? && p < |t| && p + |MatchVar(t).value.1| < |t|
    ensures !UnreadRename(f, t[p..])
  {
    hide MatchVar, MatchRef, InForm;
    if MatchRef(t[p..]).Some? { FormWithin(t, p); }
  }

  lemma {:induction false} FormBehindChar(f: map<string, string>, t: string)
    requires t != ""
    ensures InRuntimeForm(f, t) <==> !UnreadRename(f, t) && InRuntimeForm(f, t[1..])
  {
    hide UnreadRename;
    assert t[0..] == t;
    forall p | 0 <= p < |t[1..]| ensures t[1..][p..] == t[p + 1..] {}
    if InRuntimeForm(f, t[1..]) && !UnreadRename(f, t) {
      forall p | 0 <= p < |t| ensures !UnreadRename(f, t[p..]) { if p > 0 { assert t[1..][p - 1..] == t[p..]; } }
    }
  }

  /** At a position where the runtime reads nothing, either a reference is renamed that it does not read, or the
      migrated text goes on with the same character and the runtime reads nothing there either. */
  lemma {:induction false} NothingRead(f: map<string, string>, t: string)
    requires KeepsClasses(f) && t != "" && MatchVar(t).None?
    ensures MatchVar(Rewrite(f, t)).None? && Rewrite(f, t) != ""
    ensures !UnreadRename(f, t) ==> Rewrite(f, t) == [t[0]] + Rewrite(f, t[1..])
  {
    hide MatchRef, MatchVar, Rewrite, KeepsClasses, InForm;
    MatchStable(f, t);
    HeadKept(f, t);
    if !UnreadRename(f, t) {
      if MatchRef(t).Some? && InForm(MatchRef(t).value) { FormIsRead(t); }
      LiteralStep(f, t);
    }
  }

  lemma {:induction false} FormIsRead(t: string)
    requires MatchRef(t).Some? && InForm(MatchRef(t).value)
    ensures MatchVar(t).Some?
  {
    hide MatchRef, KeyAt, AfterBlanks, IsSpace, IsIdChar, IsVarChar, MatchVar, IsKeyChar;
    MatchRefSound(t);
    var m := MatchRef(t).value;
    Classes();
    KeyClasses();
    SpanIs(IsOpen, m.braces, m.gap + m.Body());
    MatchVarCases(t, |m.braces|);
    FormIsKey(m);
    assert m.gap + m.Body() == m.Body();
  }

  /** A renamed reference that the runtime does not read is text on both sides. */
  lemma {:induction false} UnreadOnBothSides<O>(rt: Runtime<O>, f: map<string, string>, t: string)
    requires KeepsClasses(f) && UnreadRename(f, t)
    ensures MatchRef(t).Some?
    ensures var m := MatchRef(t).value; var m' := m.(id := Renamed(f, m.id));
      && Shaped(m) && All(IsIdChar, m'.id) && m'.id != m.id && |m.rest| < |t|
      && Render(rt, t) == Prepend(Whole(m), Render(rt, m.rest)) && KeysOf(t) == KeysOf(m.rest)
      && Render(rt, Rewrite(f, t)) == Prepend(Whole(m'), Render(rt, Rewrite(f, m.rest)))
      && KeysOf(Rewrite(f, t)) == KeysOf(Rewrite(f, m.rest))
  {
    hide MatchRef, Rewrite, KeepsClasses, Render, KeysOf, IsIdChar, IsKeyChar, IsVarChar, IsSpace;
    MatchRefSound(t);
    RewriteReplaces(f, t);
    var m := MatchRef(t).value;
    RenamedClasses(f, m.id);
    var m' := m.(id := Renamed(f, m.id), rest := Rewrite(f, m.rest));
    ClosesBefore(f, m);
    UnreadRefIsText(rt, m);
    UnreadRefIsText(rt, m');
  }

  lemma {:induction false} ClosesBefore(f: map<string, string>, m: Match)
    requires Shaped(m) && Renamed(f, m.id) != "" && All(IsIdChar, Renamed(f, m.id))
    ensures Shaped(m.(id := Renamed(f, m.id), rest := Rewrite(f, m.rest)))
  {
    hide Rewrite, IsIdChar, IsVarChar, IsSpace;
    HeadKept(f, m.rest);
  }

  // ---------------------------------------------------------------- the variables of a template

  function RenamedKeys(f: map<string, string>, ks: seq<Key>): seq<Key> {
    seq(|ks|, i requires 0 <= i < |ks| => RenamedKey(f, ks[i]))
  }

  /** The migrated template reads the same variables in the same order, with their components renamed. */
  lemma {:induction false} KeysMigrate(f: map<string, string>, t: string)
    requires KeepsClasses(f)
    ensures KeysOf(Rewrite(f, t)) == RenamedKeys(f, KeysOf(t))
    decreases |t|
  {
    hide MatchRef, MatchVar, Rewrite, KeepsClasses, UnreadRename;
    HeadKept(f, t);
    if t != "" {
      if MatchVar(t).None? {
        NothingRead(f, t);
        if UnreadRename(f, t) {
          UnreadOnBothSides(NO_RUNTIME, f, t);
          KeysMigrate(f, MatchRef(t).value.rest);
        } else {
          assert Rewrite(f, t)[1..] == Rewrite(f, t[1..]);
          KeysMigrate(f, t[1..]);
        }
      } else {
        MatchStable(f, t);
        MatchVarShorter(t);
        KeysMigrate(f, MatchVar(t).value.1);
      }
    }
  }

  const NO_RUNTIME: Runtime<int> := Runtime(map[], (o, attr) => Failed, map[])

  /** Rendering fails exactly when some variable of the template does not resolve. */
  lemma {:induction false} RenderFails<O>(rt: Runtime<O>, t: string)
    ensures Render(rt, t).Failed? <==> exists k | k in KeysOf(t) :: ValueOf(rt, k).Failed?
    decreases |t|
  {
    hide MatchVar, ValueOf;
    if t != "" {
      if MatchVar(t).None? {
        RenderFails(rt, t[1..]);
      } else {
        var (k, rest) := MatchVar(t).value;
        MatchVarShorter(t);
        RenderFails(rt, rest);
        assert KeysOf(t) == [k] + KeysOf(rest);
      }
    }
  }

  // ---------------------------------------------------------------- the exact condition

  /** For a template that renders: rendering is preserved exactly when every renamed reference is in form. */
  lemma {:induction false} RenderedAlike<O>(rt: Runtime<O>, f: map<string, string>, t: string)
    requires f.Keys == rt.comps.Keys && Injective(f) && KeepsClasses(f) && Render(rt, t).Rendered?
    ensures Render(MigrateRuntime(rt, f), Rewrite(f, t)) == Render(rt, t) <==> InRuntimeForm(f, t)
    decreases |t|
  {
    hide MatchRef, MatchVar, Rewrite, KeepsClasses, InRuntimeForm, MigrateRuntime, ValueOf, Injective, UnreadRename, Whole;
    var rt' := MigrateRuntime(rt, f);
    HeadKept(f, t);
    if t == "" {
      NoPositions(f);
    } else if MatchVar(t).None? {
      FormBehindChar(f, t);
      NothingRead(f, t);
      if UnreadRename(f, t) {
        UnreadOnBothSides(rt, f, t);
        UnreadOnBothSides(rt', f, t);
        UnreadDiffers(rt, rt', f, t);
      } else {
        assert Rewrite(f, t)[1..] == Rewrite(f, t[1..]);
        RenderedAlike(rt, f, t[1..]);
        PrependCancels([t[0]], Render(rt', Rewrite(f, t[1..])), Render(rt, t[1..]));
      }
    } else {
      var (k, rest) := MatchVar(t).value;
      MatchVarShorter(t);
      MatchStable(f, t);
      FormBehindVar(f, t);
      ValueKept(rt, f, k);
      RenderedAlike(rt, f, rest);
      PrependCancels(ValueOf(rt, k).text, Render(rt', Rewrite(f, rest)), Render(rt, rest));
    }
  }

  lemma {:induction false} PrependCancels(s: string, a: Result, b: Result)
    ensures Prepend(s, a) == Prepend(s, b) <==> a == b
  {
    if a.Rendered? && b.Rendered? {
      assert (s + a.text)[|s|..] == a.text && (s + b.text)[|s|..] == b.text;
    }
  }

  lemma {:induction false} NoPositions(f: map<string, string>)
    ensures InRuntimeForm(f, "") && Rewrite(f, "") == ""
  {
  }

  /** A renamed reference the runtime does not read changes the text of a template that renders, for every pair of
      runtimes. */
  lemma {:induction false} UnreadDiffers<O>(rt: Runtime<O>, rt': Runtime<O>, f: map<string, string>, t: string)
    requires KeepsClasses(f) && UnreadRename(f, t) && Render(rt, t).Rendered?
    ensures Render(rt', Rewrite(f, t)) != Render(rt, t)
  {
    hide MatchRef, Rewrite, KeepsClasses, UnreadRename, Whole, Shaped, IsIdChar, KeysOf;
    UnreadOnBothSides(rt, f, t);
    UnreadOnBothSides(rt', f, t);
    var m := MatchRef(t).value;
    assert All(IsIdChar, Renamed(f, m.id));
    var r, r' := Render(rt, m.rest), Render(rt', Rewrite(f, m.rest));
    if r.Rendered? && r'.Rendered? { DifferentRefs(m, Renamed(f, m.id), r.text, r'.text); }
  }

  /** A variable that has a text after the migration only because it is captured by a component whose output has. */
  predicate Rescued<O>(rt: Runtime<O>, f: map<string, string>, k: Key)
    requires f.Keys == rt.comps.Keys && Injective(f)
  {
    Captured(f, k) && rt.show(rt.comps[Source(f, k.id)], k.attr).Rendered?
  }

  /** A template that renders must have its renamed references in form; one that fails must have a variable that
      fails and is not rescued. */
  predicate RendersAlike<O>(rt: Runtime<O>, f: map<string, string>, t: string)
    requires f.Keys == rt.comps.Keys && Injective(f)
  {
    if forall k | k in KeysOf(t) :: ValueOf(rt, k).Rendered? then InRuntimeForm(f, t)
    else exists k | k in KeysOf(t) :: ValueOf(rt, k).Failed? && !Rescued(rt, f, k)
  }

  lemma {:induction false} FailsAlike<O>(rt: Runtime<O>, f: map<string, string>, t: string)
    requires f.Keys == rt.comps.Keys && Injective(f) && KeepsClasses(f)
    ensures Render(MigrateRuntime(rt, f), Rewrite(f, t)).Failed? <==>
            exists k | k in KeysOf(t) :: ValueOf(rt, k).Failed? && !Rescued(rt, f, k)
  {
    hide KeysOf, Render, Rewrite, ValueOf, MigrateRuntime, Captured, Source, RenamedKey, KeepsClasses;
    var rt' := MigrateRuntime(rt, f);
    var ks := KeysOf(t);
    RenderFails(rt', Rewrite(f, t));
    KeysMigrate(f, t);
    forall i | 0 <= i < |ks|
      ensures ValueOf(rt', RenamedKeys(f, ks)[i]).Failed? <==> ValueOf(rt, ks[i]).Failed? && !Rescued(rt, f, ks[i])
    {
      ValueKept(rt, f, ks[i]);
    }
  }

  /** Migrating a template and its canvas together leaves what it renders to, or that it fails, unchanged exactly
      under `RendersAlike`. */
  lemma {:induction false} RenderExactly<O>(rt: Runtime<O>, f: map<string, string>, t: string)
    requires f.Keys == rt.comps.Keys && Injective(f) && KeepsClasses(f)
    ensures Render(MigrateRuntime(rt, f), Rewrite(f, t)) == Render(rt, t) <==> RendersAlike(rt, f, t)
  {
    hide KeysOf, Render, Rewrite, ValueOf, MigrateRuntime, InRuntimeForm, Captured, KeepsClasses;
    RenderFails(rt, t);
    if Render(rt, t).Rendered? {
      RenderedAlike(rt, f, t);
    } else {
      FailsAlike(rt, f, t);
    }
  }

  /** Migration preserves rendering: with references in the runtime's form and none captured, a template migrated
      with its canvas renders to the same text, or fails as before. */
  lemma {:induction false} RenderPreserved<O>(rt: Runtime<O>, f: map<string, string>, t: string)
    requires f.Keys == rt.comps.Keys && Injective(f) && KeepsClasses(f)
    requires InRuntimeForm(f, t) && NoCapture(f, t)
    ensures Render(MigrateRuntime(rt, f), Rewrite(f, t)) == Render(rt, t)
  {
    hide KeysOf, Render, Rewrite, ValueOf, MigrateRuntime, InRuntimeForm, Captured, KeepsClasses, Injective;
    RenderExactly(rt, f, t);
  }
}
