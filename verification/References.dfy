/** Component references in templates: the pattern the migration rewrites, and the rewriting. */
module References {
  import opened Options
  import opened Scanning

  /** [A-Za-z0-9:_-] */
  predicate IsIdChar(c: char) { IsAlnum(c) || c == ':' || c == '_' || c == '-' }

  /** A match of `(\{+\s*)([A-Za-z0-9:_-]+)(@[A-Za-z0-9_.-]+)(\s*\}+)` and the text after it. */
  datatype Match = Match(braces: string, gap: string, id: string, attr: string, gap2: string, close: string, rest: string) {
    function Body(): string { id + (attr + (gap2 + (close + rest))) }

    function Text(): string { braces + (gap + Body()) }
  }

  predicate IsAttr(attr: string) { |attr| >= 2 && attr[0] == '@' && All(IsVarChar, attr[1..]) }

  /** Every piece is of its class and as long as it can be. */
  predicate Shaped(m: Match) {
    && m.braces != "" && All(IsOpen, m.braces) && All(IsSpace, m.gap)
    && m.id != "" && All(IsIdChar, m.id) && IsAttr(m.attr)
    && All(IsSpace, m.gap2) && m.close != "" && All(IsClose, m.close) && Stops(IsClose, m.rest)
  }

  /** The neighbouring classes of the pattern are disjoint. */
  lemma {:induction false} Classes()
    ensures forall c :: IsOpen(c) ==> !IsSpace(c) && !IsIdChar(c) && !IsVarChar(c) && !IsClose(c)
    ensures forall c :: IsSpace(c) ==> !IsOpen(c) && !IsIdChar(c) && !IsVarChar(c) && !IsClose(c)
    ensures forall c :: IsClose(c) ==> !IsSpace(c) && !IsVarChar(c)
    ensures forall c :: IsIdChar(c) ==> !IsOpen(c) && !IsSpace(c)
    ensures !IsIdChar('@') && !IsOpen('@')
  {
  }

  /** The pieces of the pattern from the attribute on. */
  function MatchTailOf(m: Match, t: string): Option<Match> {
    var w := Span(IsSpace, t);
    var c := Span(IsClose, t[w..]);
    if c == 0 then None else Some(m.(gap2 := t[..w], close := t[w..][..c], rest := t[w..][c..]))
  }

  /** The pieces of the pattern from the id on. */
  function MatchBody(m: Match, t: string): Option<Match> {
    var n := Span(IsIdChar, t);
    if n == 0 || n == |t| || t[n] != '@' then None
    else
      var k := Span(IsVarChar, t[n + 1..]);
      if k == 0 then None else MatchTailOf(m.(id := t[..n], attr := t[n..][..k + 1]), t[n..][k + 1..])
  }

  const NO_MATCH := Match("", "", "", "", "", "", "")

  /** The match that begins at the start of `t`, if any. */
  function MatchRef(t: string): Option<Match> {
    var b := Span(IsOpen, t);
    var g := Span(IsSpace, t[b..]);
    if b == 0 then None else MatchBody(NO_MATCH.(braces := t[..b], gap := t[b..][..g]), t[b..][g..])
  }

  lemma {:induction false} MatchTailSound(m: Match, t: string)
    requires MatchTailOf(m, t).Some?
    ensures var r := MatchTailOf(m, t).value;
      && t == r.gap2 + (r.close + r.rest) && All(IsSpace, r.gap2) && All(IsClose, r.close) && r.close != ""
      && Stops(IsClose, r.rest) && r.braces == m.braces && r.gap == m.gap && r.id == m.id && r.attr == m.attr
  {
    hide IsSpace;
  }

  lemma {:induction false} MatchBodySound(m: Match, t: string)
    requires MatchBody(m, t).Some?
    ensures var r := MatchBody(m, t).value;
      && t == r.Body() && r.braces == m.braces && r.gap == m.gap
      && r.id != "" && All(IsIdChar, r.id) && IsAttr(r.attr)
      && All(IsSpace, r.gap2) && r.close != "" && All(IsClose, r.close) && Stops(IsClose, r.rest)
  {
    hide IsSpace, IsIdChar, IsVarChar, MatchTailOf, Stops;
    var n := Span(IsIdChar, t);
    var k := Span(IsVarChar, t[n + 1..]);
    var m1 := m.(id := t[..n], attr := t[n..][..k + 1]);
    MatchTailSound(m1, t[n..][k + 1..]);
    assert m1.attr[1..] == t[n + 1..][..k];
    assert t[n..] == m1.attr + t[n..][k + 1..];
    assert t == m1.id + t[n..];
  }

  lemma {:induction false} MatchRefSound(t: string)
    requires MatchRef(t).Some?
    ensures Shaped(MatchRef(t).value) && t == MatchRef(t).value.Text() && |MatchRef(t).value.rest| < |t|
  {
    hide IsSpace, IsIdChar, IsVarChar, MatchBody, IsAttr, Span, Stops;
    var b := Span(IsOpen, t);
    var g := Span(IsSpace, t[b..]);
    var braces, gap, body := t[..b], t[b..][..g], t[b..][g..];
    MatchBodySound(NO_MATCH.(braces := braces, gap := gap), body);
    assert All(IsOpen, braces) && All(IsSpace, gap);
    hide All;
    assert t[b..] == gap + body;
    assert t == braces + (gap + body);
    RestShorter(MatchRef(t).value);
  }

  lemma {:induction false} RestShorter(m: Match)
    ensures |m.rest| + |m.id| <= |m.Text()|
  {
  }

  lemma {:induction false} MatchTailIs(m: Match)
    requires Shaped(m)
    ensures MatchTailOf(m, m.gap2 + (m.close + m.rest)) == Some(m)
  {
    hide IsIdChar, IsVarChar, IsAttr;
    assert Stops(IsSpace, m.close + m.rest) by { Classes(); }
    SpanIs(IsSpace, m.gap2, m.close + m.rest);
    SpanIs(IsClose, m.close, m.rest);
  }

  lemma {:induction false} MatchBodyIs(m: Match)
    requires Shaped(m)
    ensures MatchBody(m, m.Body()) == Some(m)
  {
    hide IsIdChar, IsVarChar, IsSpace, MatchTailOf;
    Classes();
    var t1 := m.gap2 + (m.close + m.rest);
    var t := m.attr + t1;
    SpanIs(IsIdChar, m.id, t);
    assert t[1..] == m.attr[1..] + t1;
    assert t1[0] == if m.gap2 != "" then m.gap2[0] else m.close[0];
    SpanIs(IsVarChar, m.attr[1..], t1);
    assert m.Body()[|m.id| + 1..] == t[1..];
    assert t[..|m.attr|] == m.attr && t[|m.attr|..] == t1;
    MatchTailIs(m);
  }

  lemma {:induction false} MatchBodyFrame(m: Match, m': Match, t: string)
    requires m.braces == m'.braces && m.gap == m'.gap
    ensures MatchBody(m, t) == MatchBody(m', t)
  {
    hide IsIdChar, IsVarChar;
  }

  /** The longest-run scan finds exactly the matches, and a text has at most one at its start. */
  lemma {:induction false} MatchRefIff(t: string, m: Match)
    ensures MatchRef(t) == Some(m) <==> Shaped(m) && t == m.Text()
  {
    hide IsIdChar, IsVarChar, IsSpace, MatchBody, IsAttr;
    if MatchRef(t) == Some(m) { MatchRefSound(t); }
    if Shaped(m) && t == m.Text() {
      Classes();
      SpanIs(IsOpen, m.braces, m.gap + m.Body());
      SpanIs(IsSpace, m.gap, m.Body());
      MatchBodyIs(m);
      MatchBodyFrame(m, NO_MATCH.(braces := m.braces, gap := m.gap), m.Body());
    }
  }

  // ---------------------------------------------------------------- rewriting

  /** `component_id_map.get(id, id)` */
  function Renamed(f: map<string, string>, id: string): string { if id in f then f[id] else id }

  /** `VARIABLE_REF_PATTERN.sub(repl, text)` */
  function Rewrite(f: map<string, string>, t: string): string
    decreases |t|
  {
    if t == "" then ""
    else
      match MatchRef(t)
      case None => [t[0]] + Rewrite(f, t[1..])
      case Some(m) =>
        MatchRefSound(t);
        m.(id := Renamed(f, m.id), rest := Rewrite(f, m.rest)).Text()
  }

  /** `rewrite_variable_refs` */
  function RewriteText(f: map<string, string>, t: string): string {
    if t in f then f[t] else Rewrite(f, t)
  }

  lemma {:induction false} NoBraceNoMatch(t: string)
    requires Stops(IsOpen, t)
    ensures MatchRef(t) == None
  {
    hide MatchBody;
  }

  lemma {:induction false} RewriteSkips(f: map<string, string>, t: string)
    requires t != "" && MatchRef(t) == None
    ensures Rewrite(f, t) == [t[0]] + Rewrite(f, t[1..])
  {
    hide MatchRef;
  }

  lemma {:induction false} RewriteReplaces(f: map<string, string>, t: string)
    requires MatchRef(t).Some?
    ensures var m := MatchRef(t).value;
      Shaped(m) && t == m.Text() && Rewrite(f, t) == m.(id := Renamed(f, m.id), rest := Rewrite(f, m.rest)).Text()
  {
    hide MatchRef, Shaped;
    MatchRefSound(t);
    MatchNonEmpty(t);
  }

  lemma {:induction false} MatchNonEmpty(t: string)
    requires MatchRef(t).Some?
    ensures t != ""
  {
    hide MatchBody;
  }

  /** Text without an opening brace passes through. */
  lemma {:induction false} PassThrough(f: map<string, string>, u: string, v: string)
    requires All(NotOpen, u)
    ensures Rewrite(f, u + v) == u + Rewrite(f, v)
    decreases |u|
  {
    hide MatchRef, Rewrite;
    if u == "" {
      assert u + v == v;
    } else {
      NoBraceNoMatch(u + v);
      RewriteSkips(f, u + v);
      assert (u + v)[1..] == u[1..] + v;
      PassThrough(f, u[1..], v);
    }
  }

  lemma {:induction false} HeadKept(f: map<string, string>, t: string)
    ensures (t == "" <==> Rewrite(f, t) == "") && (t != "" ==> Rewrite(f, t)[0] == t[0])
  {
    hide MatchRef, IsIdChar, IsVarChar, IsSpace;
    if t != "" && MatchRef(t).Some? { MatchRefSound(t); }
  }

  /** A shorter run of the same braces has the same match. */
  lemma {:induction false} MatchShorter(t: string, k: nat)
    requires k < Span(IsOpen, t)
    ensures MatchRef(t[k..]).Some? <==> MatchRef(t).Some?
    ensures MatchRef(t).Some? ==> MatchRef(t[k..]).value == MatchRef(t).value.(braces := MatchRef(t).value.braces[k..])
  {
    hide MatchBody;
    var b, u := Span(IsOpen, t), t[Span(IsOpen, t)..];
    assert t == t[..b] + u && t[k..] == t[..b][k..] + u;
    SpanIs(IsOpen, t[..b][k..], u);
    var g := Span(IsSpace, u);
    MatchBodyBraces(NO_MATCH.(braces := t[..b], gap := u[..g]), t[..b][k..], u[g..]);
  }

  lemma {:induction false} MatchBodyBraces(m: Match, braces: string, t: string)
    ensures MatchBody(m, t).Some? <==> MatchBody(m.(braces := braces), t).Some?
    ensures MatchBody(m, t).Some? ==>
              MatchBody(m, t).value.braces == m.braces &&
              MatchBody(m.(braces := braces), t).value == MatchBody(m, t).value.(braces := braces)
  {
    hide IsIdChar, IsVarChar, IsSpace;
  }

  /** Opening braces that begin no match pass through. */
  lemma {:induction false} BracesPass(f: map<string, string>, t: string, k: nat)
    requires MatchRef(t) == None && k <= Span(IsOpen, t)
    ensures Rewrite(f, t) == t[..k] + Rewrite(f, t[k..])
    decreases k
  {
    hide MatchRef, Rewrite;
    assert t[0..] == t;
    if k > 0 {
      RewriteSkips(f, t);
      assert Span(IsOpen, t[1..]) == Span(IsOpen, t) - 1;
      if Span(IsOpen, t) > 1 { MatchShorter(t, 1); } else { NoBraceNoMatch(t[1..]); }
      hide Span, NotOpen;
      BracesPass(f, t[1..], k - 1);
      assert t[1..][k - 1..] == t[k..] && t[..k] == [t[0]] + t[1..][..k - 1];
    }
  }

  /** When a match is not renamed, the scan may as well step one character. */
  lemma {:induction false} UnrenamedStep(f: map<string, string>, t: string)
    requires MatchRef(t).Some? && Renamed(f, MatchRef(t).value.id) == MatchRef(t).value.id
    ensures Rewrite(f, t) == [t[0]] + Rewrite(f, t[1..])
  {
    hide MatchRef, Rewrite, IsIdChar, IsVarChar, IsSpace;
    RewriteReplaces(f, t);
    var m := MatchRef(t).value;
    if |m.braces| > 1 {
      Classes();
      SpanIs(IsOpen, m.braces, m.gap + m.Body());
      MatchShorter(t, 1);
      RewriteReplaces(f, t[1..]);
      var rest := (m.gap + m.(rest := Rewrite(f, m.rest)).Body());
      assert m.braces + rest == [t[0]] + (m.braces[1..] + rest);
    } else {
      var inner := m.gap + (m.id + (m.attr + (m.gap2 + m.close)));
      assert t[1..] == m.gap + m.Body();
      assert All(NotOpen, inner) by { InnerHasNoBrace(m); }
      PassThrough(f, inner, m.rest);
      Reassociate(m, Rewrite(f, m.rest));
      Reassociate(m, m.rest);
    }
  }

  lemma {:induction false} Reassociate(m: Match, rest: string)
    ensures m.gap + m.(rest := rest).Body() == m.gap + (m.id + (m.attr + (m.gap2 + m.close))) + rest
  {
    var a := m.attr + (m.gap2 + (m.close + rest));
    assert a == m.attr + (m.gap2 + m.close) + rest;
    assert m.id + a == m.id + (m.attr + (m.gap2 + m.close)) + rest;
  }

  lemma {:induction false} InnerHasNoBrace(m: Match)
    requires Shaped(m)
    ensures All(NotOpen, m.gap + (m.id + (m.attr + (m.gap2 + m.close))))
  {
    hide IsIdChar, IsVarChar, IsSpace;
    Classes();
    assert m.attr == "@" + m.attr[1..];
  }

  /** With nothing to rename, rewriting changes nothing. */
  lemma {:induction false} RewriteIdentity(f: map<string, string>, t: string)
    requires forall x | x in f :: f[x] == x
    ensures Rewrite(f, t) == t
    decreases |t|
  {
    hide MatchRef, Shaped;
    if t != "" {
      match MatchRef(t)
      case None =>
        RewriteIdentity(f, t[1..]);
      case Some(m) =>
        MatchRefSound(t);
        RewriteIdentity(f, m.rest);
    }
  }
}
