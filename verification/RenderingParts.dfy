/** What a rendered template is made of: the pattern of the runtime's variables said without a scan, the one way a
    template splits into literal characters and variables, and the text that comes of it. */
module RenderingParts {
  import opened Options
  import opened Scanning
  import opened References
  import opened Rendering

  // ---------------------------------------------------------------- the pattern

  function KeyText(k: Key): string { if k.Output? then k.id + k.attr else k.name }

  /** `[a-zA-Z:0-9]+@[A-Za-z0-9_.-]+|sys\.[A-Za-z0-9_.]+|env\.[A-Za-z0-9_.]+` */
  predicate KeyShaped(k: Key) {
    match k
    case Output(id, attr) => id != "" && All(IsKeyChar, id) && IsAttr(attr)
    case Global(name) => |name| > 4 && (name[..4] == "sys." || name[..4] == "env.") && All(IsGlobalChar, name[4..])
  }

  /** A variable as it is written in a template. */
  datatype Source = Source(braces: string, blanks: string, key: Key, gap: string, closes: string) {
    function Behind(rest: string): string { "}" + (gap + (closes + rest)) }

    /** The variable with the text that follows it. */
    function Before(rest: string): string { braces + (blanks + ("{" + (KeyText(key) + Behind(rest)))) }
  }

  /** Every piece is of its class, and the blanks and braces behind the key are all there are. */
  predicate Reads(s: Source, rest: string) {
    && All(IsOpen, s.braces) && All(IsBlank, s.blanks) && KeyShaped(s.key)
    && All(IsBlank, s.gap) && All(IsClose, s.closes)
    && Stops(IsClose, rest) && (s.closes == "" ==> Stops(IsBlank, rest))
  }

  predicate Occurs(s: Source, t: string, k: Key, rest: string) { s.key == k && Reads(s, rest) && t == s.Before(rest) }

  lemma {:induction false} TailIs(gap: string, closes: string, rest: string)
    requires All(IsBlank, gap) && All(IsClose, closes) && Stops(IsClose, rest) && (closes == "" ==> Stops(IsBlank, rest))
    ensures Tail(gap + (closes + rest)) == rest
  {
    SpanIs(IsBlank, gap, closes + rest);
    SpanIs(IsClose, closes, rest);
  }

  lemma {:induction false} GlobalAt(name: string, y: string)
    requires KeyShaped(Global(name)) && Stops(IsGlobalChar, y)
    ensures KeyAt(name + y) == Closed(Global(name), y)
  {
    hide IsGlobalChar, Closed;
    var t := name + y;
    KeyClasses();
    assert t[..4] == name[..4] && t[4..] == name[4..] + y;
    assert t[0] == name[..4][0] && t[1] == name[..4][1] && t[2] == name[..4][2] && t[3] == name[..4][3];
    SpanIs(IsKeyChar, t[..3], t[3..]);
    assert t[..3] + t[3..] == t;
    SpanIs(IsGlobalChar, name[4..], y);
    assert t[..|name|] == name;
  }

  lemma {:induction false} KeyAtIs(k: Key, gap: string, closes: string, rest: string)
    requires KeyShaped(k)
    requires All(IsBlank, gap) && All(IsClose, closes) && Stops(IsClose, rest) && (closes == "" ==> Stops(IsBlank, rest))
    ensures KeyAt(KeyText(k) + ("}" + (gap + (closes + rest)))) == Some((k, rest))
  {
    hide KeyAt, Tail, IsVarChar, IsKeyChar, IsGlobalChar, All;
    var y := "}" + (gap + (closes + rest));
    Classes();
    assert !IsGlobalChar('}') && !IsVarChar('}') by { CloseEnds(); }
    assert y[1..] == gap + (closes + rest);
    TailIs(gap, closes, rest);
    match k
    case Output(id, attr) =>
      KeyInForm(id, attr, y);
      assert id + attr + y == id + (attr + y);
    case Global(name) =>
      GlobalAt(name, y);
  }

  lemma {:induction false} CloseEnds()
    ensures !IsGlobalChar('}') && !IsVarChar('}')
  {
  }

  /** A key begins with neither a brace nor a blank. */
  lemma {:induction false} KeyBegins(k: Key)
    requires KeyShaped(k)
    ensures KeyText(k) != "" && !IsOpen(KeyText(k)[0]) && !IsBlank(KeyText(k)[0])
  {
    KeyClasses();
    if k.Global? { assert k.name[0] == k.name[..4][0]; } else { assert KeyText(k)[0] == k.id[0]; }
  }

  lemma {:induction false} MatchVarComplete(s: Source, rest: string)
    requires Reads(s, rest)
    ensures MatchVar(s.Before(rest)) == Some((s.key, rest))
  {
    hide KeyAt, KeyShaped, KeyText;
    var u := KeyText(s.key) + s.Behind(rest);
    var t := s.Before(rest);
    KeyAtIs(s.key, s.gap, s.closes, rest);
    KeyBegins(s.key);
    assert u[0] == KeyText(s.key)[0];
    if s.blanks == "" {
      assert t == (s.braces + "{") + u;
      SpanIs(IsOpen, s.braces + "{", u);
    } else {
      var v := "{" + u;
      SpanIs(IsOpen, s.braces, s.blanks + v);
      SpanIs(IsBlank, s.blanks, v);
      assert v[1..] == u;
    }
  }

  lemma {:induction false} RunSplits(p: char -> bool, t: string)
    ensures var n := Span(p, t); All(p, t[..n]) && t == t[..n] + t[n..] && Stops(p, t[n..])
  {
  }

  lemma {:induction false} TailSplits(t: string) returns (gap: string, closes: string)
    ensures All(IsBlank, gap) && All(IsClose, closes) && t == gap + (closes + Tail(t))
    ensures Stops(IsClose, Tail(t)) && (closes == "" ==> Stops(IsBlank, Tail(t)))
  {
    hide Span, All, Stops;
    var n := Span(IsBlank, t);
    var m := Span(IsClose, t[n..]);
    RunSplits(IsBlank, t);
    RunSplits(IsClose, t[n..]);
    gap, closes := t[..n], t[n..][..m];
    if closes == "" { assert t[n..][0..] == t[n..]; }
  }

  lemma {:induction false} KeyAtSound(t: string) returns (gap: string, closes: string)
    requires KeyAt(t).Some?
    ensures var (k, rest) := KeyAt(t).value;
      && KeyShaped(k) && t == KeyText(k) + ("}" + (gap + (closes + rest)))
      && All(IsBlank, gap) && All(IsClose, closes) && Stops(IsClose, rest) && (closes == "" ==> Stops(IsBlank, rest))
  {
    hide Tail, Stops, KeyAt, KeyShaped, KeyText, All;
    var k := KeyAt(t).value.0;
    KeyAtPrefix(t);
    var y := t[|KeyText(k)|..];
    assert y == "}" + y[1..];
    gap, closes := TailSplits(y[1..]);
  }

  lemma {:induction false} OutputShape(t: string, n: nat, m: nat)
    requires 0 < n < |t| && t[n] == '@' && 0 < m && n + 1 + m <= |t|
    requires All(IsKeyChar, t[..n]) && All(IsVarChar, t[n + 1..][..m])
    ensures var k := Output(t[..n], t[n..][..m + 1]);
      && KeyShaped(k) && |KeyText(k)| == n + m + 1 && t == KeyText(k) + t[n + m + 1..] && t[n..][m + 1..] == t[n + m + 1..]
  {
    hide IsVarChar, IsKeyChar;
    var attr := t[n..][..m + 1];
    assert attr[1..] == t[n + 1..][..m];
    assert t[..n] + attr == t[..n + m + 1];
  }

  lemma {:induction false} GlobalShape(t: string, m: nat)
    requires |t| >= 4 && (t[..4] == "sys." || t[..4] == "env.") && 0 < m && 4 + m <= |t| && All(IsGlobalChar, t[4..][..m])
    ensures KeyShaped(Global(t[..4 + m])) && t == t[..4 + m] + t[4 + m..] && t[4..][m..] == t[4 + m..]
  {
    hide IsGlobalChar;
    assert t[..4 + m][..4] == t[..4] && t[..4 + m][4..] == t[4..][..m];
  }

  lemma {:induction false} KeyAtPrefix(t: string)
    requires KeyAt(t).Some?
    ensures var k := KeyAt(t).value.0;
      |KeyText(k)| <= |t| && KeyShaped(k) && t == KeyText(k) + t[|KeyText(k)|..] && Closed(k, t[|KeyText(k)|..]) == KeyAt(t)
  {
    hide Tail, IsVarChar, IsKeyChar, IsGlobalChar, Stops, Span, KeyShaped, GlobalKey;
    var n := Span(IsKeyChar, t);
    if 0 < n < |t| && t[n] == '@' {
      OutputShape(t, n, Span(IsVarChar, t[n + 1..]));
    } else {
      GlobalPrefix(t);
    }
  }

  lemma {:induction false} GlobalPrefix(t: string)
    requires GlobalKey(t).Some?
    ensures var k := GlobalKey(t).value.0;
      |KeyText(k)| <= |t| && KeyShaped(k) && t == KeyText(k) + t[|KeyText(k)|..] && Closed(k, t[|KeyText(k)|..]) == GlobalKey(t)
  {
    hide Tail, IsGlobalChar, Stops, Span, KeyShaped;
    GlobalShape(t, Span(IsGlobalChar, t[4..]));
  }

  lemma {:induction false} BracesBefore(t: string)
    ensures var b := Span(IsOpen, t);
      && All(IsOpen, t[..b]) && t == t[..b] + t[b..]
      && (b > 0 ==> All(IsOpen, t[..b - 1]) && t == t[..b - 1] + ("{" + t[b..]))
  {
    var b := Span(IsOpen, t);
    if b > 0 { assert t[b - 1] == '{'; }
  }

  lemma {:induction false} SoundBehind(braces: string, blanks: string, u: string) returns (s: Source)
    requires All(IsOpen, braces) && All(IsBlank, blanks) && KeyAt(u).Some?
    ensures Occurs(s, braces + (blanks + ("{" + u)), KeyAt(u).value.0, KeyAt(u).value.1)
  {
    hide KeyAt, KeyShaped, KeyText, Stops, All;
    var gap, closes := KeyAtSound(u);
    s := Source(braces, blanks, KeyAt(u).value.0, gap, closes);
  }

  /** The braces and blanks before the key. */
  lemma {:induction false} CutBefore(t: string) returns (braces: string, blanks: string, u: string)
    requires MatchVar(t).Some?
    ensures All(IsOpen, braces) && All(IsBlank, blanks) && t == braces + (blanks + ("{" + u)) && KeyAt(u) == MatchVar(t)
  {
    hide KeyAt, Stops, Span, All;
    var b := Span(IsOpen, t);
    var v := t[b..];
    var c := Span(IsBlank, v);
    BracesBefore(t);
    RunSplits(IsBlank, v);
    if c == 0 {
      braces, blanks, u := t[..b - 1], v[..c], v;
      assert v[..c] + ("{" + v) == "{" + v;
    } else {
      braces, blanks, u := t[..b], v[..c], v[c..][1..];
      assert v[c..] == "{" + u;
    }
  }

  lemma {:induction false} MatchVarSound(t: string) returns (s: Source)
    requires MatchVar(t).Some?
    ensures Occurs(s, t, MatchVar(t).value.0, MatchVar(t).value.1)
  {
    hide MatchVar, KeyAt, Occurs, All;
    var braces, blanks, u := CutBefore(t);
    s := SoundBehind(braces, blanks, u);
  }

  /** The scan finds exactly the occurrences of the pattern, and reads the one key and leaves the one rest. */
  lemma {:induction false} MatchVarIff(t: string, k: Key, rest: string)
    ensures MatchVar(t) == Some((k, rest)) <==> exists s :: Occurs(s, t, k, rest)
  {
    hide MatchVar, Reads;
    if MatchVar(t) == Some((k, rest)) { var s := MatchVarSound(t); }
    if s :| Occurs(s, t, k, rest) { MatchVarComplete(s, rest); }
  }

  // ---------------------------------------------------------------- parts

  datatype Part = Literal(c: char) | Variable(source: Source)

  /** The template a list of parts is written as. */
  function Written(ps: seq<Part>): string {
    if ps == [] then ""
    else
      match ps[0]
      case Literal(c) => [c] + Written(ps[1..])
      case Variable(s) => s.Before(Written(ps[1..]))
  }

  /** No occurrence of the pattern begins here. */
  ghost predicate NoneBegins(t: string) { forall s: Source, rest | Reads(s, rest) :: t != s.Before(rest) }

  ghost predicate Fits(ps: seq<Part>, i: nat)
    requires i < |ps|
  {
    match ps[i]
    case Literal(c) => NoneBegins(Written(ps[i..]))
    case Variable(s) => Reads(s, Written(ps[i + 1..]))
  }

  /** Each variable is an occurrence of the pattern before what follows it, and none begins at a literal. */
  ghost predicate Split(ps: seq<Part>) { forall i | 0 <= i < |ps| :: Fits(ps, i) }

  function Keys(ps: seq<Part>): seq<Key> {
    if ps == [] then [] else (if ps[0].Variable? then [ps[0].source.key] else []) + Keys(ps[1..])
  }

  /** What stands for a part in the rendered text: a literal itself, a variable's value. */
  predicate Says<O>(rt: Runtime<O>, p: Part, text: string) {
    match p
    case Literal(c) => text == [c]
    case Variable(s) =>
      match s.key
      case Output(id, attr) => id in rt.comps && rt.show(rt.comps[id], attr) == Rendered(text)
      case Global(name) => name in rt.globals && rt.globals[name] == Rendered(text)
  }

  ghost predicate SaysAll<O>(rt: Runtime<O>, ps: seq<Part>, texts: seq<string>) {
    |texts| == |ps| && forall i | 0 <= i < |ps| :: Says(rt, ps[i], texts[i])
  }

  function Flat(texts: seq<string>): string { if texts == [] then "" else texts[0] + Flat(texts[1..]) }

  lemma {:induction false} FitsTail(ps: seq<Part>, i: nat)
    requires 0 < i < |ps|
    ensures Fits(ps, i) <==> Fits(ps[1..], i - 1)
  {
    hide Reads, NoneBegins, Written;
    assert ps[1..][i - 1..] == ps[i..] && ps[1..][i..] == ps[i + 1..] && ps[1..][i - 1] == ps[i];
  }

  lemma {:induction false} SplitTail(ps: seq<Part>)
    requires Split(ps) && ps != []
    ensures Split(ps[1..])
  {
    hide Fits;
    forall i | 0 <= i < |ps[1..]| ensures Fits(ps[1..], i) { FitsTail(ps, i + 1); }
  }

  lemma {:induction false} FirstFits(p: Part, ps: seq<Part>)
    requires if p.Literal? then NoneBegins([p.c] + Written(ps)) else Reads(p.source, Written(ps))
    ensures Fits([p] + ps, 0)
  {
    hide Reads, NoneBegins;
    var qs := [p] + ps;
    assert qs[1..] == ps && qs[0..] == qs;
  }

  lemma {:induction false} SplitCons(p: Part, ps: seq<Part>)
    requires Split(ps)
    requires if p.Literal? then NoneBegins([p.c] + Written(ps)) else Reads(p.source, Written(ps))
    ensures Split([p] + ps)
  {
    hide Fits, Reads, NoneBegins, Written;
    var qs := [p] + ps;
    assert qs[1..] == ps;
    FirstFits(p, ps);
    forall i | 0 <= i < |qs| ensures Fits(qs, i) { if i > 0 { FitsTail(qs, i); } }
  }

  lemma {:induction false} NoneRead(t: string)
    ensures MatchVar(t).None? <==> NoneBegins(t)
  {
    hide MatchVar, Reads;
    if MatchVar(t).Some? {
      var s := MatchVarSound(t);
      assert Reads(s, MatchVar(t).value.1);
    } else {
      forall s: Source, rest | Reads(s, rest) ensures t != s.Before(rest) { MatchVarComplete(s, rest); }
    }
  }

  /** Every template splits into parts. */
  lemma {:induction false} Splits(t: string) returns (ps: seq<Part>)
    ensures Split(ps) && Written(ps) == t
    decreases |t|
  {
    hide MatchVar, Reads, NoneBegins;
    if t == "" {
      ps := [];
    } else if MatchVar(t).None? {
      var rest := Splits(t[1..]);
      NoneRead(t);
      assert [t[0]] + t[1..] == t;
      SplitCons(Literal(t[0]), rest);
      ps := [Literal(t[0])] + rest;
      assert ps[1..] == rest;
    } else {
      MatchVarShorter(t);
      var rest := Splits(MatchVar(t).value.1);
      var s := MatchVarSound(t);
      SplitCons(Variable(s), rest);
      ps := [Variable(s)] + rest;
      assert ps[1..] == rest;
    }
  }

  /** Rendering puts the parts together in their order, with every variable replaced by its value; it fails exactly
      when some variable has none. */
  lemma {:induction false} RenderIs<O>(rt: Runtime<O>, ps: seq<Part>, x: string)
    requires Split(ps)
    ensures KeysOf(Written(ps)) == Keys(ps)
    ensures Render(rt, Written(ps)) == Rendered(x) <==> exists texts :: SaysAll(rt, ps, texts) && x == Flat(texts)
    decreases |ps|
  {
    hide MatchVar, Reads, NoneBegins, Split, Flat, SaysAll;
    if ps == [] {
      NothingSaid(rt, x);
    } else {
      var t, rest := Written(ps), ps[1..];
      SplitTail(ps);
      HeadOf(ps);
      if ps[0].Literal? { assert t[1..] == Written(rest); }
      var r := Render(rt, Written(rest));
      RenderIs(rt, rest, if r.Rendered? then r.text else "");
      if Render(rt, t) == Rendered(x) {
        var texts :| SaysAll(rt, rest, texts) && r.text == Flat(texts);
        var first := if ps[0].Literal? then [ps[0].c] else ValueOf(rt, ps[0].source.key).text;
        SaysCons(rt, ps, first, texts);
      }
      if texts :| SaysAll(rt, ps, texts) && x == Flat(texts) {
        SaysTail(rt, ps, texts);
        RenderIs(rt, rest, Flat(texts[1..]));
      }
    }
  }

  lemma {:induction false} NothingSaid<O>(rt: Runtime<O>, x: string)
    ensures Render(rt, "") == Rendered(x) <==> exists texts :: SaysAll(rt, [], texts) && x == Flat(texts)
  {
    if x == "" { assert SaysAll(rt, [], []) && x == Flat([]); }
  }

  lemma {:induction false} SaysCons<O>(rt: Runtime<O>, ps: seq<Part>, first: string, texts: seq<string>)
    requires ps != [] && Says(rt, ps[0], first) && SaysAll(rt, ps[1..], texts)
    ensures SaysAll(rt, ps, [first] + texts) && Flat([first] + texts) == first + Flat(texts)
  {
    hide Says;
    assert ([first] + texts)[1..] == texts;
    forall i | 0 <= i < |ps| ensures Says(rt, ps[i], ([first] + texts)[i]) {
      if i > 0 { assert ps[i] == ps[1..][i - 1] && ([first] + texts)[i] == texts[i - 1]; }
    }
  }

  lemma {:induction false} SaysTail<O>(rt: Runtime<O>, ps: seq<Part>, texts: seq<string>)
    requires ps != [] && SaysAll(rt, ps, texts)
    ensures texts != [] && Says(rt, ps[0], texts[0]) && SaysAll(rt, ps[1..], texts[1..]) && Flat(texts) == texts[0] + Flat(texts[1..])
  {
    hide Says;
    forall i | 0 <= i < |ps[1..]| ensures Says(rt, ps[1..][i], texts[1..][i]) {
      assert ps[1..][i] == ps[i + 1] && texts[1..][i] == texts[i + 1];
    }
  }

  lemma {:induction false} HeadOf(ps: seq<Part>)
    requires Split(ps) && ps != []
    ensures match ps[0]
      case Literal(c) => Written(ps) == [c] + Written(ps[1..]) && MatchVar(Written(ps)).None?
      case Variable(s) => MatchVar(Written(ps)) == Some((s.key, Written(ps[1..]))) && Written(ps) != ""
  {
    hide MatchVar, Reads;
    assert Fits(ps, 0) && ps[0..] == ps;
    if ps[0].Literal? { NoneRead(Written(ps)); } else { MatchVarComplete(ps[0].source, Written(ps[1..])); }
  }

  /** A template is rendered from its parts: it has them, and whatever they are, rendering shows them in order. */
  lemma {:induction false} RenderedByParts<O>(rt: Runtime<O>, t: string, x: string)
    ensures exists ps :: Split(ps) && Written(ps) == t
    ensures forall ps | Split(ps) && Written(ps) == t ::
      && KeysOf(t) == Keys(ps)
      && (Render(rt, t) == Rendered(x) <==> exists texts :: SaysAll(rt, ps, texts) && x == Flat(texts))
  {
    hide Split, Written, Keys, Render, KeysOf, SaysAll, Flat;
    var qs := Splits(t);
    forall ps | Split(ps) && Written(ps) == t
      ensures KeysOf(t) == Keys(ps)
      ensures Render(rt, t) == Rendered(x) <==> exists texts :: SaysAll(rt, ps, texts) && x == Flat(texts)
    {
      RenderIs(rt, ps, x);
    }
  }
}
