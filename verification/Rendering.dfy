/** The runtime's template rendering, and the theorem that migrating a template preserves what it renders to.

    The runtime pattern differs from the migration's: it admits no white space inside the braces and no `_` or
    `-` in a component id, knows `sys.` and `env.` variables, and swallows braces and blanks on both sides. */
module Rendering {
  import opened Options
  import opened Scanning
  import opened References

  /** [a-zA-Z:0-9] */
  predicate IsKeyChar(c: char) { IsAlnum(c) || c == ':' }

  /** [A-Za-z0-9_.] */
  predicate IsGlobalChar(c: char) { IsAlnum(c) || c == '_' || c == '.' }

  datatype Key = Output(id: string, attr: string) | Global(name: string)

  /** The blanks and braces that may follow the closing brace of a reference. */
  function Tail(t: string): (r: string)
    ensures |r| <= |t|
  {
    var u := t[Span(IsBlank, t)..];
    u[Span(IsClose, u)..]
  }

  function Closed(k: Key, t: string): Option<(Key, string)> {
    if t != "" && t[0] == '}' then Some((k, Tail(t[1..]))) else None
  }

  function GlobalKey(t: string): Option<(Key, string)> {
    if |t| >= 4 && (t[..4] == "sys." || t[..4] == "env.") then
      var n := Span(IsGlobalChar, t[4..]);
      if n == 0 then None else Closed(Global(t[..4 + n]), t[4..][n..])
    else None
  }

  /** The pattern from its group on: `(id@var|sys.x|env.x)\} *\}*`, and the text after it. */
  function KeyAt(t: string): Option<(Key, string)> {
    var n := Span(IsKeyChar, t);
    if 0 < n < |t| && t[n] == '@' then
      var k := Span(IsVarChar, t[n + 1..]);
      if k == 0 then None else Closed(Output(t[..n], t[n..][..k + 1]), t[n..][k + 1..])
    else GlobalKey(t)
  }

  /** `\{* *\{(id@var|sys.x|env.x)\} *\}*` at the start of `t`. */
  function MatchVar(t: string): Option<(Key, string)> {
    var b := Span(IsOpen, t);
    var u := t[b..];
    var c := Span(IsBlank, u);
    if c == 0 then (if b > 0 then KeyAt(u) else None)
    else
      var v := u[c..];
      if v != "" && v[0] == '{' then KeyAt(v[1..]) else None
  }

  lemma {:induction false} KeyAtShorter(t: string)
    ensures KeyAt(t).Some? ==> |KeyAt(t).value.1| < |t|
  {
    hide IsKeyChar, IsVarChar, IsGlobalChar;
  }

  lemma {:induction false} MatchVarShorter(t: string)
    ensures MatchVar(t).Some? ==> |MatchVar(t).value.1| < |t|
  {
    hide KeyAt;
    var u := t[Span(IsOpen, t)..];
    KeyAtShorter(u);
    var v := u[Span(IsBlank, u)..];
    if v != "" { KeyAtShorter(v[1..]); }
  }

  // ---------------------------------------------------------------- rendering

  datatype Result = Rendered(text: string) | Failed

  /** What a template is rendered against: the outputs of every component, how the attribute part of a
      reference reads them (path descent, streams and JSON included, which may raise), and the canvas globals. */
  datatype Runtime<!O> = Runtime(comps: map<string, O>, show: (O, string) -> Result, globals: map<string, Result>)

  /** `get_variable_value` with the conversion to text; it raises for an unknown component or global, and
      where the value has no text. */
  function ValueOf<O>(rt: Runtime<O>, k: Key): Result {
    match k
    case Output(id, attr) => if id in rt.comps then rt.show(rt.comps[id], attr) else Failed
    case Global(name) => if name in rt.globals then rt.globals[name] else Failed
  }

  function Prepend(s: string, r: Result): Result { if r.Rendered? then Rendered(s + r.text) else Failed }

  /** `get_value_with_variable` */
  function Render<O>(rt: Runtime<O>, t: string): Result
    decreases |t|
  {
    if t == "" then Rendered("")
    else if MatchVar(t).None? then Prepend([t[0]], Render(rt, t[1..]))
    else
      MatchVarShorter(t);
      var (k, rest) := MatchVar(t).value;
      var v := ValueOf(rt, k);
      if v.Failed? then Failed else Prepend(v.text, Render(rt, rest))
  }

  // ---------------------------------------------------------------- renaming

  /** A rename that keeps every id inside the same character classes. */
  predicate KeepsClasses(f: map<string, string>) {
    forall id | id in f ::
      && (All(IsIdChar, id) ==> All(IsIdChar, f[id]))
      && (All(IsKeyChar, id) <==> All(IsKeyChar, f[id]))
      && (id != "" <==> f[id] != "")
  }

  predicate Injective(f: map<string, string>) { forall a, b | a in f && b in f && f[a] == f[b] :: a == b }

  /** The same components under their new names. */
  function MigrateRuntime<O>(rt: Runtime<O>, f: map<string, string>): Runtime<O>
    requires f.Keys == rt.comps.Keys && Injective(f)
  {
    Runtime(map id | id in f.Values :: rt.comps[Source(f, id)], rt.show, rt.globals)
  }

  function Source(f: map<string, string>, id: string): string
    requires id in f.Values && Injective(f)
  {
    var x :| x in f && f[x] == id; x
  }

  function RenamedKey(f: map<string, string>, k: Key): Key {
    if k.Output? then k.(id := Renamed(f, k.id)) else k
  }

  /** The form in which the runtime recognises a reference: no white space inside the braces, and no `_` or `-`
      in the component id. */
  predicate InForm(m: Match) { m.gap == "" && m.gap2 == "" && All(IsKeyChar, m.id) }

  predicate UnreadRename(f: map<string, string>, t: string) {
    MatchRef(t).Some? && Renamed(f, MatchRef(t).value.id) != MatchRef(t).value.id && !InForm(MatchRef(t).value)
  }

  /** A reference the migration renames is one the runtime recognises. */
  predicate InRuntimeForm(f: map<string, string>, t: string) {
    forall p | 0 <= p < |t| :: !UnreadRename(f, t[p..])
  }

  /** The variables the runtime reads in a template, in order. */
  function KeysOf(t: string): seq<Key>
    decreases |t|
  {
    if t == "" then []
    else if MatchVar(t).None? then KeysOf(t[1..])
    else
      MatchVarShorter(t);
      [MatchVar(t).value.0] + KeysOf(MatchVar(t).value.1)
  }

  /** A reference to an unknown component that becomes one to a renamed component. */
  predicate Captured(f: map<string, string>, k: Key) { k.Output? && k.id !in f && k.id in f.Values }

  predicate NoCapture(f: map<string, string>, t: string) { forall k | k in KeysOf(t) :: !Captured(f, k) }

  lemma {:induction false} ValueKept<O>(rt: Runtime<O>, f: map<string, string>, k: Key)
    requires f.Keys == rt.comps.Keys && Injective(f)
    ensures !Captured(f, k) ==> ValueOf(MigrateRuntime(rt, f), RenamedKey(f, k)) == ValueOf(rt, k)
    ensures Captured(f, k) ==>
              ValueOf(rt, k).Failed? && ValueOf(MigrateRuntime(rt, f), RenamedKey(f, k)) == rt.show(rt.comps[Source(f, k.id)], k.attr)
  {
    if k.Output? && k.id in f { assert f[k.id] in f.Values; }
  }

  // ---------------------------------------------------------------- what rewriting does to the runtime pattern

  lemma {:induction false} KeyClasses()
    ensures forall c :: IsOpen(c) ==> !IsKeyChar(c) && !IsVarChar(c) && !IsGlobalChar(c) && !IsBlank(c) && !IsClose(c)
    ensures forall c :: IsBlank(c) ==> IsSpace(c)
    ensures forall c :: IsKeyChar(c) ==> IsIdChar(c)
    ensures forall c :: IsSpace(c) ==> !IsKeyChar(c) && !IsGlobalChar(c)
    ensures forall c :: IsBlank(c) ==> !IsClose(c)
    ensures !IsKeyChar('@') && !IsKeyChar('.')
  {
  }

  lemma {:induction false} SpanWithin(p: char -> bool, a: string, b: string)
    requires Stops(p, b)
    ensures Span(p, a + b) == Span(p, a)
  {
    var n := Span(p, a);
    assert a + b == a[..n] + (a[n..] + b);
    SpanIs(p, a[..n], a[n..] + b);
  }

  lemma {:induction false} TailWithin(a: string, b: string)
    requires Stops(IsBlank, b) && Stops(IsClose, b)
    ensures Tail(a + b) == Tail(a) + b && (All(NotOpen, a) ==> All(NotOpen, Tail(a)))
  {
    hide Span;
    var n := Span(IsBlank, a);
    SpanWithin(IsBlank, a, b);
    SplitConcat(a, b, n);
    SpanWithin(IsClose, a[n..], b);
    SplitConcat(a[n..], b, Span(IsClose, a[n..]));
  }

  /** The same key with more text after it. */
  function Carry(r: Option<(Key, string)>, b: string): Option<(Key, string)> {
    if r.Some? then Some((r.value.0, r.value.1 + b)) else None
  }

  lemma {:induction false} ClosedWithin(k: Key, a: string, b: string)
    requires All(NotOpen, a) && (b != "" ==> b[0] == '{')
    ensures Closed(k, a + b) == Carry(Closed(k, a), b)
    ensures Closed(k, a).Some? ==> All(NotOpen, Closed(k, a).value.1)
  {
    if a != "" {
      assert (a + b)[1..] == a[1..] + b;
      TailWithin(a[1..], b);
    }
  }

  lemma {:induction false} SplitConcat(a: string, b: string, n: nat)
    requires n <= |a|
    ensures (a + b)[..n] == a[..n] && (a + b)[n..] == a[n..] + b
  {
  }

  /** The pattern from its group on never reaches past an opening brace. */
  lemma {:induction false} KeyWithin(a: string, b: string)
    requires All(NotOpen, a) && (b != "" ==> b[0] == '{')
    ensures KeyAt(a + b) == Carry(KeyAt(a), b)
    ensures KeyAt(a).Some? ==> All(NotOpen, KeyAt(a).value.1)
  {
    hide IsKeyChar, IsVarChar, IsGlobalChar, Closed, GlobalKey, Span;
    KeyClasses();
    var n := Span(IsKeyChar, a);
    SpanWithin(IsKeyChar, a, b);
    GlobalWithin(a, b);
    if 0 < n < |a| && a[n] == '@' {
      SplitConcat(a, b, n);
      SplitConcat(a, b, n + 1);
      SpanWithin(IsVarChar, a[n + 1..], b);
      var k := Span(IsVarChar, a[n + 1..]);
      SplitConcat(a[n..], b, k + 1);
      ClosedWithin(Output(a[..n], a[n..][..k + 1]), a[n..][k + 1..], b);
    }
  }

  lemma {:induction false} GlobalWithin(a: string, b: string)
    requires All(NotOpen, a) && (b != "" ==> b[0] == '{')
    ensures GlobalKey(a + b) == Carry(GlobalKey(a), b)
    ensures GlobalKey(a).Some? ==> All(NotOpen, GlobalKey(a).value.1)
  {
    hide IsGlobalChar, Closed, Span;
    KeyClasses();
    if |a| >= 4 {
      assert (a + b)[..4] == a[..4] && (a + b)[4..] == a[4..] + b;
      SpanWithin(IsGlobalChar, a[4..], b);
      var n := Span(IsGlobalChar, a[4..]);
      assert (a[4..] + b)[n..] == a[4..][n..] + b;
      assert (a + b)[..4 + n] == a[..4 + n];
      ClosedWithin(Global(a[..4 + n]), a[4..][n..], b);
    } else if |a + b| >= 4 {
      PrefixIsNotGlobal(a + b, |a|);
    }
  }

  /** A text with a brace or an at sign among its first four characters begins no global. */
  lemma {:induction false} PrefixIsNotGlobal(t: string, i: nat)
    requires i < 4 <= |t| && (t[i] == '{' || t[i] == '@')
    ensures GlobalKey(t) == None
  {
    hide IsGlobalChar, Closed;
    assert t[..4] != "sys." by { assert t[..4][i] == t[i] != "sys."[i]; }
    assert t[..4] != "env." by { assert t[..4][i] == t[i] != "env."[i]; }
  }

  /** Rewriting commutes with the group of the runtime pattern. */
  lemma {:induction false} KeyStable(f: map<string, string>, u: string)
    ensures KeyAt(Rewrite(f, u)) == (if KeyAt(u).Some? then Some((KeyAt(u).value.0, Rewrite(f, KeyAt(u).value.1))) else None)
  {
    hide KeyAt, Rewrite, MatchRef;
    var n := Span(NotOpen, u);
    var a, b := u[..n], u[n..];
    assert u == a + b;
    PassThrough(f, a, b);
    HeadKept(f, b);
    KeyWithin(a, b);
    KeyWithin(a, Rewrite(f, b));
    if KeyAt(a).Some? { PassThrough(f, KeyAt(a).value.1, b); }
  }

  /** A reference seen from its id: the runtime accepts it when there is no white space before the brace and
      the id has only key characters. */
  lemma {:induction false} KeyOfRef(id: string, attr: string, y: string)
    requires id != "" && All(IsIdChar, id) && IsAttr(attr) && Stops(IsVarChar, y)
    ensures KeyAt(id + (attr + y)) == if All(IsKeyChar, id) then Closed(Output(id, attr), y) else None
  {
    hide IsVarChar, Closed, KeyAt, IsKeyChar, IsIdChar, IsAttr;
    if All(IsKeyChar, id) { KeyInForm(id, attr, y); } else { KeyOutOfForm(id, attr, y); }
  }

  lemma {:induction false} KeyInForm(id: string, attr: string, y: string)
    requires id != "" && All(IsKeyChar, id) && IsAttr(attr) && Stops(IsVarChar, y)
    ensures KeyAt(id + (attr + y)) == Closed(Output(id, attr), y)
  {
    hide IsVarChar, Closed, IsKeyChar, Span, KeyAt, All;
    KeyClasses();
    var u := attr + y;
    var t := id + u;
    SpanIs(IsKeyChar, id, u);
    SplitConcat(attr, y, 1);
    SpanIs(IsVarChar, attr[1..], y);
    assert t[|id| + 1..] == u[1..];
    KeyAtPieces(t, |id|, |attr| - 1);
    SplitConcat(attr, y, |attr|);
    assert attr[..|attr|] == attr && attr[|attr|..] + y == y;
  }

  lemma {:induction false} KeyAtPieces(t: string, n: nat, k: nat)
    requires n == Span(IsKeyChar, t) && 0 < n < |t| && t[n] == '@' && k == Span(IsVarChar, t[n + 1..]) && k > 0
    ensures n + k + 1 <= |t| && KeyAt(t) == Closed(Output(t[..n], t[n..][..k + 1]), t[n..][k + 1..])
  {
    hide IsKeyChar, IsVarChar, Closed, GlobalKey, Span;
  }

  lemma {:induction false} KeyOutOfForm(id: string, attr: string, y: string)
    requires All(IsIdChar, id) && !All(IsKeyChar, id) && IsAttr(attr)
    ensures KeyAt(id + (attr + y)) == None
  {
    hide IsVarChar, Closed, GlobalKey, IsKeyChar, Span, IsIdChar;
    Classes();
    NoGlobal(id, attr, y);
    var t := id + (attr + y);
    var n := Span(IsKeyChar, t);
    var i :| 0 <= i < |id| && !IsKeyChar(id[i]);
    assert t[i] == id[i];
    assert n < |id|;
    assert t[n] == id[n] && IsIdChar(id[n]);
  }

  lemma {:induction false} NoGlobal(id: string, attr: string, y: string)
    requires id != "" && All(IsIdChar, id) && IsAttr(attr)
    ensures GlobalKey(id + (attr + y)) == None
  {
    hide IsVarChar, Closed, GlobalKey;
    var t := id + (attr + y);
    if |id| < 4 {
      assert t[|id|] == '@';
      if |t| >= 4 { PrefixIsNotGlobal(t, |id|); } else { TooShort(t); }
    } else {
      assert t[3] == id[3] && IsIdChar(t[3]);
      DotIsNoIdChar(t);
    }
  }

  lemma {:induction false} TooShort(t: string)
    requires |t| < 4
    ensures GlobalKey(t) == None
  {
  }

  lemma {:induction false} DotIsNoIdChar(t: string)
    requires |t| >= 4 && t[3] != '.'
    ensures GlobalKey(t) == None
  {
    assert t[..4][3] == t[3];
  }
}
