/** Templates whose rendering the migration does change, one for each way to fail the exact condition. */
module RenderingLimits {
  import opened Options
  import opened Scanning
  import opened References
  import opened Rendering
  import opened RenderingPreserved
  import opened RenderingExact

  /** A reference to the output "x" of a component. */
  function RefTo(id: string): Match { Match("{", "", id, "@x", "", "}", "") }

  lemma {:induction false} RefToText(id: string)
    ensures RefTo(id).Text() == "{" + id + "@x}"
  {
  }

  /** A dash or an underscore in an id is enough: this reference is renamed and was never read. */
  lemma {:induction false} UnderscoreRefChanges<O>(rt: Runtime<O>, rt': Runtime<O>)
    ensures var a, b := RefTo("Splitter:a_b").Text(), RefTo("TokenChunker:a_b").Text();
      var f := map["Splitter:a_b" := "TokenChunker:a_b"];
      && Render(rt, a) == Rendered(a) && Render(rt', Rewrite(f, a)) == Rendered(b) && a != b
      && UnreadRename(f, a) && !InRuntimeForm(f, a)
  {
    hide MatchRef, KeysOf, Rewrite, Render, InForm, Shaped, InRuntimeForm, UnreadRename, RefTo;
    var f := map["Splitter:a_b" := "TokenChunker:a_b"];
    UnderscoreRef(rt, "Splitter:a_b");
    UnderscoreRef(rt', "TokenChunker:a_b");
    Renames(f, "Splitter:a_b", "TokenChunker:a_b");
    IsUnread(f, "Splitter:a_b");
    FormBehindChar(f, RefTo("Splitter:a_b").Text());
    RefToText("Splitter:a_b");
    RefToText("TokenChunker:a_b");
    assert ("{" + "Splitter:a_b" + "@x}")[1] == 'S' && ("{" + "TokenChunker:a_b" + "@x}")[1] == 'T';
  }

  lemma {:induction false} IsUnread(f: map<string, string>, id: string)
    requires MatchRef(RefTo(id).Text()) == Some(RefTo(id)) && !InForm(RefTo(id)) && id in f && f[id] != id
    ensures UnreadRename(f, RefTo(id).Text()) && RefTo(id).Text() != ""
  {
    hide MatchRef, InForm;
  }

  lemma {:induction false} Renames(f: map<string, string>, id: string, id': string)
    requires id in f && f[id] == id' && MatchRef(RefTo(id).Text()) == Some(RefTo(id))
    ensures Rewrite(f, RefTo(id).Text()) == RefTo(id').Text()
  {
    hide MatchRef, Rewrite, Shaped;
    RewriteReplaces(f, RefTo(id).Text());
    EmptyRewrite(f);
  }

  lemma {:induction false} UnderscoreRef<O>(rt: Runtime<O>, id: string)
    requires id in ["Splitter:a_b", "TokenChunker:a_b"]
    ensures var m := RefTo(id);
      Render(rt, m.Text()) == Rendered(m.Text()) && MatchRef(m.Text()) == Some(m) && !InForm(m)
  {
    hide MatchRef, KeysOf, Render, InForm, Shaped, Whole;
    var m := RefTo(id);
    UnderscoreShaped(m, id);
    MatchRefIff(m.Text(), m);
    UnreadRefIsText(rt, m);
    NothingToRender(rt);
    assert m.Text() + "" == m.Text();
  }

  lemma {:induction false} UnderscoreShaped(m: Match, id: string)
    requires m == RefTo(id) && id in ["Splitter:a_b", "TokenChunker:a_b"]
    ensures Shaped(m) && !InForm(m) && Whole(m) == m.Text()
  {
    assert "@x"[1..] == "x";
    var i := |id| - 2;
    assert id[i] == '_' && !IsKeyChar('_');
  }

  lemma {:induction false} NothingToRender<O>(rt: Runtime<O>)
    ensures Render(rt, "") == Rendered("")
  {
  }

  lemma {:induction false} EmptyRewrite(f: map<string, string>)
    ensures Rewrite(f, "") == ""
  {
  }

  /** A reference to an unknown component whose name a renamed component takes fails before the migration and
      reads that component after it. */
  lemma {:induction false} CapturedRefRenders<O>(rt: Runtime<O>, f: map<string, string>, id: string, attr: string)
    requires f.Keys == rt.comps.Keys && Injective(f) && id !in f && id in f.Values
    requires id != "" && All(IsKeyChar, id) && IsAttr(attr)
    ensures var t := "{" + (id + (attr + "}"));
      && Render(rt, t) == Failed
      && Rewrite(f, t) == t
      && Render(MigrateRuntime(rt, f), t) == rt.show(rt.comps[Source(f, id)], attr)
  {
    hide IsKeyChar, IsIdChar, IsVarChar, IsSpace, MatchRef, Rewrite, KeyAt;
    Classes();
    KeyClasses();
    var t := "{" + (id + (attr + "}"));
    var m := Match("{", "", id, attr, "", "}", "");
    assert "}" + "" == "}" && "" + "}" == "}" && m.Body() == id + (attr + "}") && "" + m.Body() == m.Body();
    MatchRefIff(t, m);
    RewriteReplaces(f, t);
    EmptyRewrite(f);
    SpanIs(IsOpen, "{", m.Body());
    MatchVarCases(t, 1);
    KeyOfRef(id, attr, "}");
    assert Closed(Output(id, attr), "}") == Some((Output(id, attr), Tail(""))) && Tail("") == "";
    assert MatchVar(t) == Some((Output(id, attr), ""));
    RenderOne(rt, t, Output(id, attr));
    RenderOne(MigrateRuntime(rt, f), t, Output(id, attr));
  }

  lemma {:induction false} RenderOne<O>(rt: Runtime<O>, t: string, k: Key)
    requires MatchVar(t) == Some((k, "")) && t != ""
    ensures Render(rt, t) == ValueOf(rt, k)
  {
    hide MatchVar;
    assert Render(rt, "") == Rendered("");
    assert forall s: string :: s + "" == s;
  }
}
