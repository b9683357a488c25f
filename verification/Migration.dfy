/** The migration of a canvas DSL: legacy component names and ids become the current ones, everywhere they
    occur.  Functions on JSON values; MigrationCode.dfy has the loops that compute them. */
module Migration {
  import opened Options
  import opened Json
  import R = References

  // ---------------------------------------------------------------- ids and names

  const COMPONENT_RENAMES: seq<(string, string)> :=
    [("Splitter", "TokenChunker"), ("HierarchicalMerger", "TitleChunker"), ("PDFGenerator", "DocGenerator")]

  predicate StartsWith(s: string, p: string) { |p| <= |s| && s[..|p|] == p }

  /** The id with the first legacy prefix `old:` replaced. */
  function NewIdBy(renames: seq<(string, string)>, id: string): string {
    if renames == [] then id
    else
      var prefix := renames[0].0 + ":";
      if StartsWith(id, prefix) then renames[0].1 + ":" + id[|prefix|..] else NewIdBy(renames[1..], id)
  }

  function NewId(id: string): string { NewIdBy(COMPONENT_RENAMES, id) }

  /** `COMPONENT_RENAMES.get(name, name)` */
  function NewNameBy(renames: seq<(string, string)>, name: string): string {
    if renames == [] then name
    else if name == renames[0].0 then renames[0].1
    else NewNameBy(renames[1..], name)
  }

  function NewName(name: string): string { NewNameBy(COMPONENT_RENAMES, name) }

  function NewNodeType(t: string): string { if t == "splitterNode" then "chunkerNode" else t }

  function Keys(fields: seq<Field>): seq<string> {
    seq(|fields|, i requires 0 <= i < |fields| => fields[i].key)
  }

  function IdMap(components: seq<Field>): map<string, string> {
    map k | k in Keys(components) :: NewId(k)
  }

  // ---------------------------------------------------------------- edits of single values

  /** `rewrite_value` */
  function RewriteValue(f: map<string, string>, v: Json): Json {
    match v
    case Str(t) => Str(R.RewriteText(f, t))
    case List(items) => List(seq(|items|, i requires 0 <= i < |items| => RewriteValue(f, items[i])))
    case Obj(fields) =>
      Obj(seq(|fields|, i requires 0 <= i < |fields| => Field(fields[i].key, RewriteValue(f, fields[i].value))))
    case _ => v
  }

  predicate Hashable(v: Json) { !v.List? && !v.Obj? }

  /** `component_id_map.get(v, v)`; a list or dictionary cannot be looked up. */
  function LookUp(f: map<string, string>, v: Json): Json { if v.Str? then Str(R.Renamed(f, v.text)) else v }

  /** A list of ids, each looked up; anything but a list is left alone. */
  function EditIds(f: map<string, string>, v: Json): Option<Json> {
    if !v.List? then Some(v)
    else if exists i | 0 <= i < |v.items| :: !Hashable(v.items[i]) then None
    else Some(List(seq(|v.items|, i requires 0 <= i < |v.items| => LookUp(f, v.items[i]))))
  }

  /** A string id looked up; anything else is left alone. */
  function EditId(f: map<string, string>, v: Json): Option<Json> { Some(LookUp(f, v)) }

  function EditName(v: Json): Option<Json> { Some(if v.Str? then Str(NewName(v.text)) else v) }

  function EditType(v: Json): Option<Json> { Some(if v.Str? then Str(NewNodeType(v.text)) else v) }

  function EditAll(f: map<string, string>, v: Json): Option<Json> { Some(RewriteValue(f, v)) }

  /** The name of the component object is looked up whether or not it is there. */
  function EditObj(v: Json): Option<Json> {
    if !v.Obj? then Some(v)
    else
      var name := Get(v.fields, "component_name");
      var n := if name.Some? then name.value else Null;
      if !Hashable(n) then None
      else Some(Obj(Put(v.fields, "component_name", if n.Str? then Str(NewName(n.text)) else n)))
  }

  function OnObj(v: Json, steps: seq<Step>): Option<Json> {
    if !v.Obj? then Some(v)
    else
      var r := Pipe(v.fields, steps);
      if r.None? then None else Some(Obj(r.value))
  }

  function OnItems(items: seq<Json>, edit: Json -> Option<Json>): Option<seq<Json>> {
    if items == [] then Some([])
    else
      var x, rest := edit(items[0]), OnItems(items[1..], edit);
      if x.None? || rest.None? then None else Some([x.value] + rest.value)
  }

  function OnList(v: Json, edit: Json -> Option<Json>): Option<Json> {
    if !v.List? then Some(v)
    else
      var r := OnItems(v.items, edit);
      if r.None? then None else Some(List(r.value))
  }

  // ---------------------------------------------------------------- components

  function ComponentSteps(f: map<string, string>): seq<Step> {
    [Step("obj", EditObj), Step("downstream", v => EditIds(f, v)), Step("upstream", v => EditIds(f, v)),
     Step("parent_id", v => EditId(f, v))]
  }

  function EditComponent(f: map<string, string>, v: Json): Option<Json> {
    OnObj(RewriteValue(f, v), ComponentSteps(f))
  }

  /** The components under their new ids, in order; a later one replaces an earlier one of the same id. */
  function Rekeyed(f: map<string, string>, done: seq<Field>, components: seq<Field>): Option<seq<Field>>
    decreases |components|
  {
    if components == [] then Some(done)
    else
      var c := EditComponent(f, components[0].value);
      if c.None? then None
      else Rekeyed(f, Put(done, R.Renamed(f, components[0].key), c.value), components[1..])
  }

  function EditComponents(f: map<string, string>, v: Json): Option<Json> {
    if !v.Obj? then Some(v)
    else
      var r := Rekeyed(f, [], v.fields);
      if r.None? then None else Some(Obj(r.value))
  }

  // ---------------------------------------------------------------- the graph

  function DataSteps(f: map<string, string>): seq<Step> {
    [Step("label", EditName), Step("name", EditName), Step("form", v => EditAll(f, v))]
  }

  function NodeSteps(f: map<string, string>): seq<Step> {
    [Step("id", v => EditId(f, v)), Step("parentId", v => EditId(f, v)), Step("type", EditType),
     Step("data", v => OnObj(v, DataSteps(f)))]
  }

  /** `s.replace(old, new)` */
  function Replace(s: string, old_: string, new_: string): string
    decreases |s|
  {
    if old_ == "" then Interleave(s, new_)
    else if |s| < |old_| then s
    else if s[..|old_|] == old_ then new_ + Replace(s[|old_|..], old_, new_)
    else [s[0]] + Replace(s[1..], old_, new_)
  }

  function Interleave(s: string, x: string): string { if s == "" then x else x + [s[0]] + Interleave(s[1..], x) }

  /** `sorted(ids, key=len, reverse=True)`: longest first, equal lengths in their old order. */
  function Longest(ids: seq<string>): seq<string> { if ids == [] then [] else Insert(ids[0], Longest(ids[1..])) }

  function Insert(x: string, ids: seq<string>): seq<string> {
    if ids == [] then [x] else if |ids[0]| <= |x| then [x] + ids else [ids[0]] + Insert(x, ids[1..])
  }

  function ReplaceAll(f: map<string, string>, ids: seq<string>, s: string): string
    decreases |ids|
  {
    if ids == [] then s else ReplaceAll(f, ids[1..], Replace(s, ids[0], R.Renamed(f, ids[0])))
  }

  function EditEdgeId(f: map<string, string>, ids: seq<string>, v: Json): Option<Json> {
    Some(if v.Str? then Str(ReplaceAll(f, Longest(ids), v.text)) else v)
  }

  function EdgeSteps(f: map<string, string>, ids: seq<string>): seq<Step> {
    [Step("source", v => EditId(f, v)), Step("target", v => EditId(f, v)), Step("id", v => EditEdgeId(f, ids, v))]
  }

  function GraphSteps(f: map<string, string>, ids: seq<string>): seq<Step> {
    [Step("nodes", v => OnList(v, n => OnObj(n, NodeSteps(f)))),
     Step("edges", v => OnList(v, e => OnObj(e, EdgeSteps(f, ids))))]
  }

  // ---------------------------------------------------------------- the whole DSL

  function DslSteps(f: map<string, string>, ids: seq<string>): seq<Step> {
    [Step("components", v => EditComponents(f, v)), Step("path", v => EditIds(f, v)),
     Step("graph", v => OnObj(v, GraphSteps(f, ids))),
     Step("history", v => EditAll(f, v)), Step("messages", v => EditAll(f, v)), Step("reference", v => EditAll(f, v))]
  }

  function ComponentsOf(dsl: Json): Option<seq<Field>> {
    if !dsl.Obj? then None
    else
      var c := Get(dsl.fields, "components");
      if c.Some? && c.value.Obj? then Some(c.value.fields) else None
  }

  /** `normalize_chunker_dsl`; None where it raises. */
  function Normalize(dsl: Json): Option<Json> {
    var c := ComponentsOf(dsl);
    if c.None? then Some(dsl) else OnObj(dsl, DslSteps(IdMap(c.value), Keys(c.value)))
  }
}
