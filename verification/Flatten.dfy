/** The flattening of a nested configuration into dotted names. */
module Flatten {
  import opened Options
  import opened Json
  import opened Scanning

  /** A row of the table. */
  datatype Row = Row(name: string, value: Json)

  /** A non-empty dictionary or list is descended into; anything else is listed. */
  predicate IsInner(v: Json) { (v.Obj? && v.fields != []) || (v.List? && v.items != []) }

  function Digits(n: nat): string {
    if n < 10 then ['0' + n as char] else Digits(n / 10) + ['0' + (n % 10) as char]
  }

  /** The name of a child: `parent.key`, or the bare key at the root, or `parent[i]`. */
  function Join(parent: string, s: PathStep): string {
    match s
    case Key(k) => if parent != "" then parent + "." + k else k
    case Index(i) => parent + "[" + Digits(i) + "]"
  }

  function Rows(v: Json, parent: string): seq<Row>
    decreases v, 0
  {
    match v
    case Obj(fields) => FieldRows(fields, parent)
    case List(items) => ItemRows(items, 0, parent)
    case _ => []
  }

  function ChildRows(v: Json, name: string): seq<Row>
    decreases v, 1
  {
    if IsInner(v) then Rows(v, name) else [Row(name, v)]
  }

  function FieldRows(fields: seq<Field>, parent: string): seq<Row>
    decreases fields
  {
    if fields == [] then []
    else ChildRows(fields[0].value, Join(parent, Key(fields[0].key))) + FieldRows(fields[1..], parent)
  }

  function ItemRows(items: seq<Json>, from: nat, parent: string): seq<Row>
    decreases items
  {
    if items == [] then []
    else ChildRows(items[0], Join(parent, Index(from))) + ItemRows(items[1..], from + 1, parent)
  }

  lemma {:induction false} FieldRowsSnoc(fields: seq<Field>, parent: string, i: nat)
    requires i < |fields|
    ensures FieldRows(fields[..i + 1], parent) ==
            FieldRows(fields[..i], parent) + ChildRows(fields[i].value, Join(parent, Key(fields[i].key)))
    decreases i
  {
    hide ChildRows, Join;
    var c := ChildRows(fields[i].value, Join(parent, Key(fields[i].key)));
    if i == 0 {
      var one := fields[..1];
      assert one[0] == fields[0] && one[1..] == [] && fields[..0] == [];
      assert c + [] == c && [] + c == c;
    } else {
      FieldRowsSnoc(fields[1..], parent, i - 1);
      assert fields[1..][..i] == fields[..i + 1][1..] && fields[1..][..i - 1] == fields[..i][1..];
      assert fields[..i + 1][0] == fields[..i][0] == fields[0];
    }
  }

  lemma {:induction false} ItemRowsSnoc(items: seq<Json>, from: nat, parent: string, i: nat)
    requires i < |items|
    ensures ItemRows(items[..i + 1], from, parent) ==
            ItemRows(items[..i], from, parent) + ChildRows(items[i], Join(parent, Index(from + i)))
    decreases i
  {
    hide ChildRows, Join;
    var c := ChildRows(items[i], Join(parent, Index(from + i)));
    if i == 0 {
      var one := items[..1];
      assert one[0] == items[0] && one[1..] == [] && items[..0] == [];
      assert c + [] == c && [] + c == c;
    } else {
      ItemRowsSnoc(items[1..], from + 1, parent, i - 1);
      assert items[1..][..i] == items[..i + 1][1..] && items[1..][..i - 1] == items[..i][1..];
      assert items[..i + 1][0] == items[..i][0] == items[0];
    }
  }

  /** `flatten` */
  method FlattenObject(obj: Json, parent: string) returns (items: seq<Row>)
    ensures items == Rows(obj, parent)
    decreases obj
  {
    hide Join, FieldRows, ItemRows;
    items := [];
    if obj.Obj? {
      NoRows(parent);
      for i := 0 to |obj.fields|
        invariant items == FieldRows(obj.fields[..i], parent)
      {
        var v := obj.fields[i].value;
        var name := Join(parent, Key(obj.fields[i].key));
        FieldRowsSnoc(obj.fields, parent, i);
        if IsInner(v) {
          var more := FlattenObject(v, name);
          items := items + more;
        } else {
          items := items + [Row(name, v)];
        }
      }
      assert obj.fields[..|obj.fields|] == obj.fields;
    } else if obj.List? {
      NoRows(parent);
      for i := 0 to |obj.items|
        invariant items == ItemRows(obj.items[..i], 0, parent)
      {
        var v := obj.items[i];
        var name := Join(parent, Index(i));
        ItemRowsSnoc(obj.items, 0, parent, i);
        if IsInner(v) {
          var more := FlattenObject(v, name);
          items := items + more;
        } else {
          items := items + [Row(name, v)];
        }
      }
      assert obj.items[..|obj.items|] == obj.items;
    }
  }

  lemma {:induction false} NoRows(parent: string)
    ensures FieldRows([], parent) == [] && ItemRows([], 0, parent) == []
  {
  }

  // ---------------------------------------------------------------- paths

  /** A path to a leaf: something is there, and no step leads on from it. */
  ghost predicate IsLeafPath(v: Json, p: Path) {
    p != [] && Follow(v, p).Some? && forall s: PathStep :: Follow(v, p + [s]).None?
  }

  predicate Ends(v: Json, p: Path) { p != [] && Follow(v, p).Some? && !IsInner(Follow(v, p).value) }

  lemma {:induction false} FollowSnoc(v: Json, p: Path, s: PathStep)
    requires Follow(v, p).Some?
    ensures Follow(v, p + [s]) == Follow(Follow(v, p).value, [s])
    decreases |p|
  {
    if p == [] {
      assert p + [s] == [s];
    } else {
      assert (p + [s])[1..] == p[1..] + [s];
      match p[0]
      case Key(k) => FollowSnoc(Get(v.fields, k).value, p[1..], s);
      case Index(i) => FollowSnoc(v.items[i], p[1..], s);
    }
  }

  lemma {:induction false} InnerLeadsOn(v: Json)
    ensures IsInner(v) <==> exists s: PathStep :: Follow(v, [s]).Some?
  {
    if v.Obj? && v.fields != [] { assert Follow(v, [Key(v.fields[0].key)]).Some?; }
    if v.List? && v.items != [] { assert Follow(v, [Index(0)]).Some?; }
  }

  lemma {:induction false} LeafEnds(v: Json, p: Path)
    ensures IsLeafPath(v, p) <==> Ends(v, p)
  {
    hide Follow, IsInner;
    if Follow(v, p).Some? {
      forall s: PathStep ensures Follow(v, p + [s]) == Follow(Follow(v, p).value, [s]) { FollowSnoc(v, p, s); }
      InnerLeadsOn(Follow(v, p).value);
    }
  }

  /** A dictionary of Python has every key once, at every level. */
  predicate IsDict(v: Json) {
    match v
    case Obj(fields) => Distinct(fields) && forall i | 0 <= i < |fields| :: IsDict(fields[i].value)
    case List(items) => forall i | 0 <= i < |items| :: IsDict(items[i])
    case _ => true
  }

  function Under(s: PathStep, ps: seq<Path>): seq<Path> { seq(|ps|, i requires 0 <= i < |ps| => [s] + ps[i]) }

  /** The paths of the listed values, in the order of the rows. */
  function Paths(v: Json): seq<Path>
    decreases v, 0
  {
    match v
    case Obj(fields) => FieldPaths(fields)
    case List(items) => ItemPaths(items, 0)
    case _ => []
  }

  function ChildPaths(v: Json, s: PathStep): seq<Path>
    decreases v, 1
  {
    if IsInner(v) then Under(s, Paths(v)) else [[s]]
  }

  function FieldPaths(fields: seq<Field>): seq<Path>
    decreases fields
  {
    if fields == [] then [] else ChildPaths(fields[0].value, Key(fields[0].key)) + FieldPaths(fields[1..])
  }

  function ItemPaths(items: seq<Json>, from: nat): seq<Path>
    decreases items
  {
    if items == [] then [] else ChildPaths(items[0], Index(from)) + ItemPaths(items[1..], from + 1)
  }

  function NameFrom(parent: string, p: Path): string
    decreases |p|
  {
    if p == [] then parent else NameFrom(Join(parent, p[0]), p[1..])
  }

  /** The rows are the values at the paths `ps`, under their names. */
  predicate Listed(v: Json, parent: string, rows: seq<Row>, ps: seq<Path>) {
    |rows| == |ps| && forall i | 0 <= i < |rows| ::
      ps[i] != [] && rows[i].name == NameFrom(parent, ps[i]) && Follow(v, ps[i]) == Some(rows[i].value) && !IsInner(rows[i].value)
  }

  lemma {:induction false} ListedChild(v: Json, c: Json, s: PathStep, parent: string)
    requires Follow(v, [s]) == Some(c)
    requires IsInner(c) ==> Listed(c, Join(parent, s), Rows(c, Join(parent, s)), Paths(c))
    ensures Listed(v, parent, ChildRows(c, Join(parent, s)), ChildPaths(c, s))
  {
    hide Rows, Paths, Join;
    var rows, ps := ChildRows(c, Join(parent, s)), ChildPaths(c, s);
    if IsInner(c) {
      forall i | 0 <= i < |rows|
        ensures rows[i].name == NameFrom(parent, ps[i]) && Follow(v, ps[i]) == Some(rows[i].value)
      {
        assert ps[i][1..] == Paths(c)[i] && ps[i][0] == s;
        assert [s][1..] == [];
        assert Follow(v, ps[i]) == Follow(c, Paths(c)[i]);
      }
    } else {
      assert [s][1..] == [];
      assert NameFrom(parent, [s]) == NameFrom(Join(parent, s), []);
    }
  }

  lemma {:induction false} ListedConcat(v: Json, parent: string, r1: seq<Row>, p1: seq<Path>, r2: seq<Row>, p2: seq<Path>)
    requires Listed(v, parent, r1, p1) && Listed(v, parent, r2, p2)
    ensures Listed(v, parent, r1 + r2, p1 + p2)
  {
    hide Follow, NameFrom;
  }

  lemma {:induction false} RowsListed(v: Json, parent: string)
    requires IsDict(v)
    ensures Listed(v, parent, Rows(v, parent), Paths(v))
    decreases v, 2
  {
    match v
    case Obj(fields) => FieldsListed(v, fields, 0, parent);
    case List(items) => ItemsListed(v, items, 0, parent);
    case _ =>
  }

  lemma {:induction false} FieldsListed(v: Json, fields: seq<Field>, k: nat, parent: string)
    requires v.Obj? && IsDict(v) && k <= |v.fields| && fields == v.fields[k..]
    ensures Listed(v, parent, FieldRows(fields, parent), FieldPaths(fields))
    decreases v, 1, |fields|
  {
    hide ChildRows, ChildPaths, Join, NameFrom;
    if fields != [] {
      var f := fields[0];
      GetAt(v.fields, k);
      assert Follow(v, [Key(f.key)]) == Some(f.value) by { assert [Key(f.key)][1..] == []; }
      if IsInner(f.value) { RowsListed(f.value, Join(parent, Key(f.key))); }
      ListedChild(v, f.value, Key(f.key), parent);
      FieldsListed(v, fields[1..], k + 1, parent);
      ListedConcat(v, parent, ChildRows(f.value, Join(parent, Key(f.key))), ChildPaths(f.value, Key(f.key)),
                   FieldRows(fields[1..], parent), FieldPaths(fields[1..]));
    }
  }

  lemma {:induction false} ItemsListed(v: Json, items: seq<Json>, k: nat, parent: string)
    requires v.List? && IsDict(v) && k <= |v.items| && items == v.items[k..]
    ensures Listed(v, parent, ItemRows(items, k, parent), ItemPaths(items, k))
    decreases v, 1, |items|
  {
    hide ChildRows, ChildPaths, Join, NameFrom;
    if items != [] {
      var c := items[0];
      assert Follow(v, [Index(k)]) == Some(c) by { assert [Index(k)][1..] == []; }
      if IsInner(c) { RowsListed(c, Join(parent, Index(k))); }
      ListedChild(v, c, Index(k), parent);
      ItemsListed(v, items[1..], k + 1, parent);
      ListedConcat(v, parent, ChildRows(c, Join(parent, Index(k))), ChildPaths(c, Index(k)),
                   ItemRows(items[1..], k + 1, parent), ItemPaths(items[1..], k + 1));
    }
  }

  // ---------------------------------------------------------------- every leaf once

  predicate AllDifferent<T(==)>(s: seq<T>) { forall i, j | 0 <= i < j < |s| :: s[i] != s[j] }

  predicate StartWith(ps: seq<Path>, s: PathStep) { forall p: Path | p in ps :: p != [] && p[0] == s }

  lemma {:induction false} ChildPathsStart(v: Json, s: PathStep)
    ensures StartWith(ChildPaths(v, s), s)
  {
    hide Paths;
  }

  lemma {:induction false} UnderDifferent(s: PathStep, ps: seq<Path>)
    requires AllDifferent(ps)
    ensures AllDifferent(Under(s, ps))
  {
    var us := Under(s, ps);
    forall i, j | 0 <= i < j < |us| ensures us[i] != us[j] {
      assert us[i][1..] == ps[i] && us[j][1..] == ps[j];
    }
  }

  lemma {:induction false} DifferentConcat<T>(a: seq<T>, b: seq<T>)
    requires AllDifferent(a) && AllDifferent(b) && forall x | x in a :: x !in b
    ensures AllDifferent(a + b)
  {
    forall i, j | 0 <= i < j < |a + b| ensures (a + b)[i] != (a + b)[j] {
      if i < |a| <= j { assert a[i] in a && b[j - |a|] in b; }
    }
  }

  lemma {:induction false} PathsDifferent(v: Json)
    requires IsDict(v)
    ensures AllDifferent(Paths(v))
    decreases v, 2
  {
    match v
    case Obj(fields) => FieldPathsDifferent(fields);
    case List(items) => ItemPathsDifferent(items, 0);
    case _ =>
  }

  lemma {:induction false} FieldPathsDifferent(fields: seq<Field>)
    requires Distinct(fields) && forall i | 0 <= i < |fields| :: IsDict(fields[i].value)
    ensures AllDifferent(FieldPaths(fields))
    ensures forall p: Path | p in FieldPaths(fields) :: p != [] && p[0].Key? && HasKey(fields, p[0].key)
    decreases fields
  {
    hide ChildPaths, IsDict;
    if fields != [] {
      var f := fields[0];
      var a, b := ChildPaths(f.value, Key(f.key)), FieldPaths(fields[1..]);
      ChildPathsStart(f.value, Key(f.key));
      ChildPathsDifferent(f.value, Key(f.key));
      FieldPathsDifferent(fields[1..]);
      assert !HasKey(fields[1..], f.key);
      DifferentConcat(a, b);
      forall p: Path | p in FieldPaths(fields) ensures p != [] && p[0].Key? && HasKey(fields, p[0].key) {
        if p in a {
          assert fields[0].key == p[0].key;
        } else {
          assert p in b;
          var i :| 0 <= i < |fields[1..]| && fields[1..][i].key == p[0].key;
          assert fields[i + 1].key == p[0].key;
        }
      }
    }
  }

  lemma {:induction false} ChildPathsDifferent(v: Json, s: PathStep)
    requires IsDict(v)
    ensures AllDifferent(ChildPaths(v, s))
    decreases v, 3
  {
    hide IsDict;
    if IsInner(v) {
      PathsDifferent(v);
      UnderDifferent(s, Paths(v));
    }
  }

  lemma {:induction false} ItemPathsDifferent(items: seq<Json>, from: nat)
    requires forall i | 0 <= i < |items| :: IsDict(items[i])
    ensures AllDifferent(ItemPaths(items, from))
    ensures forall p: Path | p in ItemPaths(items, from) :: p != [] && p[0].Index? && p[0].i >= from
    decreases items
  {
    hide ChildPaths, IsDict;
    if items != [] {
      var a, b := ChildPaths(items[0], Index(from)), ItemPaths(items[1..], from + 1);
      ChildPathsStart(items[0], Index(from));
      ChildPathsDifferent(items[0], Index(from));
      ItemPathsDifferent(items[1..], from + 1);
      DifferentConcat(a, b);
    }
  }

  lemma {:induction false} GetIndex(fields: seq<Field>, key: string) returns (i: nat)
    requires Get(fields, key).Some?
    ensures i < |fields| && fields[i] == Field(key, Get(fields, key).value)
    decreases |fields|
  {
    if fields[0].key == key { return 0; }
    i := GetIndex(fields[1..], key);
    i := i + 1;
  }

  lemma {:induction false} FieldPathsHas(fields: seq<Field>, i: nat)
    requires i < |fields|
    ensures forall q | q in ChildPaths(fields[i].value, Key(fields[i].key)) :: q in FieldPaths(fields)
    decreases i
  {
    hide ChildPaths;
    if i > 0 { FieldPathsHas(fields[1..], i - 1); }
  }

  lemma {:induction false} ItemPathsHas(items: seq<Json>, from: nat, i: nat)
    requires i < |items|
    ensures forall q | q in ChildPaths(items[i], Index(from + i)) :: q in ItemPaths(items, from)
    decreases i
  {
    hide ChildPaths;
    if i > 0 { ItemPathsHas(items[1..], from + 1, i - 1); }
  }

  lemma {:induction false} LeafIsListed(v: Json, p: Path)
    requires IsDict(v) && IsLeafPath(v, p)
    ensures p in Paths(v)
  {
    LeafEnds(v, p);
    EndIsListed(v, p);
  }

  lemma {:induction false} EndIsListed(v: Json, p: Path)
    requires IsDict(v) && Ends(v, p)
    ensures p in Paths(v)
    decreases |p|, 1
  {
    hide ChildPaths;
    match p[0]
    case Key(k) =>
      var i := GetIndex(v.fields, k);
      EndUnder(v.fields[i].value, Key(k), p);
      FieldPathsHas(v.fields, i);
    case Index(i) =>
      EndUnder(v.items[i], Index(i), p);
      ItemPathsHas(v.items, 0, i);
  }

  lemma {:induction false} EndUnder(c: Json, s: PathStep, p: Path)
    requires IsDict(c) && p != [] && p[0] == s && Follow(c, p[1..]).Some? && !IsInner(Follow(c, p[1..]).value)
    ensures p in ChildPaths(c, s)
    decreases |p|, 0
  {
    hide IsDict, Paths;
    var q := p[1..];
    assert p == [s] + q;
    if q == [] {
      assert !IsInner(c) && p == [s];
      assert ChildPaths(c, s)[0] == p;
    } else {
      assert IsInner(c);
      EndIsListed(c, q);
      var i :| 0 <= i < |Paths(c)| && Paths(c)[i] == q;
      assert ChildPaths(c, s)[i] == p;
    }
  }

  // ---------------------------------------------------------------- reading names back

  predicate IsNameChar(c: char) { c != '.' && c != '[' && c != ']' }

  predicate IsClean(s: PathStep) { s.Key? ==> s.key != "" && All(IsNameChar, s.key) }

  predicate CleanPath(p: Path) { forall i | 0 <= i < |p| :: IsClean(p[i]) }

  predicate CleanKeys(v: Json) {
    match v
    case Obj(fields) => forall i | 0 <= i < |fields| :: IsClean(Key(fields[i].key)) && CleanKeys(fields[i].value)
    case List(items) => forall i | 0 <= i < |items| :: CleanKeys(items[i])
    case _ => true
  }

  /** Reading a name from left to right. */
  function Parse(s: string): Path
    decreases |s|
  {
    if s == "" then []
    else if s[0] == '[' then
      var n := Span(IsDigit, s[1..]);
      if n + 1 < |s| && s[n + 1] == ']' then [Index(Decimal(s[1..][..n]))] + Parse(s[n + 2..]) else []
    else
      var t := if s[0] == '.' then s[1..] else s;
      var n := Span(IsNameChar, t);
      if n == 0 then [] else [Key(t[..n])] + Parse(t[n..])
  }

  lemma {:induction false} DigitsRead(n: nat)
    ensures Digits(n) != "" && All(IsDigit, Digits(n)) && Decimal(Digits(n)) == n
    decreases n
  {
    if n >= 10 {
      DigitsRead(n / 10);
      var d := Digits(n);
      assert d[..|d| - 1] == Digits(n / 10);
    } else {
      var d := Digits(n);
      assert d[..|d| - 1] == "" && Decimal("") == 0;
    }
  }

  function Suffix(s: PathStep): string {
    match s
    case Key(k) => "." + k
    case Index(i) => "[" + (Digits(i) + "]")
  }

  function Suffixes(p: Path): string { if p == [] then "" else Suffix(p[0]) + Suffixes(p[1..]) }

  lemma {:induction false} NameIsSuffixes(parent: string, p: Path)
    requires parent != ""
    ensures NameFrom(parent, p) == parent + Suffixes(p)
    decreases |p|
  {
    hide Join, Suffix;
    if p != [] {
      JoinIsSuffix(parent, p[0]);
      NameIsSuffixes(Join(parent, p[0]), p[1..]);
      assert parent + Suffix(p[0]) + Suffixes(p[1..]) == parent + (Suffix(p[0]) + Suffixes(p[1..]));
    }
  }

  lemma {:induction false} JoinIsSuffix(parent: string, s: PathStep)
    requires parent != ""
    ensures Join(parent, s) == parent + Suffix(s)
  {
    hide Digits;
    match s
    case Key(k) => assert parent + "." + k == parent + ("." + k);
    case Index(i) => assert parent + "[" + Digits(i) + "]" == parent + ("[" + (Digits(i) + "]"));
  }

  lemma {:induction false} SuffixesStop(p: Path)
    ensures Stops(IsNameChar, Suffixes(p)) && Stops(IsDigit, Suffixes(p))
  {
  }

  lemma {:induction false} ParseKey(k: string, rest: string)
    requires k != "" && All(IsNameChar, k) && Stops(IsNameChar, rest)
    ensures Parse("." + k + rest) == [Key(k)] + Parse(rest)
  {
    var t := "." + k + rest;
    assert t[1..] == k + rest;
    SpanIs(IsNameChar, k, rest);
  }

  lemma {:induction false} ParseIndex(i: nat, rest: string)
    ensures Parse("[" + (Digits(i) + "]") + rest) == [Index(i)] + Parse(rest)
  {
    hide Digits, Decimal;
    DigitsRead(i);
    var d := Digits(i);
    var t := "[" + (d + "]") + rest;
    assert t[1..] == d + ("]" + rest);
    SpanIs(IsDigit, d, "]" + rest);
    assert t[|d| + 1] == ']' && t[|d| + 2..] == rest;
  }

  lemma {:induction false} ParseStep(s: PathStep, rest: string)
    requires IsClean(s) && Stops(IsNameChar, rest)
    ensures Parse(Suffix(s) + rest) == [s] + Parse(rest)
  {
    hide Parse;
    match s
    case Key(k) => ParseKey(k, rest);
    case Index(i) => ParseIndex(i, rest);
  }

  lemma {:induction false} ParseSuffixes(p: Path)
    requires CleanPath(p)
    ensures Parse(Suffixes(p)) == p
    decreases |p|
  {
    hide Parse;
    if p == [] {
      assert Parse("") == [] by { ParseNothing(); }
    } else {
      SuffixesStop(p[1..]);
      assert IsClean(p[0]);
      ParseStep(p[0], Suffixes(p[1..]));
      ParseSuffixes(p[1..]);
    }
  }

  lemma {:induction false} ParseNothing()
    ensures Parse("") == []
  {
  }

  /** A name reads back as the path it names. */
  lemma {:induction false} ParseName(p: Path)
    requires p != [] && CleanPath(p)
    ensures Parse(NameFrom("", p)) == p
  {
    hide Parse, Suffixes, Join;
    var s, rest := p[0], p[1..];
    assert IsClean(s);
    ParseSuffixes(rest);
    SuffixesStop(rest);
    RootName(s, Suffixes(rest));
    NameIsSuffixes(Join("", s), rest);
    assert NameFrom("", p) == NameFrom(Join("", s), rest);
  }

  /** The first step of a name has no separator before a key. */
  lemma {:induction false} RootName(s: PathStep, rest: string)
    requires IsClean(s) && Stops(IsNameChar, rest)
    ensures Join("", s) != "" && Parse(Join("", s) + rest) == [s] + Parse(rest)
  {
    hide Digits, Parse;
    match s
    case Key(k) =>
      ParseRootKey(k, rest);
    case Index(i) =>
      ParseIndex(i, rest);
      assert "" + "[" + Digits(i) + "]" == "[" + (Digits(i) + "]");
  }

  lemma {:induction false} ParseRootKey(k: string, rest: string)
    requires k != "" && All(IsNameChar, k) && Stops(IsNameChar, rest)
    ensures Parse(k + rest) == [Key(k)] + Parse(rest)
  {
    SpanIs(IsNameChar, k, rest);
    assert (k + rest)[0] == k[0] && IsNameChar(k[0]);
  }

  lemma {:induction false} FollowClean(v: Json, p: Path)
    requires CleanKeys(v) && Follow(v, p).Some?
    ensures CleanPath(p)
    decreases |p|
  {
    if p != [] {
      match p[0]
      case Key(k) =>
        var i := GetIndex(v.fields, k);
        assert IsClean(Key(v.fields[i].key));
        FollowClean(v.fields[i].value, p[1..]);
      case Index(i) =>
        FollowClean(v.items[i], p[1..]);
    }
  }

  /** Flattening is faithful: the rows are exactly the leaves, each once, under the names of their paths; and when
      keys are non-empty and free of `.`, `[` and `]`, names are pairwise distinct and following a name from the
      root reaches exactly the listed value. */
  lemma {:induction false} Faithful(root: Json)
    requires IsDict(root)
    ensures var rows, ps := Rows(root, ""), Paths(root);
      && Listed(root, "", rows, ps) && AllDifferent(ps)
      && (forall p :: p in ps <==> IsLeafPath(root, p))
      && (CleanKeys(root) ==>
            && (forall i | 0 <= i < |rows| :: Parse(rows[i].name) == ps[i] && Follow(root, Parse(rows[i].name)) == Some(rows[i].value))
            && (forall i, j | 0 <= i < j < |rows| :: rows[i].name != rows[j].name))
  {
    hide IsDict, CleanKeys, Parse, Rows, Paths, Follow;
    var rows, ps := Rows(root, ""), Paths(root);
    RowsListed(root, "");
    PathsDifferent(root);
    forall p ensures p in ps <==> IsLeafPath(root, p) {
      LeafEnds(root, p);
      if Ends(root, p) { EndIsListed(root, p); }
      if p in ps { var i :| 0 <= i < |ps| && ps[i] == p; }
    }
    if CleanKeys(root) {
      forall i | 0 <= i < |rows| ensures Parse(rows[i].name) == ps[i] {
        FollowClean(root, ps[i]);
        ParseName(ps[i]);
      }
    }
  }
}
