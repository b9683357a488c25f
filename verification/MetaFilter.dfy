/** Metadata filters: which documents a filter selects, and how the selections of several are combined. */
module MetaFilter {
  import opened Scanning

  type DocId = string

  datatype Op = Eq | Ne | Gt | Lt | Ge | Le | Otherwise(name: string)

  datatype Filter = Filter(key: string, op: Op, value: string)

  /** One value of a metadata key, by its text, and the documents that have it. */
  type Postings = seq<(string, seq<DocId>)>

  /** What the code does with operands it does not treat as dates: whether they match, and what the query value
      has become (it is parsed and lower-cased in place, and stays so for the following values). */
  type Comparison = (Op, string, string) -> (bool, string)

  /** Which characters beyond ASCII `str.isdigit` accepts. */
  type ForeignDigits = char -> bool

  predicate IsAnyDigit(more: ForeignDigits, c: char) { IsDigit(c) || (c as int > 127 && more(c)) }

  function Strip(s: string): string {
    if s != "" && IsSpace(s[0]) then Strip(s[1..])
    else if s != "" && IsSpace(s[|s| - 1]) then Strip(s[..|s| - 1])
    else s
  }

  predicate AllDigits(more: ForeignDigits, s: string) { s != "" && forall i | 0 <= i < |s| :: IsAnyDigit(more, s[i]) }

  /** YYYY-MM-DD */
  predicate IsDate(more: ForeignDigits, s: string) {
    |s| == 10 && s[4] == '-' && s[7] == '-' &&
    AllDigits(more, s[..4]) && AllDigits(more, s[5..7]) && AllDigits(more, s[8..10])
  }

  /** Python's order on strings. */
  predicate Less(a: string, b: string) {
    b != "" && (a == "" || a[0] < b[0] || (a[0] == b[0] && Less(a[1..], b[1..])))
  }

  predicate Compare(op: Op, a: string, b: string)
    requires !op.Otherwise?
  {
    match op
    case Eq => a == b
    case Ne => a != b
    case Gt => Less(b, a)
    case Lt => Less(a, b)
    case Ge => a == b || Less(b, a)
    case Le => a == b || Less(a, b)
  }

  /** One turn of the loop of `filter_out`: does the value match, and what is the query value afterwards? */
  function Test(more: ForeignDigits, other: Comparison, op: Op, input: string, value: string): (bool, string) {
    if !op.Otherwise? && IsDate(more, Strip(value)) then
      if IsDate(more, Strip(input)) then (Compare(op, Strip(input), Strip(value)), Strip(value)) else (false, value)
    else other(op, input, value)
  }

  function FilterOut(more: ForeignDigits, other: Comparison, postings: Postings, op: Op, value: string): seq<DocId> {
    if postings == [] then []
    else
      var (matched, value') := Test(more, other, op, postings[0].0, value);
      (if matched then postings[0].1 else []) + FilterOut(more, other, postings[1..], op, value')
  }

  lemma {:induction false} FilterStep(more: ForeignDigits, other: Comparison, postings: Postings, op: Op, value: string, before: seq<DocId>, i: nat)
    requires i < |postings|
    ensures var (matched, value') := Test(more, other, op, postings[i].0, value);
            before + FilterOut(more, other, postings[i..], op, value)
            == (if matched then before + postings[i].1 else before) + FilterOut(more, other, postings[i + 1..], op, value')
  {
    hide Test;
    assert postings[i..][1..] == postings[i + 1..] && postings[i..][0] == postings[i];
  }

  /** `filter_out` */
  method SelectDocuments(more: ForeignDigits, other: Comparison, postings: Postings, op: Op, query: string)
      returns (ids: seq<DocId>)
    ensures ids == FilterOut(more, other, postings, op, query)
  {
    hide Test, FilterOut;
    ids := [];
    var value := query;
    assert postings[0..] == postings;
    for i := 0 to |postings|
      invariant FilterOut(more, other, postings, op, query) == ids + FilterOut(more, other, postings[i..], op, value)
    {
      FilterStep(more, other, postings, op, value, ids, i);
      var (matched, value') := Test(more, other, op, postings[i].0, value);
      if matched {
        ids := ids + postings[i].1;
      }
      value := value';
    }
    assert postings[|postings|..] == [] && ids + [] == ids;
    NoPostings(more, other, op, value);
  }

  lemma {:induction false} NoPostings(more: ForeignDigits, other: Comparison, op: Op, value: string)
    ensures FilterOut(more, other, [], op, value) == []
  {}

  /** `str.strip`: what is left between the white space at both ends. */
  lemma {:induction false} StripIs(s: string) returns (a: string, b: string)
    ensures s == a + Strip(s) + b && All(IsSpace, a) && All(IsSpace, b)
    ensures Strip(s) != "" ==> !IsSpace(Strip(s)[0]) && !IsSpace(Strip(s)[|Strip(s)| - 1])
    decreases |s|
  {
    hide IsSpace;
    a, b := "", "";
    if s != "" && IsSpace(s[0]) {
      a, b := StripIs(s[1..]);
      a := [s[0]] + a;
    } else if s != "" && IsSpace(s[|s| - 1]) {
      a, b := StripIs(s[..|s| - 1]);
      b := b + [s[|s| - 1]];
    }
  }

  // ---------------------------------------------------------------- which values match

  /** Is the query value, as it stands, compared as a date? */
  predicate AsDate(more: ForeignDigits, op: Op, value: string) { !op.Otherwise? && IsDate(more, Strip(value)) }

  predicate Matches(more: ForeignDigits, other: Comparison, op: Op, input: string, value: string) {
    if AsDate(more, op, value) then IsDate(more, Strip(input)) && Compare(op, Strip(input), Strip(value))
    else other(op, input, value).0
  }

  /** What the query value is, one after the other, for the values it is compared with. */
  ghost predicate Queries(more: ForeignDigits, other: Comparison, postings: Postings, op: Op, value: string, values: seq<string>) {
    && |values| == |postings| + 1 && values[0] == value
    && forall i | 0 <= i < |postings| ::
         values[i + 1] ==
           if !AsDate(more, op, values[i]) then other(op, postings[i].0, values[i]).1
           else if IsDate(more, Strip(postings[i].0)) then Strip(values[i])
           else values[i]
  }

  lemma {:induction false} TestIs(more: ForeignDigits, other: Comparison, op: Op, input: string, value: string)
    ensures var (matched, value') := Test(more, other, op, input, value);
      && (matched <==> Matches(more, other, op, input, value))
      && value' == if !AsDate(more, op, value) then other(op, input, value).1
                   else if IsDate(more, Strip(input)) then Strip(value)
                   else value
  {
    hide IsDate, Strip, Compare;
  }

  /** A filter selects the documents of the values that match: as dates where the query value is a date by then, and
      as the comparison of other operands says, with the query value it left behind last, where it is not. */
  lemma {:induction false} MatchesSelect(more: ForeignDigits, other: Comparison, postings: Postings, op: Op, value: string)
      returns (values: seq<string>)
    ensures Queries(more, other, postings, op, value, values)
    ensures forall d :: d in FilterOut(more, other, postings, op, value) <==>
                          exists i | 0 <= i < |postings| :: d in postings[i].1 && Matches(more, other, op, postings[i].0, values[i])
    decreases |postings|
  {
    hide Test, Matches, AsDate, IsDate, Strip;
    values := [value];
    if postings != [] {
      var rest := postings[1..];
      var (matched, value') := Test(more, other, op, postings[0].0, value);
      TestIs(more, other, op, postings[0].0, value);
      var later := MatchesSelect(more, other, rest, op, value');
      values := [value] + later;
      assert forall i | 0 <= i < |rest| :: postings[i + 1] == rest[i] && values[i + 1] == later[i];
      assert Queries(more, other, postings, op, value, values) by { QueriesCons(more, other, postings, op, value, later); }
      forall d
        ensures d in FilterOut(more, other, postings, op, value) <==>
                exists i | 0 <= i < |postings| :: d in postings[i].1 && Matches(more, other, op, postings[i].0, values[i])
      {
        if i :| 0 <= i < |rest| && d in rest[i].1 && Matches(more, other, op, rest[i].0, later[i]) {
          assert d in postings[i + 1].1 && Matches(more, other, op, postings[i + 1].0, values[i + 1]);
        }
        if i :| 0 <= i < |postings| && d in postings[i].1 && Matches(more, other, op, postings[i].0, values[i]) {
          if i > 0 { assert d in rest[i - 1].1 && Matches(more, other, op, rest[i - 1].0, later[i - 1]); }
        }
      }
    }
  }

  lemma {:induction false} QueriesCons(more: ForeignDigits, other: Comparison, postings: Postings, op: Op, value: string, later: seq<string>)
    requires postings != [] && Queries(more, other, postings[1..], op, Test(more, other, op, postings[0].0, value).1, later)
    ensures Queries(more, other, postings, op, value, [value] + later)
  {
    hide Test, AsDate, IsDate, Strip, Matches;
    TestIs(more, other, op, postings[0].0, value);
    var values := [value] + later;
    forall i | 0 < i < |postings|
      ensures values[i + 1] ==
        if !AsDate(more, op, values[i]) then other(op, postings[i].0, values[i]).1
        else if IsDate(more, Strip(postings[i].0)) then Strip(values[i])
        else values[i]
    {
      assert values[i] == later[i - 1] && values[i + 1] == later[i] && postings[i] == postings[1..][i - 1];
    }
  }

  // ---------------------------------------------------------------- dates

  datatype Date = Date(year: nat, month: nat, day: nat) {
    predicate Before(d: Date) {
      year < d.year || (year == d.year && (month < d.month || (month == d.month && day < d.day)))
    }
  }

  /** A YYYY-MM-DD text in ASCII. */
  predicate IsAsciiDate(s: string) {
    |s| == 10 && s[4] == '-' && s[7] == '-' && All(IsDigit, s[..4]) && All(IsDigit, s[5..7]) && All(IsDigit, s[8..])
  }

  function DateOf(s: string): Date
    requires |s| == 10
  {
    Date(Decimal(s[..4]), Decimal(s[5..7]), Decimal(s[8..]))
  }

  predicate Related(op: Op, a: Date, b: Date)
    requires !op.Otherwise?
  {
    match op
    case Eq => a == b
    case Ne => a != b
    case Gt => b.Before(a)
    case Lt => a.Before(b)
    case Ge => !a.Before(b)
    case Le => !b.Before(a)
  }

  lemma {:induction false} LessConcat(a: string, x: string, b: string, y: string)
    requires |a| == |b|
    ensures Less(a + x, b + y) <==> Less(a, b) || (a == b && Less(x, y))
    decreases |a|
  {
    if a == "" {
      assert a + x == x && b + y == y;
    } else {
      assert (a + x)[1..] == a[1..] + x && (b + y)[1..] == b[1..] + y;
      LessConcat(a[1..], x, b[1..], y);
      assert a == b <==> a[0] == b[0] && a[1..] == b[1..] by {
        assert a == [a[0]] + a[1..] && b == [b[0]] + b[1..];
      }
    }
  }

  /** On digits of the same length the order of texts is the order of numbers. */
  lemma {:induction false} LessIsNumeric(a: string, b: string)
    requires |a| == |b| && All(IsDigit, a) && All(IsDigit, b)
    ensures Less(a, b) <==> Decimal(a) < Decimal(b)
    ensures a == b <==> Decimal(a) == Decimal(b)
    decreases |a|
  {
    if a != "" {
      var n := |a| - 1;
      var a1, b1, x, y := a[..n], b[..n], [a[n]], [b[n]];
      assert a == a1 + x && b == b1 + y;
      LessConcat(a1, x, b1, y);
      LessIsNumeric(a1, b1);
      assert Less(x, y) <==> a[n] < b[n] by { assert x[1..] == "" && y[1..] == ""; }
      assert a == b <==> a1 == b1 && a[n] == b[n];
      assert IsDigit(a[n]) && IsDigit(b[n]);
    }
  }

  lemma {:induction false} LessOfDates(a: string, b: string)
    requires IsAsciiDate(a) && IsAsciiDate(b)
    ensures Less(a, b) <==> DateOf(a).Before(DateOf(b))
    ensures a == b <==> DateOf(a) == DateOf(b)
  {
    hide Less, Decimal;
    var ya, ra, yb, rb := a[..4], a[5..], b[..4], b[5..];
    assert a == ya + ("-" + ra) && b == yb + ("-" + rb);
    assert ra == a[5..7] + ("-" + a[8..]) && rb == b[5..7] + ("-" + b[8..]);
    LessConcat(ya, "-" + ra, yb, "-" + rb);
    LessConcat("-", ra, "-", rb);
    LessConcat(a[5..7], "-" + a[8..], b[5..7], "-" + b[8..]);
    LessConcat("-", a[8..], "-", b[8..]);
    NotLess("-");
    LessIsNumeric(ya, yb);
    LessIsNumeric(a[5..7], b[5..7]);
    LessIsNumeric(a[8..], b[8..]);
  }

  lemma {:induction false} NotLess(s: string)
    ensures !Less(s, s)
    decreases |s|
  {
    if s != "" { NotLess(s[1..]); }
  }

  /** The documents a date query selects, written without the loop's changing value. */
  function DateSelection(more: ForeignDigits, postings: Postings, op: Op, date: string): seq<DocId>
    requires !op.Otherwise?
  {
    if postings == [] then []
    else
      var input := Strip(postings[0].0);
      (if IsDate(more, input) && Compare(op, input, date) then postings[0].1 else [])
      + DateSelection(more, postings[1..], op, date)
  }

  lemma {:induction false} DatesIgnoreOrder(more: ForeignDigits, other: Comparison, postings: Postings, op: Op, value: string)
    requires !op.Otherwise? && IsDate(more, Strip(value)) && Strip(Strip(value)) == Strip(value)
    ensures FilterOut(more, other, postings, op, value) == DateSelection(more, postings, op, Strip(value))
    decreases |postings|
  {
    hide IsDate, Strip, Compare;
    if postings != [] {
      var (matched, value') := Test(more, other, op, postings[0].0, value);
      DatesIgnoreOrder(more, other, postings[1..], op, value');
    }
  }

  lemma {:induction false} StripTwice(s: string)
    ensures Strip(Strip(s)) == Strip(s)
    decreases |s|
  {
    hide IsSpace;
    if s != "" && IsSpace(s[0]) { StripTwice(s[1..]); }
    else if s != "" && IsSpace(s[|s| - 1]) { StripTwice(s[..|s| - 1]); }
  }

  lemma {:induction false} Selected(more: ForeignDigits, postings: Postings, op: Op, date: string, d: DocId)
    requires !op.Otherwise?
    ensures d in DateSelection(more, postings, op, date) <==>
            exists i | 0 <= i < |postings| :: d in postings[i].1 && IsDate(more, Strip(postings[i].0)) && Compare(op, Strip(postings[i].0), date)
    decreases |postings|
  {
    hide IsDate, Strip, Compare;
    if postings != [] {
      Selected(more, postings[1..], op, date, d);
      assert postings == [postings[0]] + postings[1..];
      forall i | 0 <= i < |postings[1..]| ensures postings[1..][i] == postings[i + 1] {}
    }
  }

  lemma {:induction false} AsciiIsDate(more: ForeignDigits, s: string)
    requires IsAsciiDate(s)
    ensures IsDate(more, s)
  {
    forall i | 0 <= i < 4 ensures IsDigit(s[..4][i]) {}
    forall i | 0 <= i < 2 ensures IsDigit(s[5..7][i]) && IsDigit(s[8..10][i]) { assert s[8..] == s[8..10]; }
  }

  /** What a date query selects, whatever the order of the values: the documents with a value of date form that
      compares as asked by code point.  Values of another form select nothing. */
  lemma {:induction false} DateFilterByCodePoint(more: ForeignDigits, other: Comparison, postings: Postings, op: Op, value: string, d: DocId)
    requires !op.Otherwise? && IsDate(more, Strip(value))
    ensures d in FilterOut(more, other, postings, op, value) <==>
            exists i | 0 <= i < |postings| ::
              d in postings[i].1 && IsDate(more, Strip(postings[i].0)) && Compare(op, Strip(postings[i].0), Strip(value))
  {
    hide Strip, IsDate, Compare, DateSelection, FilterOut;
    StripTwice(value);
    DatesIgnoreOrder(more, other, postings, op, value);
    Selected(more, postings, op, Strip(value), d);
  }

  /** Date filtering is chronological.  With an ASCII date as query, a document is selected exactly when it has a
      value that is an ASCII date in the asked relation of year, month and day to it, or one of date form with other
      digits that compares as asked by code point. */
  lemma {:induction false} DateFilterIsChronological(more: ForeignDigits, other: Comparison, postings: Postings, op: Op, value: string, d: DocId)
    requires !op.Otherwise? && IsAsciiDate(Strip(value))
    ensures d in FilterOut(more, other, postings, op, value) <==>
            exists i | 0 <= i < |postings| :: d in postings[i].1 && Dated(more, op, Strip(postings[i].0), Strip(value))
  {
    hide Strip, IsDate, IsSpace, Compare, Related, Less, Decimal, DateSelection, FilterOut;
    AsciiIsDate(more, Strip(value));
    DateFilterByCodePoint(more, other, postings, op, value, d);
    forall i | 0 <= i < |postings|
      ensures IsDate(more, Strip(postings[i].0)) && Compare(op, Strip(postings[i].0), Strip(value)) <==>
              Dated(more, op, Strip(postings[i].0), Strip(value))
    {
      var a, b := Strip(postings[i].0), Strip(value);
      if IsAsciiDate(a) {
        AsciiIsDate(more, a);
        CompareIsRelated(op, a, b);
      }
    }
  }

  /** How a record compares with an ASCII date: by year, month and day if it is one, by code point if it only has the
      form of one. */
  predicate Dated(more: ForeignDigits, op: Op, record: string, query: string)
    requires !op.Otherwise? && IsAsciiDate(query)
  {
    if IsAsciiDate(record) then Related(op, DateOf(record), DateOf(query))
    else IsDate(more, record) && Compare(op, record, query)
  }

  /** The ASCII digit of an Arabic-Indic one. */
  function Transcribed(c: char): char {
    if 0x660 <= c as int <= 0x669 then (c as int - 0x660 + '0' as int) as char else c
  }

  /** For such records the order is not the order of dates: this one, the first of January 2020 in Arabic-Indic
      digits, is selected as later than the first of January 2021. */
  lemma {:induction false} ForeignDigitsOutOfOrder(more: ForeignDigits, other: Comparison, d: DocId)
    requires more('\U{0660}') && more('\U{0661}') && more('\U{0662}')
    ensures var record, query := "\U{0662}\U{0660}\U{0662}\U{0660}-\U{0660}\U{0661}-\U{0660}\U{0661}", "2021-01-01";
      && seq(10, i requires 0 <= i < 10 => Transcribed(record[i])) == "2020-01-01"
      && DateOf("2020-01-01").Before(DateOf(query))
      && d in FilterOut(more, other, [(record, [d])], Gt, query)
  {
    hide Decimal, FilterOut;
    var record, query := "\U{0662}\U{0660}\U{0662}\U{0660}-\U{0660}\U{0661}-\U{0660}\U{0661}", "2021-01-01";
    assert Strip(record) == record && Strip(query) == query;
    assert IsDate(more, query) && IsDate(more, record);
    assert Less(query, record);
    DateFilterByCodePoint(more, other, [(record, [d])], Gt, query, d);
    assert [(record, [d])][0].0 == record;
    YearOf("2020-01-01", 2020);
    YearOf(query, 2021);
  }

  lemma {:induction false} YearOf(s: string, year: nat)
    requires (s == "2020-01-01" && year == 2020) || (s == "2021-01-01" && year == 2021)
    ensures DateOf(s).year == year
  {
    var y := s[..4];
    assert y[..3] == "202" && y[..3][..2] == "20" && y[..3][..2][..1] == "2" && y[..3][..2][..1][..0] == "";
    assert Decimal("2") == 2 && Decimal("20") == 20 && Decimal("202") == 202;
  }

  lemma {:induction false} CompareIsRelated(op: Op, a: string, b: string)
    requires !op.Otherwise? && IsAsciiDate(a) && IsAsciiDate(b)
    ensures |a| == 10 && |b| == 10 && (Compare(op, a, b) <==> Related(op, DateOf(a), DateOf(b)))
  {
    hide Less, Decimal;
    LessOfDates(a, b);
    LessOfDates(b, a);
  }

  // ---------------------------------------------------------------- several filters

  function SetOf(ids: seq<DocId>): set<DocId> { set d | d in ids }

  function AnyOf(lists: seq<seq<DocId>>): set<DocId> {
    if lists == [] then {} else SetOf(lists[0]) + AnyOf(lists[1..])
  }

  function AllOf(lists: seq<seq<DocId>>): set<DocId>
    requires lists != []
  {
    if |lists| == 1 then SetOf(lists[0]) else SetOf(lists[0]) * AllOf(lists[1..])
  }

  /** The intersection from the first filter that selects something. */
  function AllFromFirst(lists: seq<seq<DocId>>): set<DocId> {
    if lists == [] then {} else if lists[0] == [] then AllFromFirst(lists[1..]) else AllOf(lists)
  }

  function IdLists(more: ForeignDigits, other: Comparison, metas: map<string, Postings>, filters: seq<Filter>): seq<seq<DocId>> {
    seq(|filters|, i requires 0 <= i < |filters| =>
      if filters[i].key in metas then FilterOut(more, other, metas[filters[i].key], filters[i].op, filters[i].value) else [])
  }

  /** `meta_filter`, its result as a set. */
  method CombineFilters(more: ForeignDigits, other: Comparison, metas: map<string, Postings>, filters: seq<Filter>, conjunctive: bool)
      returns (docIds: set<DocId>)
    ensures docIds == var lists := IdLists(more, other, metas, filters); if conjunctive then AllFromFirst(lists) else AnyOf(lists)
  {
    hide FilterOut;
    ghost var lists := IdLists(more, other, metas, filters);
    docIds := {};
    for i := 0 to |filters|
      invariant !conjunctive ==> AnyOf(lists) == docIds + AnyOf(lists[i..])
      invariant conjunctive ==>
        AllFromFirst(lists) == if docIds == {} then AllFromFirst(lists[i..]) else if i == |filters| then docIds else docIds * AllOf(lists[i..])
    {
      var ids: seq<DocId> := [];
      if filters[i].key in metas {
        ids := SelectDocuments(more, other, metas[filters[i].key], filters[i].op, filters[i].value);
      }
      assert ids == lists[i] && lists[i..][0] == lists[i] && lists[i..][1..] == lists[i + 1..];
      if docIds == {} {
        docIds := SetOf(ids);
        assert docIds == {} <==> ids == [] by { if ids != [] { assert ids[0] in SetOf(ids); } }
      } else if conjunctive {
        docIds := docIds * SetOf(ids);
        if docIds == {} { return; }
      } else {
        docIds := docIds + SetOf(ids);
      }
    }
  }

  lemma {:induction false} AllOfMembers(lists: seq<seq<DocId>>, d: DocId)
    requires lists != []
    ensures d in AllOf(lists) <==> forall i | 0 <= i < |lists| :: d in lists[i]
    decreases |lists|
  {
    assert lists == [lists[0]] + lists[1..];
    if |lists| > 1 {
      AllOfMembers(lists[1..], d);
      forall i | 1 <= i < |lists| ensures lists[i] == lists[1..][i - 1] {}
    }
  }

  lemma {:induction false} AnyOfMembers(lists: seq<seq<DocId>>, d: DocId)
    ensures d in AnyOf(lists) <==> exists i | 0 <= i < |lists| :: d in lists[i]
    decreases |lists|
  {
    if lists != [] {
      AnyOfMembers(lists[1..], d);
      assert lists == [lists[0]] + lists[1..];
      forall i | 0 <= i < |lists[1..]| ensures lists[1..][i] == lists[i + 1] {}
    }
  }

  /** How many filters at the front select nothing. */
  function Leading(lists: seq<seq<DocId>>): (n: nat)
    ensures n <= |lists| && (forall i | 0 <= i < n :: lists[i] == []) && (n < |lists| ==> lists[n] != [])
  {
    if lists == [] || lists[0] != [] then 0 else 1 + Leading(lists[1..])
  }

  predicate InAllFrom(lists: seq<seq<DocId>>, n: nat, d: DocId) {
    n < |lists| && forall i | n <= i < |lists| :: d in lists[i]
  }

  /** Some document is selected by all filters from the first on that selects anything. */
  ghost predicate Shared(lists: seq<seq<DocId>>) { exists d :: InAllFrom(lists, Leading(lists), d) }

  /** "and" returns the intersection from the first filter on that selects anything. */
  lemma {:induction false} AllFromFirstMembers(lists: seq<seq<DocId>>, d: DocId)
    ensures d in AllFromFirst(lists) <==> InAllFrom(lists, Leading(lists), d)
    decreases |lists|
  {
    if lists != [] {
      if lists[0] == [] {
        AllFromFirstMembers(lists[1..], d);
        assert Leading(lists) == 1 + Leading(lists[1..]);
        forall i | 1 <= i < |lists| ensures lists[i] == lists[1..][i - 1] {}
      } else {
        AllOfMembers(lists, d);
      }
    }
  }

  /** "and" is the plain conjunction exactly when the first filter selects something, or no document is selected by
      all the filters that follow the leading ones without a match. */
  lemma {:induction false} ConjunctionExactly(lists: seq<seq<DocId>>)
    requires lists != []
    ensures AllFromFirst(lists) == AllOf(lists) <==> lists[0] != [] || !Shared(lists)
  {
    if lists[0] != [] {
      assert AllFromFirst(lists) == AllOf(lists);
    } else {
      assert AllOf(lists) == {} by { assert SetOf([]) == {}; }
      forall d ensures d in AllFromFirst(lists) <==> InAllFrom(lists, Leading(lists), d) { AllFromFirstMembers(lists, d); }
      if d :| InAllFrom(lists, Leading(lists), d) {
        assert d in AllFromFirst(lists) && d !in AllOf(lists);
      } else {
        assert AllFromFirst(lists) == {};
      }
    }
  }

  lemma {:induction false} NothingMatches(lists: seq<seq<DocId>>)
    requires forall i | 0 <= i < |lists| :: lists[i] == []
    ensures AllFromFirst(lists) == {}
    decreases |lists|
  {
    if lists != [] { NothingMatches(lists[1..]); }
  }

  /** A leading filter on a key no document has is forgotten: the conjunction is empty, the result is whatever the
      second filter selects. */
  lemma {:induction false} LeadingEmptyFilterIgnored(more: ForeignDigits, other: Comparison, metas: map<string, Postings>, a: Filter, b: Filter)
    requires a.key !in metas && b.key in metas
    ensures var lists := IdLists(more, other, metas, [a, b]);
      AllOf(lists) == {} && AllFromFirst(lists) == SetOf(FilterOut(more, other, metas[b.key], b.op, b.value))
  {
    hide FilterOut;
    var lists := IdLists(more, other, metas, [a, b]);
    var ids := FilterOut(more, other, metas[b.key], b.op, b.value);
    assert lists == [[], ids] && lists[1..] == [ids] && [ids][1..] == [];
    assert SetOf([]) == {} && AllOf([ids]) == SetOf(ids);
    assert AllFromFirst([]) == {};
    assert AllFromFirst([ids]) == SetOf(ids);
    assert AllOf(lists) == SetOf(lists[0]) * AllOf(lists[1..]);
    assert AllFromFirst(lists) == AllFromFirst(lists[1..]);
  }

  /** So asking for an author "x", which no document has, and the date of a document finds the document. */
  lemma {:induction false} ConjunctionOfNothing(more: ForeignDigits, other: Comparison, d: DocId)
    ensures var metas: map<string, Postings> := map["date" := [("2020-01-01", [d])]];
      var lists := IdLists(more, other, metas, [Filter("author", Eq, "x"), Filter("date", Eq, "2020-01-01")]);
      AllOf(lists) == {} && AllFromFirst(lists) == {d}
  {
    hide FilterOut;
    var metas: map<string, Postings> := map["date" := [("2020-01-01", [d])]];
    LeadingEmptyFilterIgnored(more, other, metas, Filter("author", Eq, "x"), Filter("date", Eq, "2020-01-01"));
    OneDate(more, other, d);
  }

  lemma {:induction false} OneDate(more: ForeignDigits, other: Comparison, d: DocId)
    ensures FilterOut(more, other, [("2020-01-01", [d])], Eq, "2020-01-01") == [d]
  {
    var s := "2020-01-01";
    assert Strip(s) == s;
    assert IsAsciiDate(s);
    AsciiIsDate(more, s);
    hide IsDate, Strip, IsAsciiDate;
    assert Test(more, other, Eq, s, s) == (true, s);
    assert [(s, [d])][1..] == [];
    assert [d] + [] == [d];
  }
}
