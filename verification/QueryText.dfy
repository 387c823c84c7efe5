/** The text of a query, and a reader that recovers the query from it. */
module QueryText {
  import opened Entities
  import opened LabelMatchers
  import opened TimeRange

  /** The fields of a query builder. */
  datatype Query = Query(metric: string, matchers: seq<LabelMatcher>, timeUnit: int, timeDuration: nat)

  // ----- printing

  function Digit(d: nat): char
    requires d < 10
  {
    '0' + d as char
  }

  /** What %d prints for an unsigned integer. */
  function Decimal(n: nat): string {
    if n < 10 then [Digit(n)] else Decimal(n / 10) + [Digit(n % 10)]
  }

  /** LabelMatchOperator.String; an operator outside the table panics and has no text. */
  function OperatorText(o: int): string
    requires IsValidOperator(o)
  {
    OPERATOR_NAMES[o - 1]
  }

  function UnitText(t: int): string
    requires IsValidUnit(t)
  {
    UNIT_NAMES[t - 1]
  }

  /** What of a matcher is printed: everything but its type. */
  datatype Filter = Filter(name: string, operator: int, value: string)

  /** What of a query is printed: a range only if its unit is valid. */
  datatype Shown = Shown(metric: string, filters: seq<Filter>, range: Option<(int, nat)>)

  predicate OperatorsValid(q: Query) {
    forall i :: 0 <= i < |q.matchers| ==> IsValidOperator(q.matchers[i].operator)
  }

  function ShownOf(q: Query): Shown {
    Shown(q.metric,
          seq(|q.matchers|, i requires 0 <= i < |q.matchers| =>
              Filter(q.matchers[i].name, q.matchers[i].operator, q.matchers[i].value)),
          if IsValidUnit(q.timeUnit) then Some((q.timeUnit, q.timeDuration)) else None)
  }

  predicate Meaningful(p: Shown) {
    && (forall i :: 0 <= i < |p.filters| ==> IsValidOperator(p.filters[i].operator))
    && (p.range.Some? ==> IsValidUnit(p.range.value.0))
  }

  function FilterText(f: Filter): string
    requires IsValidOperator(f.operator)
  {
    f.name + (OperatorText(f.operator) + ("\"" + (f.value + "\"")))
  }

  /** strings.Join(filters, ",") followed by the closing brace. */
  function FiltersText(fs: seq<Filter>): string
    requires forall i :: 0 <= i < |fs| ==> IsValidOperator(fs[i].operator)
  {
    if fs == [] then "}"
    else if |fs| == 1 then FilterText(fs[0]) + "}"
    else FilterText(fs[0]) + ("," + FiltersText(fs[1..]))
  }

  function RangeText(range: Option<(int, nat)>): string
    requires range.Some? ==> IsValidUnit(range.value.0)
  {
    match range
    case None => ""
    case Some((unit, qty)) => "[" + Decimal(qty) + UnitText(unit) + "]"
  }

  function Text(p: Shown): string
    requires Meaningful(p)
  {
    p.metric + "{" + FiltersText(p.filters) + RangeText(p.range)
  }

  // ----- reading

  /** Position of the first of two characters, or the length. */
  function Find(s: string, c: char, d: char): (i: nat)
    ensures i <= |s|
    ensures i < |s| ==> s[i] == c || s[i] == d
    ensures c !in s[..i] && d !in s[..i]
  {
    if s == [] || s[0] == c || s[0] == d then 0
    else
      var i := 1 + Find(s[1..], c, d);
      assert s[..i] == [s[0]] + s[1..][..i - 1];
      i
  }

  /** Reads an operator and the quote behind it; returns what follows. */
  function ReadOperator(s: string): Option<(int, string)> {
    if |s| >= 2 && s[0] == '=' && s[1] == '"' then Some((1, s[2..]))
    else if |s| >= 3 && s[0] == '!' && s[1] == '=' && s[2] == '"' then Some((2, s[3..]))
    else if |s| >= 3 && s[0] == '=' && s[1] == '~' && s[2] == '"' then Some((3, s[3..]))
    else if |s| >= 4 && s[0] == '!' && s[1] == '=' && s[2] == '~' && s[3] == '"' then Some((4, s[4..]))
    else None
  }

  function ReadFilter(s: string): (r: Option<(Filter, string)>)
    ensures r.Some? ==> |r.value.1| < |s|
  {
    var i := Find(s, '=', '!');
    match ReadOperator(s[i..])
    case None => None
    case Some((o, rest)) =>
      var j := Find(rest, '"', '"');
      if j == |rest| then None else Some((Filter(s[..i], o, rest[..j]), rest[j + 1..]))
  }

  /** Reads one filter or more, up to and including the closing brace. */
  function ReadFilters(s: string): Option<(seq<Filter>, string)>
    decreases |s|
  {
    match ReadFilter(s)
    case None => None
    case Some((f, rest)) =>
      if rest == [] then None
      else if rest[0] == '}' then Some(([f], rest[1..]))
      else if rest[0] == ',' then
        match ReadFilters(rest[1..])
        case None => None
        case Some((fs, rest')) => Some(([f] + fs, rest'))
      else None
  }

  predicate IsDigit(c: char) { '0' <= c <= '9' }

  function NumberOf(s: string): nat
    requires forall i :: 0 <= i < |s| ==> IsDigit(s[i])
  {
    if s == [] then 0
    else
      assert IsDigit(s[|s| - 1]);
      NumberOf(s[..|s| - 1]) * 10 + (s[|s| - 1] as int - '0' as int)
  }

  /** Digits without a superfluous leading zero. */
  predicate IsDecimal(s: string) {
    && s != [] && (|s| > 1 ==> s[0] != '0')
    && forall i :: 0 <= i < |s| ==> IsDigit(s[i])
  }

  function UnitOf(c: char): int {
    match c
    case 's' => 1
    case 'm' => 2
    case 'h' => 3
    case 'd' => 4
    case 'w' => 5
    case 'y' => 6
    case _ => 0
  }

  function ReadRange(s: string): Option<Option<(int, nat)>> {
    if s == [] then Some(None)
    else
      var n := |s|;
      if n >= 4 && s[0] == '[' && s[n - 1] == ']' && UnitOf(s[n - 2]) != 0 && IsDecimal(s[1..n - 2])
      then Some(Some((UnitOf(s[n - 2]), NumberOf(s[1..n - 2])))) else None
  }

  function Read(s: string): Option<Shown> {
    var i := Find(s, '{', '{');
    if i == |s| then None
    else
      var body := s[i + 1..];
      var filters: Option<(seq<Filter>, string)> :=
        if body != [] && body[0] == '}' then Some(([], body[1..])) else ReadFilters(body);
      match filters
      case None => None
      case Some((fs, rest)) =>
        match ReadRange(rest)
        case None => None
        case Some(range) => Some(Shown(s[..i], fs, range))
  }

  // ----- which queries can be told from their text

  predicate PlainName(name: string) {
    '=' !in name && '!' !in name
  }

  predicate PlainFilter(f: Filter) {
    IsValidOperator(f.operator) && PlainName(f.name) && '"' !in f.value
  }

  /** No brace in the metric, no operator character in a label, no quote in a value, and the first label
      does not open with the closing brace. */
  predicate Unambiguous(p: Shown) {
    && Meaningful(p)
    && '{' !in p.metric
    && (forall i :: 0 <= i < |p.filters| ==> PlainFilter(p.filters[i]))
    && (p.filters != [] && p.filters[0].name != [] ==> p.filters[0].name[0] != '}')
  }

  // ----- decimal numbers

  lemma {:induction false} DecimalReads(n: nat)
    ensures IsDecimal(Decimal(n)) && NumberOf(Decimal(n)) == n
    ensures n > 0 ==> Decimal(n)[0] != '0'
  {
    if n >= 10 {
      var d := Decimal(n / 10);
      DecimalReads(n / 10);
      assert Decimal(n)[..|d|] == d;
    } else {
      assert Decimal(n)[..0] == [];
    }
  }

  lemma {:induction false} NumberPrints(s: string)
    requires IsDecimal(s)
    ensures Decimal(NumberOf(s)) == s
    ensures s[0] != '0' ==> NumberOf(s) > 0
    decreases |s|
  {
    var n := |s| - 1;
    var d := s[n] as int - '0' as int;
    if n == 0 {
      assert NumberOf(s[..0]) == 0;
    } else {
      assert IsDecimal(s[..n]);
      NumberPrints(s[..n]);
      assert NumberOf(s) / 10 == NumberOf(s[..n]) && NumberOf(s) % 10 == d;
      assert s == s[..n] + [s[n]];
    }
  }

  // ----- printing then reading

  lemma {:induction false} FindSkips(a: string, b: string, c: char, d: char)
    requires c !in a && d !in a && b != [] && (b[0] == c || b[0] == d)
    ensures Find(a + b, c, d) == |a|
  {
    if a == [] {
      assert a + b == b;
    } else {
      assert (a + b)[1..] == a[1..] + b;
      FindSkips(a[1..], b, c, d);
    }
  }

  lemma ReadOperatorText(o: int, rest: string)
    requires IsValidOperator(o)
    ensures ReadOperator(OperatorText(o) + ("\"" + rest)) == Some((o, rest))
    ensures OperatorText(o) != [] && (OperatorText(o)[0] == '=' || OperatorText(o)[0] == '!')
  {
    var s := OperatorText(o) + ("\"" + rest);
    var n := |OperatorText(o)|;
    assert s[n] == '"' && s[n + 1..] == rest;
  }

  lemma FilterTextThen(f: Filter, rest: string)
    requires IsValidOperator(f.operator)
    ensures FilterText(f) + rest
            == f.name + (OperatorText(f.operator) + ("\"" + (f.value + ("\"" + rest))))
  {
  }

  lemma Assoc(a: string, b: string, c: string)
    ensures (a + b) + c == a + (b + c)
  {
  }

  /** Text up to a found position, and behind it. */
  lemma Split(a: string, b: string)
    ensures (a + b)[..|a|] == a && (a + b)[|a|..] == b
  {
  }

  lemma ReadFilterText(f: Filter, rest: string)
    requires PlainFilter(f)
    ensures ReadFilter(FilterText(f) + rest) == Some((f, rest))
  {
    hide OperatorText, ReadOperator, FilterText;
    var tail := f.value + ("\"" + rest);
    var b := OperatorText(f.operator) + ("\"" + tail);
    FilterTextThen(f, rest);
    ReadOperatorText(f.operator, tail);
    FindSkips(f.name, b, '=', '!');
    Split(f.name, b);
    FindSkips(f.value, "\"" + rest, '"', '"');
    Split(f.value, "\"" + rest);
    assert tail[|f.value| + 1..] == rest;
  }

  lemma {:induction false} FiltersTextThen(fs: seq<Filter>, rest: string)
    requires fs != [] && forall i :: 0 <= i < |fs| ==> IsValidOperator(fs[i].operator)
    ensures FiltersText(fs) + rest
            == FilterText(fs[0]) + (if |fs| == 1 then "}" + rest else "," + (FiltersText(fs[1..]) + rest))
  {
  }

  lemma Regroup(a: string, b: string, c: string, d: string)
    ensures (a + (b + c)) + d == a + (b + (c + d))
    ensures c == [] ==> (a + b) + d == a + (b + d)
  {
  }

  lemma {:induction false} ReadFiltersText(fs: seq<Filter>, rest: string)
    requires fs != [] && forall i :: 0 <= i < |fs| ==> IsValidOperator(fs[i].operator) && PlainFilter(fs[i])
    ensures ReadFilters(FiltersText(fs) + rest) == Some((fs, rest))
    decreases |fs|
  {
    hide FilterText, ReadFilter, FiltersText;
    FiltersTextThen(fs, rest);
    if |fs| == 1 {
      ReadFilterText(fs[0], "}" + rest);
      Split("}", rest);
      assert [fs[0]] == fs;
    } else {
      var more := FiltersText(fs[1..]) + rest;
      ReadFilterText(fs[0], "," + more);
      Split(",", more);
      ReadFiltersText(fs[1..], rest);
      assert [fs[0]] + fs[1..] == fs;
    }
  }

  lemma ReadRangeText(range: Option<(int, nat)>)
    requires range.Some? ==> IsValidUnit(range.value.0)
    ensures ReadRange(RangeText(range)) == Some(range)
  {
    if range.Some? {
      var (unit, qty) := range.value;
      var s := RangeText(range);
      DecimalReads(qty);
      assert |UnitText(unit)| == 1 && UnitOf(UnitText(unit)[0]) == unit;
      assert s[1..|s| - 2] == Decimal(qty);
    }
  }

  /** Unambiguous queries are read back completely. */
  lemma ReadText(p: Shown)
    requires Unambiguous(p)
    ensures Read(Text(p)) == Some(p)
  {
    hide FilterText, ReadFilters, ReadRange, Text, RangeText;
    var rest := RangeText(p.range);
    var body := FiltersText(p.filters) + rest;
    TextThen(p);
    FindSkips(p.metric, "{" + body, '{', '{');
    Split(p.metric, "{" + body);
    assert Text(p)[|p.metric| + 1..] == body;
    ReadRangeText(p.range);
    if p.filters == [] {
      assert body[1..] == rest;
    } else {
      ReadFiltersText(p.filters, rest);
      FirstChar(p.filters, rest);
    }
  }

  lemma FirstChar(fs: seq<Filter>, rest: string)
    requires fs != [] && forall i :: 0 <= i < |fs| ==> IsValidOperator(fs[i].operator)
    ensures var text := FiltersText(fs) + rest;
            && text != []
            && (text[0] == '}' <==> fs[0].name != [] && fs[0].name[0] == '}')
  {
    hide FilterText, FiltersText, OperatorText;
    FiltersTextThen(fs, rest);
    var more := if |fs| == 1 then "}" + rest else "," + (FiltersText(fs[1..]) + rest);
    FilterTextThen(fs[0], more);
    ReadOperatorText(fs[0].operator, fs[0].value + ("\"" + more));
  }

  // ----- reading then printing

  lemma ReadOperatorPrints(s: string)
    requires ReadOperator(s).Some?
    ensures var (o, rest) := ReadOperator(s).value;
            IsValidOperator(o) && s == OperatorText(o) + ("\"" + rest)
  {
  }

  lemma ReadFilterPrints(s: string)
    requires ReadFilter(s).Some?
    ensures var (f, rest) := ReadFilter(s).value;
            PlainFilter(f) && s == FilterText(f) + rest
  {
    hide OperatorText, ReadOperator, FilterText;
    var i := Find(s, '=', '!');
    ReadOperatorPrints(s[i..]);
    var (o, rest) := ReadOperator(s[i..]).value;
    var j := Find(rest, '"', '"');
    FilterTextThen(Filter(s[..i], o, rest[..j]), rest[j + 1..]);
    assert rest == rest[..j] + ("\"" + rest[j + 1..]);
    assert s == s[..i] + s[i..];
  }

  lemma {:induction false} ReadFiltersPrints(s: string)
    requires ReadFilters(s).Some?
    ensures var (fs, rest) := ReadFilters(s).value;
            && fs != [] && (forall i :: 0 <= i < |fs| ==> PlainFilter(fs[i]))
            && s == FiltersText(fs) + rest
    decreases |s|
  {
    hide FilterText, ReadFilter, FiltersText;
    ReadFilterPrints(s);
    var (f, rest) := ReadFilter(s).value;
    if rest[0] == '}' {
      FiltersTextThen([f], rest[1..]);
      assert rest == "}" + rest[1..];
    } else {
      ReadFiltersPrints(rest[1..]);
      var (fs, rest') := ReadFilters(rest[1..]).value;
      FiltersTextThen([f] + fs, rest');
      assert rest == "," + rest[1..];
      assert ([f] + fs)[1..] == fs;
    }
  }

  lemma ReadRangePrints(s: string)
    requires ReadRange(s).Some?
    ensures var range := ReadRange(s).value;
            (range.Some? ==> IsValidUnit(range.value.0)) && RangeText(range) == s
  {
    if s != [] {
      var n := |s|;
      NumberPrints(s[1..n - 2]);
      var unit := UnitOf(s[n - 2]);
      assert UnitText(unit) == [s[n - 2]];
      assert s == "[" + s[1..n - 2] + [s[n - 2]] + "]";
    }
  }

  lemma TextThen(p: Shown)
    requires Meaningful(p)
    ensures Text(p) == p.metric + ("{" + (FiltersText(p.filters) + RangeText(p.range)))
  {
  }

  /** Whatever the reader accepts is unambiguous, and printing it gives the text back. */
  lemma TextRead(s: string)
    requires Read(s).Some?
    ensures Unambiguous(Read(s).value) && Text(Read(s).value) == s
  {
    hide FilterText, ReadFilters, ReadRange, Text, RangeText;
    var i := Find(s, '{', '{');
    var body := s[i + 1..];
    var p := Read(s).value;
    assert s == s[..i] + ("{" + body);
    if body != [] && body[0] == '}' {
      ReadRangePrints(body[1..]);
      assert body == "}" + body[1..];
    } else {
      ReadFiltersPrints(body);
      ReadRangePrints(ReadFilters(body).value.1);
      FirstChar(p.filters, RangeText(p.range));
    }
    TextThen(p);
  }

  // ----- the result

  /** The text of a query tells metric, filters and range exactly when the query is unambiguous. */
  lemma ReadableIffUnambiguous(p: Shown)
    requires Meaningful(p)
    ensures Read(Text(p)) == Some(p) <==> Unambiguous(p)
  {
    if Unambiguous(p) {
      ReadText(p);
    }
    if Read(Text(p)) == Some(p) {
      TextRead(Text(p));
    }
  }

  // ----- the result, in the fields of a query

  /** No brace in the metric, no operator character in a label name, no quote in a value, and the first label
      name does not open with the closing brace. */
  predicate Plain(q: Query) {
    && '{' !in q.metric
    && (forall i :: 0 <= i < |q.matchers| ==>
          && '=' !in q.matchers[i].name && '!' !in q.matchers[i].name
          && '"' !in q.matchers[i].value)
    && (q.matchers != [] && q.matchers[0].name != [] ==> q.matchers[0].name[0] != '}')
  }

  /** p has the metric of q, the name, operator and value of each of its matchers in order, and its range if the
      unit is valid. */
  predicate Describes(p: Shown, q: Query) {
    && p.metric == q.metric
    && |p.filters| == |q.matchers|
    && (forall i :: 0 <= i < |p.filters| ==>
          && p.filters[i].name == q.matchers[i].name
          && p.filters[i].operator == q.matchers[i].operator
          && p.filters[i].value == q.matchers[i].value)
    && p.range == if 1 <= q.timeUnit <= 6 then Some((q.timeUnit, q.timeDuration)) else None
  }

  /** The two queries agree on everything but matcher types and a range without valid unit. */
  predicate SamePrinted(p: Query, q: Query) {
    && p.metric == q.metric
    && |p.matchers| == |q.matchers|
    && (forall i :: 0 <= i < |p.matchers| ==>
          && p.matchers[i].name == q.matchers[i].name
          && p.matchers[i].operator == q.matchers[i].operator
          && p.matchers[i].value == q.matchers[i].value)
    && (1 <= p.timeUnit <= 6 || 1 <= q.timeUnit <= 6 ==>
          p.timeUnit == q.timeUnit && p.timeDuration == q.timeDuration)
  }

  lemma PlainIffUnambiguous(q: Query)
    requires OperatorsValid(q)
    ensures Plain(q) <==> Unambiguous(ShownOf(q))
  {
    if Unambiguous(ShownOf(q)) {
      forall i | 0 <= i < |q.matchers|
        ensures '=' !in q.matchers[i].name && '!' !in q.matchers[i].name && '"' !in q.matchers[i].value
      {
        assert PlainFilter(ShownOf(q).filters[i]);
      }
    }
  }

  lemma DescribedByShown(p: Shown, q: Query)
    ensures Describes(p, q) <==> p == ShownOf(q)
  {
    if Describes(p, q) {
      assert p.filters == ShownOf(q).filters;
    }
  }

  /** The text of a query reads back as the query exactly if it is plain. */
  lemma ReadsBackIffPlain(q: Query)
    requires OperatorsValid(q)
    ensures var text := Text(ShownOf(q));
            (Read(text).Some? && Describes(Read(text).value, q)) <==> Plain(q)
  {
    hide Read, Text, Unambiguous, Plain, ShownOf, Describes;
    PlainIffUnambiguous(q);
    MeaningfulShown(q);
    ReadableIffUnambiguous(ShownOf(q));
    if Read(Text(ShownOf(q))).Some? {
      DescribedByShown(Read(Text(ShownOf(q))).value, q);
    }
  }

  lemma MeaningfulShown(q: Query)
    requires OperatorsValid(q)
    ensures Meaningful(ShownOf(q))
  {
  }

  /** Plain queries have equal texts exactly if they agree on everything printed. */
  lemma TextInjective(p: Query, q: Query)
    requires OperatorsValid(p) && OperatorsValid(q) && Plain(p) && Plain(q)
    ensures Text(ShownOf(p)) == Text(ShownOf(q)) <==> SamePrinted(p, q)
  {
    hide Read, Text, Plain;
    ReadsBackIffPlain(p);
    ReadsBackIffPlain(q);
    if SamePrinted(p, q) {
      assert ShownOf(p).filters == ShownOf(q).filters;
    }
  }

  // ----- the layout

  /** One filter as PromQL writes it. */
  function Written(m: LabelMatcher): string
    requires 0 < m.operator <= 4
  {
    m.name + ["=", "!=", "=~", "!=~"][m.operator - 1] + "\"" + m.value + "\""
  }

  /** The filters from left to right, with commas between them. */
  function WrittenAll(matchers: seq<LabelMatcher>): string
    requires forall i :: 0 <= i < |matchers| ==> 0 < matchers[i].operator <= 4
  {
    if matchers == [] then ""
    else if |matchers| == 1 then Written(matchers[0])
    else
      var n := |matchers| - 1;
      WrittenAll(matchers[..n]) + "," + Written(matchers[n])
  }

  /** Metric, filters in braces, and the range in brackets if its unit is one of the six. */
  function Layout(q: Query): string
    requires forall i :: 0 <= i < |q.matchers| ==> 0 < q.matchers[i].operator <= 4
  {
    q.metric + "{" + WrittenAll(q.matchers) + "}"
    + (if 1 <= q.timeUnit <= 6
       then "[" + Decimal(q.timeDuration) + ["s", "m", "h", "d", "w", "y"][q.timeUnit - 1] + "]" else "")
  }

  lemma WrittenIsFilterText(m: LabelMatcher)
    requires IsValidOperator(m.operator)
    ensures Written(m) == FilterText(Filter(m.name, m.operator, m.value))
  {
    Assoc(m.name, OperatorText(m.operator), "\"" + (m.value + "\""));
    Assoc(m.name + OperatorText(m.operator), "\"", m.value + "\"");
    Assoc(m.name + OperatorText(m.operator) + "\"", m.value, "\"");
  }

  function FiltersOf(matchers: seq<LabelMatcher>): (fs: seq<Filter>)
    ensures |fs| == |matchers|
  {
    seq(|matchers|, i requires 0 <= i < |matchers| => Filter(matchers[i].name, matchers[i].operator, matchers[i].value))
  }

  /** Writing from the right and writing from the left give the same text. */
  lemma {:induction false} FiltersTextLast(fs: seq<Filter>, f: Filter)
    requires IsValidOperator(f.operator) && forall i :: 0 <= i < |fs| ==> IsValidOperator(fs[i].operator)
    ensures fs == [] ==> FiltersText(fs + [f]) == FilterText(f) + "}"
    ensures fs != [] ==>
              exists s :: FiltersText(fs) == s + "}" && FiltersText(fs + [f]) == s + "," + FilterText(f) + "}"
    decreases |fs|
  {
    hide FilterText;
    if fs == [] {
      assert fs + [f] == [f];
    } else {
      var t := FilterText(fs[0]);
      assert (fs + [f])[1..] == fs[1..] + [f];
      FiltersTextLast(fs[1..], f);
      if |fs| == 1 {
        assert fs[1..] == [];
        assert FiltersText(fs + [f]) == t + ("," + (FilterText(f) + "}"));
        Assoc(t, ",", FilterText(f) + "}");
        Assoc(t + ",", FilterText(f), "}");
      } else {
        var s :| FiltersText(fs[1..]) == s + "}" && FiltersText(fs[1..] + [f]) == s + "," + FilterText(f) + "}";
        Regroup(t, ",", s, "}");
        assert FiltersText(fs) == (t + ("," + s)) + "}";
        assert FiltersText(fs + [f]) == t + ("," + (s + "," + FilterText(f) + "}"));
        assert FiltersText(fs + [f]) == (t + ("," + s)) + "," + FilterText(f) + "}";
      }
    }
  }

  lemma {:induction false} WrittenAllIsFiltersText(matchers: seq<LabelMatcher>)
    requires forall i :: 0 <= i < |matchers| ==> 0 < matchers[i].operator <= 4
    ensures FiltersText(FiltersOf(matchers)) == WrittenAll(matchers) + "}"
  {
    hide FilterText, Written, FiltersText;
    var n := |matchers| - 1;
    if matchers == [] {
      NoFiltersText();
    } else {
      WrittenIsFilterText(matchers[n]);
      WrittenAllIsFiltersText(matchers[..n]);
      var fs, f := FiltersOf(matchers[..n]), FiltersOf(matchers)[n];
      assert FiltersOf(matchers) == fs + [f];
      FiltersTextLast(fs, f);
      if n > 0 {
        var s :| FiltersText(fs) == s + "}" && FiltersText(fs + [f]) == s + "," + FilterText(f) + "}";
        SameUpToBrace(s, WrittenAll(matchers[..n]));
      }
    }
  }

  lemma NoFiltersText()
    ensures FiltersText([]) == "}" && FiltersOf([]) == []
  {
  }

  lemma SameUpToBrace(s: string, t: string)
    requires s + "}" == t + "}"
    ensures s == t
  {
    assert s == (s + "}")[..|s + "}"| - 1];
    assert t == (t + "}")[..|t + "}"| - 1];
  }

  /** The text of a query is its layout. */
  lemma TextIsLayout(q: Query)
    requires OperatorsValid(q)
    ensures Text(ShownOf(q)) == Layout(q)
  {
    hide FiltersText, FilterText, Written, WrittenAll, Decimal;
    WrittenAllIsFiltersText(q.matchers);
    assert ShownOf(q).filters == FiltersOf(q.matchers);
    Assoc(q.metric + "{", WrittenAll(q.matchers), "}");
  }

  /** One filter for each operator. */
  lemma WrittenOperators(t: int, name: string, value: string)
    ensures Written(LabelMatcher(t, name, 1, value)) == name + "=\"" + value + "\""
    ensures Written(LabelMatcher(t, name, 2, value)) == name + "!=\"" + value + "\""
    ensures Written(LabelMatcher(t, name, 3, value)) == name + "=~\"" + value + "\""
    ensures Written(LabelMatcher(t, name, 4, value)) == name + "!=~\"" + value + "\""
  {
  }

  lemma SingleDigits()
    ensures Decimal(5) == "5" && Decimal(30) == "30"
  {
    assert Decimal(3) == "3" && Digit(0) == '0';
  }

  /** The two texts that the repository's own unit tests expect, for all names and values. */
  lemma ExpectedTexts(metric: string, m: LabelMatcher, m': LabelMatcher)
    requires m.operator == m'.operator == 1
    ensures var filters := m.name + "=\"" + m.value + "\"" + "," + (m'.name + "=\"" + m'.value + "\"");
            && Layout(Query(metric, [m, m'], 1, 5)) == metric + "{" + filters + "}" + "[5s]"
            && Layout(Query(metric, [m, m'], 7, 0)) == metric + "{" + filters + "}"
  {
    hide Written, Decimal;
    var ms := [m, m'];
    assert ms[..1] == [m];
    WrittenOperators(m.typ, m.name, m.value);
    WrittenOperators(m'.typ, m'.name, m'.value);
    assert WrittenAll(ms) == Written(m) + "," + Written(m');
    SingleDigits();
    assert "[" + "5" + "s" + "]" == "[5s]";
  }

  /** With a quote in a value, one matcher can print like two. */
  lemma QuotesAreAmbiguous(metric: string)
    ensures var one := Shown(metric, [Filter("a", 1, "x\",b=\"y")], None);
            var two := Shown(metric, [Filter("a", 1, "x"), Filter("b", 1, "y")], None);
            one != two && Meaningful(one) && Meaningful(two) && Text(one) == Text(two)
  {
  }
}
