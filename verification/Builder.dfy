/** The query builder: options fill its fields, BuildQuery prints them piece by piece. */
module Builder {
  import opened Entities
  import opened LabelMatchers
  import opened TimeRange
  import opened QueryText

  datatype BuilderOption =
    | WithMetric(metric: string)
    | WithLabelMatchers(matchers: seq<LabelMatcher>)
    | WithRange(timeUnit: int, durationQty: nat)

  /** The builder an option is applied to, afterwards. */
  function Applied(q: Query, o: BuilderOption): Query {
    match o
    case WithMetric(m) => q.(metric := m)
    case WithLabelMatchers(ls) => q.(matchers := q.matchers + ls)
    case WithRange(u, d) => q.(timeUnit := u, timeDuration := d)
  }

  function AppliedAll(options: seq<BuilderOption>): Query {
    if options == [] then Query("", [], 0, 0)
    else Applied(AppliedAll(options[..|options| - 1]), options[|options| - 1])
  }

  /** strings.Join with a comma. */
  function Join(ss: seq<string>): string {
    if ss == [] then ""
    else if |ss| == 1 then ss[0]
    else ss[0] + ("," + Join(ss[1..]))
  }

  /** LabelMatcher.String; None is the panic of an operator that has no name. */
  method MatcherText(m: LabelMatcher) returns (text: Option<string>)
    ensures text == if IsValidOperator(m.operator)
                    then Some(FilterText(Filter(m.name, m.operator, m.value))) else None
  {
    var buf := m.name;
    if !IsValidOperator(m.operator) {
      return None;
    }
    buf := buf + OPERATOR_NAMES[m.operator - 1];
    buf := buf + ("\"" + (m.value + "\""));
    text := Some(buf);
    Regroup(m.name, OperatorText(m.operator), [], "\"" + (m.value + "\""));
  }

  function FilterTexts(fs: seq<Filter>): seq<string>
    requires forall i :: 0 <= i < |fs| ==> IsValidOperator(fs[i].operator)
  {
    seq(|fs|, i requires 0 <= i < |fs| => FilterText(fs[i]))
  }

  lemma {:induction false} JoinFilters(fs: seq<Filter>)
    requires forall i :: 0 <= i < |fs| ==> IsValidOperator(fs[i].operator)
    ensures Join(FilterTexts(fs)) + "}" == FiltersText(fs)
    decreases |fs|
  {
    hide FilterText;
    if |fs| > 1 {
      JoinFilters(fs[1..]);
      assert FilterTexts(fs)[1..] == FilterTexts(fs[1..]);
      Regroup(FilterTexts(fs)[0], ",", Join(FilterTexts(fs[1..])), "}");
    }
  }

  class Builder {
    var metric: string
    var labelMatchers: seq<LabelMatcher>
    var timeUnit: int
    var timeDuration: nat

    function View(): Query
      reads this
    {
      Query(metric, labelMatchers, timeUnit, timeDuration)
    }

    constructor ()
      ensures View() == AppliedAll([])
    {
      metric, labelMatchers, timeUnit, timeDuration := "", [], 0, 0;
    }

    method Apply(o: BuilderOption)
      modifies this
      ensures View() == Applied(old(View()), o)
    {
      match o {
        case WithMetric(m) => metric := m;
        case WithLabelMatchers(ls) => labelMatchers := labelMatchers + ls;
        case WithRange(u, d) => timeUnit, timeDuration := u, d;
      }
    }

    /** The query's text, laid out from the fields and read back as them if these are plain; or None where the
        original panics: when some operator has no name. */
    method BuildQuery() returns (text: Option<string>)
      ensures text.Some? <==> forall i :: 0 <= i < |labelMatchers| ==> 0 < labelMatchers[i].operator <= 4
      ensures text.Some? ==> text.value == Layout(Query(metric, labelMatchers, timeUnit, timeDuration))
      ensures text.Some? ==>
                var q := Query(metric, labelMatchers, timeUnit, timeDuration);
                Plain(q) <==> Read(text.value).Some? && Describes(Read(text.value).value, q)
      ensures text == if OperatorsValid(View()) then Some(Text(ShownOf(View()))) else None
    {
      hide FilterText, FiltersText, RangeText, Layout, Plain, Read, Describes;
      var buf := metric;
      var filters: seq<string> := [];
      ghost var fs := ShownOf(View()).filters;
      for i := 0 to |labelMatchers|
        invariant |filters| == i
        invariant forall j :: 0 <= j < i ==>
                    IsValidOperator(labelMatchers[j].operator) && filters[j] == FilterText(fs[j])
      {
        var m := MatcherText(labelMatchers[i]);
        if m.None? {
          return None;
        }
        filters := filters + [m.value];
      }
      assert filters == FilterTexts(fs);
      JoinFilters(fs);
      buf := buf + ("{" + Join(filters) + "}");
      Assoc("{", Join(filters), "}");
      var range := "";
      if IsValidUnit(timeUnit) {
        range := "[" + Decimal(timeDuration) + UNIT_NAMES[timeUnit - 1] + "]";
        RangeTextOf(timeUnit, timeDuration);
      } else {
        NoRangeText();
      }
      buf := buf + range;
      BuiltText(ShownOf(View()));
      TextIsLayout(View());
      ReadsBackIffPlain(View());
      text := Some(buf);
    }
  }

  lemma RangeTextOf(unit: int, qty: nat)
    requires IsValidUnit(unit)
    ensures RangeText(Some((unit, qty))) == "[" + Decimal(qty) + UNIT_NAMES[unit - 1] + "]"
  {
  }

  lemma NoRangeText()
    ensures RangeText(None) == ""
  {
  }

  lemma BuiltText(p: Shown)
    requires Meaningful(p)
    ensures Text(p) == p.metric + ("{" + FiltersText(p.filters)) + RangeText(p.range)
  {
  }

  method NewBuilder(options: seq<BuilderOption>) returns (b: Builder)
    ensures fresh(b) && b.View() == AppliedAll(options)
  {
    b := new Builder();
    for i := 0 to |options|
      invariant fresh(b) && b.View() == AppliedAll(options[..i])
    {
      assert options[..i + 1][..i] == options[..i];
      b.Apply(options[i]);
    }
    assert options[..|options|] == options;
  }

  /** The data fetcher's wiring: the builder for a strategy's metric, matchers and range. */
  method SetStrategy(metric: string, matchers: seq<LabelMatcher>, timeUnit: int, qty: nat) returns (b: Builder)
    ensures fresh(b) && b.metric == metric && b.labelMatchers == matchers
    ensures b.timeUnit == timeUnit && b.timeDuration == qty
  {
    var options := [WithMetric(metric), WithLabelMatchers(matchers), WithRange(timeUnit, qty)];
    b := NewBuilder(options);
    AppliedMore([], options[0]);
    AppliedMore([options[0]], options[1]);
    AppliedMore([options[0], options[1]], options[2]);
    assert options == [options[0], options[1]] + [options[2]];
    assert [] + matchers == matchers;
  }

  /** What one more option changes: the metric, or the range, is replaced; matchers are added behind the others. */
  lemma OptionsMeaning(options: seq<BuilderOption>, o: BuilderOption)
    ensures AppliedAll([]) == Query("", [], 0, 0)
    ensures var q, q' := AppliedAll(options), AppliedAll(options + [o]);
            && q'.metric == (if o.WithMetric? then o.metric else q.metric)
            && q'.matchers == (if o.WithLabelMatchers? then q.matchers + o.matchers else q.matchers)
            && q'.timeUnit == (if o.WithRange? then o.timeUnit else q.timeUnit)
            && q'.timeDuration == (if o.WithRange? then o.durationQty else q.timeDuration)
  {
    AppliedMore(options, o);
  }

  /** Matchers given in several options are concatenated in order. */
  lemma {:induction false} MatchersConcatenate(a: seq<BuilderOption>, b: seq<BuilderOption>)
    ensures AppliedAll(a + b).matchers == AppliedAll(a).matchers + AppliedAll(b).matchers
  {
    hide Applied, AppliedAll;
    if b == [] {
      OptionsMeaning(a, WithMetric(""));
      assert a + b == a;
    } else {
      var n := |b| - 1;
      MatchersConcatenate(a, b[..n]);
      OptionsMeaning(a + b[..n], b[n]);
      OptionsMeaning(b[..n], b[n]);
      assert a + b == a + b[..n] + [b[n]] && b == b[..n] + [b[n]];
    }
  }

  lemma AppliedMore(options: seq<BuilderOption>, o: BuilderOption)
    ensures AppliedAll(options + [o]) == Applied(AppliedAll(options), o)
  {
  }

  // ----- from configuration to query

  /** After a list is accepted, the label that Execute looks up for task identifiers is that of the last matcher of
      type task ID, the one for hosts that of the last of type task hostname; both name filters of the printed
      query, and a plain query shows them to its reader. */
  lemma LookedUpLabelsArePrinted(q: Query, before: Labels)
    requires Acceptable(q.matchers) && OperatorsValid(q)
    ensures var p, labels := ShownOf(q), Adopted(q.matchers, before);
            && (exists i :: IsLast(q.matchers, TASK_ID, i)
                  && labels.taskID == q.matchers[i].name && p.filters[i].name == labels.taskID)
            && (exists j :: IsLast(q.matchers, TASK_HOSTNAME, j)
                  && labels.hostname == q.matchers[j].name && p.filters[j].name == labels.hostname)
            && (Plain(q) ==> Read(Text(p)) == Some(p))
  {
    hide Read, Text, Plain;
    var p := ShownOf(q);
    AdoptedWhenAccepted(q.matchers, before);
    var i, j :| IsLast(q.matchers, TASK_ID, i) && IsLast(q.matchers, TASK_HOSTNAME, j)
      && Adopted(q.matchers, before) == Labels(q.matchers[i].name, q.matchers[j].name);
    assert p.filters[i].name == q.matchers[i].name && p.filters[j].name == q.matchers[j].name;
    PlainIffUnambiguous(q);
    if Plain(q) {
      ReadText(p);
    }
  }

  /** Acceptance looks at types only: a list that leaves its operators at zero is accepted, and its query
      cannot be built. */
  lemma AcceptedQueryMayLackText(metric: string, unit: int, qty: nat)
    ensures exists matchers :: Acceptable(matchers) && !OperatorsValid(Query(metric, matchers, unit, qty))
  {
    var matchers := [LabelMatcher(TASK_ID, "id", 0, ""), LabelMatcher(TASK_HOSTNAME, "host", 0, "")];
    assert matchers[0].typ == TASK_ID && matchers[1].typ == TASK_HOSTNAME;
    assert Acceptable(matchers);
    assert !OperatorsValid(Query(metric, matchers, unit, qty));
  }
}
