/** Label matchers: the filters of a query, two of which name the labels tasks are recognised by. */
module LabelMatchers {
  import opened Entities

  datatype LabelMatcher = LabelMatcher(typ: int, name: string, operator: int, value: string)

  const OTHER := 0
  const TASK_ID := 1
  const TASK_HOSTNAME := 2

  predicate IsValidType(t: int) { 0 <= t < 3 }

  /** Operators are numbered from 1, in this order. */
  const OPERATOR_NAMES: seq<string> := ["=", "!=", "=~", "!=~"]

  predicate IsValidOperator(o: int) { 0 < o <= |OPERATOR_NAMES| }

  // ----- choosing the dedicated labels

  datatype ConfigError = NoLabelMatchers | InvalidLabelType | NoTaskIDMatcher | NoHostnameMatcher

  predicate HasType(matchers: seq<LabelMatcher>, typ: int) {
    exists i :: 0 <= i < |matchers| && matchers[i].typ == typ
  }

  predicate AllTypesValid(matchers: seq<LabelMatcher>) {
    forall i :: 0 <= i < |matchers| ==> IsValidType(matchers[i].typ)
  }

  /** The lists a strategy can be configured with. */
  predicate Acceptable(matchers: seq<LabelMatcher>) {
    AllTypesValid(matchers) && HasType(matchers, TASK_ID) && HasType(matchers, TASK_HOSTNAME)
  }

  /** Why a list is refused. */
  function Refusal(matchers: seq<LabelMatcher>): (error: Option<ConfigError>)
    ensures error.None? <==> Acceptable(matchers)
    ensures matchers == [] ==> error.Some?
    ensures error == Some(InvalidLabelType) <==> !AllTypesValid(matchers)
    ensures error == Some(NoTaskIDMatcher) <==> AllTypesValid(matchers) && !HasType(matchers, TASK_ID)
    ensures error == Some(NoHostnameMatcher) <==>
              AllTypesValid(matchers) && HasType(matchers, TASK_ID) && !HasType(matchers, TASK_HOSTNAME)
  {
    if !AllTypesValid(matchers) then Some(InvalidLabelType)
    else if !HasType(matchers, TASK_ID) then Some(NoTaskIDMatcher)
    else if !HasType(matchers, TASK_HOSTNAME) then Some(NoHostnameMatcher)
    else None
  }

  /** The label of the last matcher of a type, or the fallback if there is none. */
  function LastLabel(matchers: seq<LabelMatcher>, typ: int, fallback: string): string {
    if matchers == [] then fallback
    else
      var n := |matchers| - 1;
      if matchers[n].typ == typ then matchers[n].name else LastLabel(matchers[..n], typ, fallback)
  }

  ghost predicate IsLast(matchers: seq<LabelMatcher>, typ: int, i: int) {
    && 0 <= i < |matchers| && matchers[i].typ == typ
    && forall j :: i < j < |matchers| ==> matchers[j].typ != typ
  }

  lemma {:induction false} LastLabelIsLast(matchers: seq<LabelMatcher>, typ: int, fallback: string)
    requires HasType(matchers, typ)
    ensures exists i :: IsLast(matchers, typ, i) && matchers[i].name == LastLabel(matchers, typ, fallback)
  {
    var n := |matchers| - 1;
    if matchers[n].typ == typ {
      assert IsLast(matchers, typ, n);
    } else {
      var i :| 0 <= i < |matchers| && matchers[i].typ == typ;
      assert matchers[..n][i].typ == typ;
      LastLabelIsLast(matchers[..n], typ, fallback);
      var j :| IsLast(matchers[..n], typ, j) && matchers[..n][j].name == LastLabel(matchers[..n], typ, fallback);
      assert forall l :: 0 <= l < n ==> matchers[l] == matchers[..n][l];
      assert IsLast(matchers, typ, j);
    }
  }

  /** How many matchers precede the first one of invalid type. */
  function FirstInvalid(matchers: seq<LabelMatcher>): (n: nat)
    ensures n <= |matchers| && AllTypesValid(matchers[..n])
    ensures n < |matchers| ==> !IsValidType(matchers[n].typ)
  {
    if matchers == [] || !IsValidType(matchers[0].typ) then 0
    else
      var n := 1 + FirstInvalid(matchers[1..]);
      assert forall i :: 0 < i < n ==> matchers[i] == matchers[1..][..n - 1][i - 1];
      n
  }

  /** The names in force after a list was offered to a strategy, whether it was accepted or not. */
  function Adopted(matchers: seq<LabelMatcher>, before: Labels): Labels {
    var read := matchers[..FirstInvalid(matchers)];
    Labels(LastLabel(read, TASK_ID, before.taskID), LastLabel(read, TASK_HOSTNAME, before.hostname))
  }

  /** The loop both strategies run: names are taken over as they are met, an invalid type stops it. */
  method ScanLabelMatchers(matchers: seq<LabelMatcher>, before: Labels)
    returns (labels: Labels, error: Option<ConfigError>)
    ensures error == Refusal(matchers)
    ensures labels == Adopted(matchers, before)
  {
    labels := before;
    var foundTaskID, foundHostname := false, false;
    var i := 0;
    while i < |matchers|
      invariant 0 <= i <= |matchers|
      invariant AllTypesValid(matchers[..i])
      invariant foundTaskID == HasType(matchers[..i], TASK_ID)
      invariant foundHostname == HasType(matchers[..i], TASK_HOSTNAME)
      invariant labels == Labels(LastLabel(matchers[..i], TASK_ID, before.taskID),
                                 LastLabel(matchers[..i], TASK_HOSTNAME, before.hostname))
    {
      var l := matchers[i];
      assert matchers[..i + 1][..i] == matchers[..i];
      assert matchers[..i + 1][i] == l;
      assert forall t :: HasType(matchers[..i], t) ==> HasType(matchers[..i + 1], t) by {
        assert forall j :: 0 <= j < i ==> matchers[..i + 1][j] == matchers[..i][j];
      }
      if !IsValidType(l.typ) {
        assert i == FirstInvalid(matchers);
        return labels, Some(InvalidLabelType);
      } else if l.typ == TASK_ID {
        foundTaskID := true;
        labels := labels.(taskID := l.name);
      } else if l.typ == TASK_HOSTNAME {
        foundHostname := true;
        labels := labels.(hostname := l.name);
      }
      i := i + 1;
    }
    assert matchers[..i] == matchers;
    error := if !foundTaskID then Some(NoTaskIDMatcher)
             else if !foundHostname then Some(NoHostnameMatcher)
             else None;
  }

  /** The names in force afterwards: of the matchers before the first one of invalid type, the last one of type
      task ID names the task label and the last one of type task hostname names the host label; a type that does
      not occur there leaves its name alone. */
  lemma AdoptedMeaning(matchers: seq<LabelMatcher>, before: Labels)
    ensures var names, read := Adopted(matchers, before), matchers[..FirstInvalid(matchers)];
            && (forall i :: IsLast(read, 1, i) ==> names.taskID == read[i].name)
            && (forall j :: IsLast(read, 2, j) ==> names.hostname == read[j].name)
            && (!HasType(read, 1) ==> names.taskID == before.taskID)
            && (!HasType(read, 2) ==> names.hostname == before.hostname)
  {
    var read := matchers[..FirstInvalid(matchers)];
    forall typ, fallback ensures !HasType(read, typ) ==> LastLabel(read, typ, fallback) == fallback {
      LastLabelFallsBack(read, typ, fallback, fallback);
    }
    forall typ, fallback, i | IsLast(read, typ, i) ensures LastLabel(read, typ, fallback) == read[i].name {
      LastLabelIsLast(read, typ, fallback);
    }
  }

  /** An accepted list is read to its end, so its last matchers of the two types give the names. */
  lemma AdoptedWhenAccepted(matchers: seq<LabelMatcher>, before: Labels)
    requires Acceptable(matchers)
    ensures exists i, j :: IsLast(matchers, TASK_ID, i) && IsLast(matchers, TASK_HOSTNAME, j)
              && Adopted(matchers, before) == Labels(matchers[i].name, matchers[j].name)
    ensures forall i, j :: IsLast(matchers, TASK_ID, i) && IsLast(matchers, TASK_HOSTNAME, j) ==>
              Adopted(matchers, before) == Labels(matchers[i].name, matchers[j].name)
  {
    assert FirstInvalid(matchers) == |matchers| && matchers[..|matchers|] == matchers;
    AdoptedMeaning(matchers, before);
    LastLabelIsLast(matchers, TASK_ID, "");
    LastLabelIsLast(matchers, TASK_HOSTNAME, "");
  }

  lemma {:induction false} LastLabelFallsBack(matchers: seq<LabelMatcher>, typ: int, a: string, b: string)
    ensures HasType(matchers, typ) ==> LastLabel(matchers, typ, a) == LastLabel(matchers, typ, b)
    ensures !HasType(matchers, typ) ==> LastLabel(matchers, typ, a) == a
  {
    if matchers != [] {
      var n := |matchers| - 1;
      LastLabelFallsBack(matchers[..n], typ, a, b);
      assert forall i :: 0 <= i < n ==> matchers[..n][i] == matchers[i];
      assert HasType(matchers, typ) <==> HasType(matchers[..n], typ) || matchers[n].typ == typ;
    }
  }

  /** A list is accepted exactly if it is read to its end and fixes both names, whatever they were before. */
  lemma AcceptedIffFixesNames(matchers: seq<LabelMatcher>)
    ensures Refusal(matchers).None? <==>
              && FirstInvalid(matchers) == |matchers|
              && forall a, b :: Adopted(matchers, a) == Adopted(matchers, b)
  {
    hide LastLabel;
    if FirstInvalid(matchers) == |matchers| {
      assert matchers[..|matchers|] == matchers;
      forall a: Labels, b: Labels
        ensures Acceptable(matchers) ==> Adopted(matchers, a) == Adopted(matchers, b)
      {
        LastLabelFallsBack(matchers, TASK_ID, a.taskID, b.taskID);
        LastLabelFallsBack(matchers, TASK_HOSTNAME, a.hostname, b.hostname);
      }
      if !Acceptable(matchers) {
        var a, b := Labels("", ""), Labels("x", "x");
        LastLabelFallsBack(matchers, TASK_ID, "", "x");
        LastLabelFallsBack(matchers, TASK_ID, "x", "");
        LastLabelFallsBack(matchers, TASK_HOSTNAME, "", "x");
        LastLabelFallsBack(matchers, TASK_HOSTNAME, "x", "");
        assert Adopted(matchers, a) != Adopted(matchers, b);
      }
    }
  }
}
