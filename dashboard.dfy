/** The dashboard: the employee's summary, the expense items gathered from the lines of the
    recent reports, the item selection and the item search. */
module DashboardScreen {
  import opened Js
  import opened JsStrings
  import opened Mirror
  import opened Selection

  /** The employee whose dashboard is loaded. */
  const DashboardEmployee := "EMP001"

  /** The summary shown after a failed load: zero amounts and no recent reports. */
  const ZeroSummary: Value :=
    Obj(map["employeeId" := Str(DashboardEmployee), "employeeName" := Str("Current User"),
            "totalExpenses" := Num(0.0), "pendingAmount" := Num(0.0), "approvedAmount" := Num(0.0),
            "recentReports" := Arr([])])

  /** `value.length > 0` for the documents of a line: arrays and strings have a length, any
      other value has none. */
  predicate HasLength(v: Value) {
    (v.Arr? && |v.items| > 0) || (v.Str? && |v.s| > 0)
  }

  /** `v || fallback`. */
  function Or(v: Value, fallback: string): Value {
    if Truthy(v) then v else Str(fallback)
  }

  /** `documents && documents.length > 0`: the documents themselves when falsy. */
  function Attachment(documents: Value): Value {
    if Truthy(documents) then Bool(HasLength(documents)) else documents
  }

  /** The table row a line of `report` becomes. */
  function LineItem(report: Value, line: Value): Value {
    Obj(map["id" := Get(line, "lineId"),
            "reportId" := Get(report, "reportId"),
            "description" := Get(line, "description"),
            "amount" := Get(line, "reimbursementAmount"),
            "currency" := Get(line, "reimbursementCurrency"),
            "date" := Get(line, "expenseDate"),
            "type" := Or(Get(Get(line, "expenseType"), "name"), "Unknown"),
            "merchant" := Or(Get(line, "merchantVendor"), "-"),
            "location" := Or(Get(line, "businessPurpose"), "-"),
            "hasAttachment" := Attachment(Get(line, "documents")),
            "documents" := Get(line, "documents")])
  }

  /** The row's defaults: a type without a name is `Unknown`, a missing merchant or purpose
      is `-`, so these three are always truthy; the row belongs to its report. */
  lemma LineItemDefaults(report: Value, line: Value)
    ensures Get(LineItem(report, line), "type") == Or(Get(Get(line, "expenseType"), "name"), "Unknown")
    ensures Get(LineItem(report, line), "merchant") == Or(Get(line, "merchantVendor"), "-")
    ensures Get(LineItem(report, line), "location") == Or(Get(line, "businessPurpose"), "-")
    ensures Truthy(Get(LineItem(report, line), "type")) && Truthy(Get(LineItem(report, line), "location"))
    ensures Get(LineItem(report, line), "reportId") == Get(report, "reportId")
  {
  }

  /** The row has an attachment exactly when the line has a non-empty list of documents,
      and keeps the line's id, amount and documents. */
  lemma LineItemAttachment(report: Value, line: Value)
    ensures Truthy(Get(LineItem(report, line), "hasAttachment")) <==> HasLength(Get(line, "documents"))
    ensures Get(LineItem(report, line), "id") == Get(line, "lineId")
    ensures Get(LineItem(report, line), "amount") == Get(line, "reimbursementAmount")
    ensures Get(LineItem(report, line), "documents") == Get(line, "documents")
  {
  }

  function LineItems(report: Value, lines: seq<Value>): seq<Value>
    decreases |lines|
  {
    if lines == [] then [] else [LineItem(report, lines[0])] + LineItems(report, lines[1..])
  }

  /** One row per line, in the lines' order. */
  lemma {:induction false} LineItemsAt(report: Value, lines: seq<Value>)
    ensures |LineItems(report, lines)| == |lines|
    ensures forall i :: 0 <= i < |lines| ==> LineItems(report, lines)[i] == LineItem(report, lines[i])
    decreases |lines|
  {
    if lines != [] {
      LineItemsAt(report, lines[1..]);
    }
  }

  predicate NoneNullish(lines: seq<Value>) {
    forall i :: 0 <= i < |lines| ==> !Nullish(lines[i])
  }

  /** The items one recent report contributes, given how its lines request settled: its
      mapped lines when the answer is a successful envelope holding an array of records;
      nothing when the request fails, the answer has another shape, or reading a report or
      a line throws (those errors are caught per report). */
  function ReportItems(report: Value, answer: Settled): seq<Value> {
    if Nullish(report) || answer.Rejected? || !IsEnveloped(answer.value) then []
    else
      var lines := Get(Get(answer.value, "data"), "data");
      if lines.Arr? && NoneNullish(lines.items) then LineItems(report, lines.items) else []
  }

  /** Each recent report's contribution, in the reports' order. */
  function Contributions(reports: seq<Value>, answers: seq<Settled>): seq<seq<Value>>
    requires |answers| == |reports|
  {
    seq(|reports|, i requires 0 <= i < |reports| => ReportItems(reports[i], answers[i]))
  }

  /** The lists of a sequence of lists, one after the other. */
  function Flatten<T>(lists: seq<seq<T>>): seq<T>
    decreases |lists|
  {
    if lists == [] then [] else Flatten(lists[..|lists| - 1]) + lists[|lists| - 1]
  }

  lemma {:induction false} FlattenConcat<T>(l1: seq<seq<T>>, l2: seq<seq<T>>)
    ensures Flatten(l1 + l2) == Flatten(l1) + Flatten(l2)
    decreases |l2|
  {
    if l2 == [] {
      assert l1 + l2 == l1;
    } else {
      var n := |l2| - 1;
      var l := l1 + l2;
      assert l[..|l| - 1] == l1 + l2[..n] && l[|l| - 1] == l2[n];
      FlattenConcat(l1, l2[..n]);
    }
  }

  lemma {:induction false} FlattenMember<T>(lists: seq<seq<T>>, x: T)
    requires x in Flatten(lists)
    ensures exists i :: 0 <= i < |lists| && x in lists[i]
    decreases |lists|
  {
    var n := |lists| - 1;
    if x !in lists[n] {
      FlattenMember(lists[..n], x);
      var i :| 0 <= i < n && x in lists[..n][i];
      assert lists[..n][i] == lists[i];
    }
  }

  /** The items of all recent reports, in their order. */
  function ItemsOf(reports: seq<Value>, answers: seq<Settled>): seq<Value>
    requires |answers| == |reports|
  {
    Flatten(Contributions(reports, answers))
  }

  /** The report ids whose lines are asked for: one per report that can be read. */
  function RequestedIds(reports: seq<Value>): seq<Value>
    decreases |reports|
  {
    if reports == [] then []
    else RequestedIds(reports[..|reports| - 1])
         + (if Nullish(reports[|reports| - 1]) then [] else [Get(reports[|reports| - 1], "reportId")])
  }

  /** The items are the concatenation of the reports' contributions: each report is handled
      on its own, so a failing one contributes nothing and does not stop the others. */
  lemma ItemsOfConcat(r1: seq<Value>, a1: seq<Settled>, r2: seq<Value>, a2: seq<Settled>)
    requires |a1| == |r1| && |a2| == |r2|
    ensures ItemsOf(r1 + r2, a1 + a2) == ItemsOf(r1, a1) + ItemsOf(r2, a2)
  {
    var c1, c2 := Contributions(r1, a1), Contributions(r2, a2);
    var c := Contributions(r1 + r2, a1 + a2);
    assert c == c1 + c2 by {
      forall i | 0 <= i < |c|
        ensures c[i] == (c1 + c2)[i]
      {
        if i < |r1| {
          assert (r1 + r2)[i] == r1[i] && (a1 + a2)[i] == a1[i];
        } else {
          assert (r1 + r2)[i] == r2[i - |r1|] && (a1 + a2)[i] == a2[i - |r1|];
        }
      }
    }
    FlattenConcat(c1, c2);
  }

  /** A single report contributes its own items. */
  lemma ItemsOfOne(report: Value, answer: Settled)
    ensures ItemsOf([report], [answer]) == ReportItems(report, answer)
  {
    var c := Contributions([report], [answer]);
    assert c == [ReportItems(report, answer)];
    assert c[..0] == [];
    assert Flatten(c) == Flatten(c[..0]) + c[0];
  }

  /** A report whose lines cannot be loaded adds nothing, wherever it sits. */
  lemma FailedReportAddsNothing(r1: seq<Value>, a1: seq<Settled>, report: Value, reason: Value,
                                r2: seq<Value>, a2: seq<Settled>)
    requires |a1| == |r1| && |a2| == |r2|
    ensures ItemsOf(r1 + [report] + r2, a1 + [Rejected(reason)] + a2) == ItemsOf(r1, a1) + ItemsOf(r2, a2)
  {
    var rejected := Rejected(reason);
    var ra, aa := r1 + [report], a1 + [rejected];
    ItemsOfOne(report, rejected);
    assert ReportItems(report, rejected) == [];
    ItemsOfConcat(r1, a1, [report], [rejected]);
    assert ItemsOf(ra, aa) == ItemsOf(r1, a1);
    ItemsOfConcat(ra, aa, r2, a2);
  }

  /** Every row a report contributes carries that report's id. */
  lemma ReportItemsBelong(report: Value, answer: Settled, x: Value)
    requires x in ReportItems(report, answer)
    ensures Get(x, "reportId") == Get(report, "reportId")
  {
    var lines := Get(Get(answer.value, "data"), "data");
    LineItemsAt(report, lines.items);
    var k :| 0 <= k < |lines.items| && LineItems(report, lines.items)[k] == x;
    LineItemDefaults(report, lines.items[k]);
  }

  /** Every item belongs to one of the recent reports. */
  lemma ItemsComeFromReports(reports: seq<Value>, answers: seq<Settled>, x: Value)
    requires |answers| == |reports|
    requires x in ItemsOf(reports, answers)
    ensures exists i :: 0 <= i < |reports| && Get(x, "reportId") == Get(reports[i], "reportId")
  {
    var c := Contributions(reports, answers);
    FlattenMember(c, x);
    var n :| 0 <= n < |c| && x in c[n];
    ReportItemsBelong(reports[n], answers[n], x);
  }

  /** Handling one more report appends its contribution. */
  lemma ItemsOfSnoc(reports: seq<Value>, answers: seq<Settled>, i: nat)
    requires |answers| == |reports| && i < |reports|
    ensures ItemsOf(reports[..i + 1], answers[..i + 1]) == ItemsOf(reports[..i], answers[..i]) + ReportItems(reports[i], answers[i])
  {
    var c := Contributions(reports[..i + 1], answers[..i + 1]);
    assert c[..i] == Contributions(reports[..i], answers[..i]);
    assert c[i] == ReportItems(reports[i], answers[i]);
  }

  /** The gathering loop: one lines request per readable recent report, in order, each
      answer's items appended as it comes. */
  method CollectExpenseItems(reports: seq<Value>, answers: seq<Settled>) returns (items: seq<Value>, requested: seq<Value>)
    requires |answers| == |reports|
    ensures items == ItemsOf(reports, answers)
    ensures requested == RequestedIds(reports)
  {
    items := [];
    requested := [];
    var i := 0;
    while i < |reports|
      invariant 0 <= i <= |reports|
      invariant items == ItemsOf(reports[..i], answers[..i])
      invariant requested == RequestedIds(reports[..i])
    {
      assert reports[..i + 1][..i] == reports[..i];
      ItemsOfSnoc(reports, answers, i);
      if !Nullish(reports[i]) {
        requested := requested + [Get(reports[i], "reportId")];
      }
      items := items + ReportItems(reports[i], answers[i]);
      i := i + 1;
    }
    assert reports[..i] == reports && answers[..i] == answers;
  }

  /** The summary inside the backend envelope. */
  function Payload(response: Value): Value {
    Get(Get(response, "data"), "data")
  }

  /** The recent reports of a loaded summary that the lines loop walks. */
  function RecentReports(answer: Settled): seq<Value> {
    if answer.Fulfilled? && IsEnveloped(answer.value) then Items(Get(Payload(answer.value), "recentReports"))
    else []
  }

  /** The reports shown as cards: at most the first five recent reports. */
  function CardReports(summary: Value): (r: seq<Value>)
    ensures Get(summary, "recentReports").Arr? ==>
              |r| <= |Get(summary, "recentReports").items| && r == Get(summary, "recentReports").items[..|r|]
    ensures |r| <= 5
    ensures Get(summary, "recentReports").Arr? && |Get(summary, "recentReports").items| >= 5 ==> |r| == 5
  {
    var recent := Get(summary, "recentReports");
    if recent.Arr? then (if |recent.items| <= 5 then recent.items else recent.items[..5]) else []
  }

  /** An item is shown when its description or type contains the query, ignoring case, or
      it has a location that does. */
  predicate ItemMatches(item: Value, query: string) {
    MatchesIgnoringCase(Get(item, "description"), query) || MatchesIgnoringCase(Get(item, "type"), query)
    || (Truthy(Get(item, "location")) && MatchesIgnoringCase(Get(item, "location"), query))
  }

  function FilterItems(items: seq<Value>, query: string): (r: seq<Value>)
    ensures forall x :: x in r <==> x in items && ItemMatches(x, query)
  {
    if items == [] then []
    else (if ItemMatches(items[0], query) then [items[0]] else []) + FilterItems(items[1..], query)
  }

  /** The filter keeps order and repetitions: filtering a concatenation concatenates the
      filtered parts, and one row is kept alone exactly when it matches. */
  lemma {:induction false} FilterItemsConcat(a: seq<Value>, b: seq<Value>, query: string)
    ensures FilterItems(a + b, query) == FilterItems(a, query) + FilterItems(b, query)
  {
    if a != [] {
      assert (a + b)[0] == a[0] && (a + b)[1..] == a[1..] + b;
      FilterItemsConcat(a[1..], b, query);
    } else {
      assert a + b == b;
    }
  }

  lemma FilterItemsOne(item: Value, query: string)
    ensures FilterItems([item], query) == if ItemMatches(item, query) then [item] else []
  {
    assert [item][1..] == [];
  }

  /** Every item has the type `Unknown` or a real one, so the empty query shows them all. */
  lemma EmptyQueryShowsEveryItem(report: Value, line: Value)
    ensures Get(LineItem(report, line), "type").Str? ==> ItemMatches(LineItem(report, line), "")
  {
    var t := Get(LineItem(report, line), "type");
    if t.Str? {
      IncludesEmpty(Lower(t.s));
      assert Lower("") == "";
    }
  }

  class Dashboard {
    var summary: Value
    var items: seq<Value>
    var loading: bool
    var selected: seq<Value>

    constructor ()
      ensures summary == Null && items == [] && loading && selected == []
    {
      summary := Null;
      items := [];
      loading := true;
      selected := [];
    }

    /** `loadDashboardData()` with `answer` the dashboard call's outcome and `lineAnswers[i]`
        that of the i-th recent report's lines. An envelope sets the summary and gathers
        the items; a bare answer is taken as the summary with its own items; a failure gives
        the zeroed summary and no items. */
    method Load(answer: Settled, lineAnswers: seq<Settled>) returns (requested: seq<Value>)
      requires |lineAnswers| == |RecentReports(answer)|
      modifies this
      ensures !loading && selected == old(selected)
      ensures answer.Rejected? ==> summary == ZeroSummary && items == [] && requested == []
      ensures answer.Fulfilled? && IsEnveloped(answer.value) ==>
                ShowSummary(Payload(answer.value), lineAnswers, requested)
      ensures answer.Fulfilled? && !IsEnveloped(answer.value) && Truthy(Get(answer.value, "data")) ==>
                (summary == Get(answer.value, "data") && items == Items(Get(Get(answer.value, "data"), "expenseItems"))
                 && requested == [])
      ensures answer.Fulfilled? && !Truthy(Get(answer.value, "data")) ==>
                summary == old(summary) && items == old(items) && requested == []
    {
      loading := true;
      requested := [];
      if answer.Rejected? {
        summary := ZeroSummary;
        items := [];
      } else if IsEnveloped(answer.value) {
        requested := LoadSummary(Payload(answer.value), lineAnswers);
      } else if Truthy(Get(answer.value, "data")) {
        var d := Get(answer.value, "data");
        summary := d;
        items := Items(Get(d, "expenseItems"));
      }
      loading := false;
    }

    /** The state after an enveloped summary `s`: with recent reports the summary and their
        items; with a value that is not a list of reports, the zeroed summary (walking it
        throws, and the error is caught by the load). */
    ghost predicate ShowSummary(s: Value, lineAnswers: seq<Settled>, requested: seq<Value>)
      reads this
    {
      match Get(s, "recentReports")
      case Arr(reports) =>
        |lineAnswers| == |reports| && summary == s && items == ItemsOf(reports, lineAnswers)
        && requested == RequestedIds(reports)
      case recent =>
        (!Truthy(recent) ==> summary == s && items == [] && requested == [])
        && (Truthy(recent) ==> summary == ZeroSummary && items == [] && requested == [])
    }

    method LoadSummary(s: Value, lineAnswers: seq<Settled>) returns (requested: seq<Value>)
      requires |lineAnswers| == |Items(Get(s, "recentReports"))|
      modifies this
      ensures ShowSummary(s, lineAnswers, requested) && selected == old(selected) && loading == old(loading)
    {
      requested := [];
      summary := s;
      var recent := Get(s, "recentReports");
      if !Truthy(recent) {
        items := [];
      } else if recent.Arr? {
        items, requested := CollectExpenseItems(recent.items, lineAnswers);
      } else {
        summary := ZeroSummary;
        items := [];
      }
    }

    /** `handleItemSelection(itemId)`. */
    method ToggleItem(itemId: Value)
      modifies this
      ensures selected == Toggle(old(selected), itemId) && items == old(items)
    {
      selected := Toggle(selected, itemId);
    }

    /** `handleSelectAll()`: clears a full selection, otherwise selects every item's id. */
    method SelectAllItems()
      modifies this
      ensures selected == SelectAll(old(selected), |items|, Ids(items, "id")) && items == old(items)
    {
      selected := SelectAll(selected, |items|, Ids(items, "id"));
    }
  }

  /** After a failed load there is nothing to show: no cards and no items. */
  lemma FailedLoadShowsNothing()
    ensures CardReports(ZeroSummary) == []
    ensures Get(ZeroSummary, "totalExpenses") == Num(0.0) && Get(ZeroSummary, "pendingAmount") == Num(0.0)
  {
    assert Get(ZeroSummary, "recentReports") == Arr([]);
  }
}
