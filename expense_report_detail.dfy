/** The report detail screen: which view it renders, the total it displays and its item
    and document counts. */
module ExpenseReportDetailScreen {
  import opened Js
  import opened Api
  import opened Mirror
  import opened ExpenseReportsHook
  import opened ExpenseReportFormScreen

  /** The three views of the screen. */
  datatype View = LoadingView | NotFoundView | ReportView

  /** The view for the single-report hook's state: loading first, then a failure or a
      missing report, then the report. */
  function ViewFor(loading: bool, error: Value, report: Value): View {
    if loading then LoadingView
    else if Truthy(error) || !Truthy(report) then NotFoundView
    else ReportView
  }

  /** The view once the single-report hook's fetch has settled (its `FetchReport`): the
      report is shown exactly when the answer carried a report, and a failed fetch shows the
      not-found view; while a fetch is still loading only the loading view is shown. */
  lemma ViewAfterFetch(server: Settled, error: Value, report: Value)
    ensures ViewFor(true, error, report) == LoadingView
    ensures server.Fulfilled? ==>
              (ViewFor(false, Null, if Truthy(Unwrap(server.value)) then Unwrap(server.value) else Null) == ReportView
               <==> Truthy(Unwrap(server.value)))
    ensures server.Rejected? ==>
              ViewFor(false, HandleApiError(server.reason, FetchOneFailed), Null) == NotFoundView
  {
  }

  /** The total displayed: the report's own total when truthy, otherwise the sum of its
      lines' amounts, otherwise 0. */
  function DisplayedTotal(report: Value): Value {
    var total := Get(report, "totalAmount");
    var lines := Get(report, "expenseLines");
    if Truthy(total) then total
    else if Truthy(lines) then Num(LinesTotal(Items(lines)))
    else Num(0.0)
  }

  /** The total shown agrees with the lines: when the stored total is missing, zero, or
      already the sum of the lines' amounts, the screen shows that sum. */
  lemma DisplayedTotalIsLinesSum(total: Value, lines: seq<Value>)
    requires total in {Undefined, Null, Num(0.0), Num(LinesTotal(lines))}
    ensures DisplayedTotal(Obj(map["totalAmount" := total, "expenseLines" := Arr(lines)])) == Num(LinesTotal(lines))
  {
    var report := Obj(map["totalAmount" := total, "expenseLines" := Arr(lines)]);
    assert Get(report, "totalAmount") == total && Get(report, "expenseLines") == Arr(lines);
  }

  /** A zero or missing total falls back to the lines, so adding a line with an amount adds
      that amount to the total shown. */
  lemma DisplayedTotalFromLines(lines: seq<Value>, line: Value)
    ensures DisplayedTotal(Obj(map["totalAmount" := Num(0.0), "expenseLines" := Arr(lines)])) == Num(LinesTotal(lines))
    ensures Get(line, "reimbursementAmount").Num? ==>
              DisplayedTotal(Obj(map["expenseLines" := Arr(lines + [line])]))
              == Num(LinesTotal(lines) + Get(line, "reimbursementAmount").n)
  {
    var zero := Obj(map["totalAmount" := Num(0.0), "expenseLines" := Arr(lines)]);
    assert Get(zero, "totalAmount") == Num(0.0) && Get(zero, "expenseLines") == Arr(lines);
    assert DisplayedTotal(zero) == Num(LinesTotal(Items(Arr(lines))));
    var more := Obj(map["expenseLines" := Arr(lines + [line])]);
    assert Get(more, "totalAmount") == Undefined && Get(more, "expenseLines") == Arr(lines + [line]);
    assert DisplayedTotal(more) == Num(LinesTotal(lines + [line]));
    LinesTotalAppend(lines, line);
  }

  /** `v?.length || 0`: the length of an array or a string, otherwise 0. */
  function LengthOrZero(v: Value): (n: nat)
    ensures v.Arr? ==> n == |v.items|
    ensures !v.Arr? && !v.Str? ==> n == 0
  {
    if v.Arr? then |v.items| else if v.Str? then |v.s| else 0
  }

  /** The number of expense items shown. */
  function ItemCount(report: Value): nat {
    LengthOrZero(Get(report, "expenseLines"))
  }

  /** The number of documents shown. */
  function DocumentCount(report: Value): nat {
    LengthOrZero(Get(report, "documents"))
  }

  /** The counts are those of the lists, and 0 when a list is absent. */
  lemma CountsDefault(lines: seq<Value>, documents: seq<Value>)
    ensures ItemCount(Obj(map["expenseLines" := Arr(lines)])) == |lines|
    ensures DocumentCount(Obj(map["documents" := Arr(documents)])) == |documents|
    ensures ItemCount(Obj(map[])) == 0 && DocumentCount(Obj(map[])) == 0 && ItemCount(Null) == 0
  {
    assert Get(Obj(map["expenseLines" := Arr(lines)]), "expenseLines") == Arr(lines);
    assert Get(Obj(map["documents" := Arr(documents)]), "documents") == Arr(documents);
  }
}
