/** The report list screen: its case-insensitive search filter, the checkbox selection and
    its header box, the bulk actions over the selection, and the pager. */
module ExpenseReportListScreen {
  import opened Js
  import opened JsStrings
  import opened JsNumbers
  import opened Selection
  import opened Mirror
  import opened ExpenseReportsHook

  /** A report is shown when its id, purpose or status contains the query, ignoring case. */
  predicate ReportMatches(report: Value, query: string) {
    MatchesIgnoringCase(Get(report, "reportId"), query) || MatchesIgnoringCase(Get(report, "purpose"), query)
    || MatchesIgnoringCase(Get(report, "status"), query)
  }

  /** `filteredReports`: the reports that match, in their order. */
  function FilterReports(reports: seq<Value>, query: string): (r: seq<Value>)
    ensures |r| <= |reports|
    ensures forall x :: x in r <==> x in reports && ReportMatches(x, query)
  {
    if reports == [] then []
    else (if ReportMatches(reports[0], query) then [reports[0]] else []) + FilterReports(reports[1..], query)
  }

  /** The filter keeps order and repetitions: filtering a concatenation concatenates the
      filtered parts, and one report is kept alone exactly when it matches. */
  lemma {:induction false} FilterReportsConcat(a: seq<Value>, b: seq<Value>, query: string)
    ensures FilterReports(a + b, query) == FilterReports(a, query) + FilterReports(b, query)
  {
    if a != [] {
      assert (a + b)[0] == a[0] && (a + b)[1..] == a[1..] + b;
      FilterReportsConcat(a[1..], b, query);
    } else {
      assert a + b == b;
    }
  }

  lemma FilterReportsOne(report: Value, query: string)
    ensures FilterReports([report], query) == if ReportMatches(report, query) then [report] else []
  {
    assert [report][1..] == [];
  }

  /** The search ignores case on both sides: an upper-cased query finds the same reports,
      and a field matches itself in any spelling. */
  lemma SearchIgnoresCase(report: Value, query: string)
    ensures ReportMatches(report, Upper(query)) == ReportMatches(report, query)
    ensures MatchesIgnoringCase(Str(Upper(query)), query) && MatchesIgnoringCase(Str(Lower(query)), Upper(query))
  {
    LowerOfUpper(query);
    LowerIdempotent(query);
    assert StartsWith(Lower(query), Lower(query));
  }

  /** The empty query shows every report that has its id, purpose or status as text. */
  lemma EmptyQueryShowsAll(report: Value, field: string)
    requires field in {"reportId", "purpose", "status"} && Get(report, field).Str?
    ensures ReportMatches(report, "")
  {
    IncludesEmpty(Lower(Get(report, field).s));
    assert Lower("") == "";
  }

  /** Where a single-report bulk action goes. */
  datatype Route = EditRoute(id: Value) | ViewRoute(id: Value)

  datatype BulkKind = BulkDelete | BulkSubmit | BulkEdit | BulkView | BulkOther

  const SelectOneAlert := "Please select at least one report"
  const EditOneAlert := "Please select only one report to edit"
  const ViewOneAlert := "Please select only one report to view"
  const BulkSubmitAlert := "Bulk submit functionality coming soon"
  const DeletedSuffix := " report(s) deleted successfully"

  /** The alert of a failed bulk action: `Error: ` and the failure's message as a template
      literal writes it, or a default when the message is falsy. */
  function BulkErrorAlert(error: Value): (r: string)
    ensures Get(error, "message").Str? && Get(error, "message").s != "" ==> r == "Error: " + Get(error, "message").s
    ensures Truthy(Get(error, "message")) ==> r == "Error: " + Interpolate(Get(error, "message"))
    ensures !Truthy(Get(error, "message")) ==> r == "Error: An error occurred"
  {
    var m := Get(error, "message");
    "Error: " + (if Truthy(m) then Interpolate(m) else "An error occurred")
  }

  /** The selection of the list screen. */
  class ReportSelection {
    var selected: seq<Value>

    constructor ()
      ensures selected == []
    {
      selected := [];
    }

    /** `handleReportSelection(reportId)`. */
    method ToggleReport(reportId: Value)
      modifies this
      ensures selected == Toggle(old(selected), reportId)
    {
      selected := Toggle(selected, reportId);
    }

    /** `handleSelectAll()` over the reports the hook holds. */
    method SelectAllReports(reports: seq<Value>)
      modifies this
      ensures selected == SelectAll(old(selected), |reports|, TruthyOnly(Ids(reports, "reportId")))
      ensures |old(selected)| == |reports| ==> selected == []
      ensures |old(selected)| != |reports| ==> forall v :: v in selected <==> Truthy(v) && v in Ids(reports, "reportId")
    {
      selected := SelectAll(selected, |reports|, TruthyOnly(Ids(reports, "reportId")));
    }

    /** `handleBulkAction(action)` with `confirmed` the answer to the confirmation, `hook` the
        reports hook and `outcomes[i]` how the delete of the i-th selected report settles. An
        empty selection is refused; a confirmed delete goes to the hook and, when every delete
        succeeds, clears the selection and reports the count; a failure keeps the selection
        and alerts its message; edit and view need exactly one report. */
    method BulkAction(action: BulkKind, confirmed: bool, hook: ExpenseReports, outcomes: seq<Settled>)
      returns (alerts: seq<string>, route: Option<Route>)
      requires |outcomes| == |selected|
      modifies this, hook
      ensures old(selected) == [] ==> alerts == [SelectOneAlert] && route == None
      ensures !(old(selected) != [] && action == BulkDelete && confirmed) ==>
                (hook.reports == old(hook.reports) && hook.error == old(hook.error) && hook.loading == old(hook.loading))
      ensures old(selected) != [] && action == BulkDelete && confirmed ==>
                (hook.reports == (if FirstRejection(outcomes).None? then RemoveIds(old(hook.reports), "reportId", old(selected))
                                  else old(hook.reports)))
      ensures old(selected) != [] && action == BulkDelete && confirmed && FirstRejection(outcomes).None? ==>
                (selected == [] && alerts == [NatToString(|old(selected)|) + DeletedSuffix])
      ensures old(selected) != [] && action == BulkDelete && confirmed && FirstRejection(outcomes).Some? ==>
                alerts == [BulkErrorAlert(FirstRejection(outcomes).value)]
      ensures !(old(selected) != [] && action == BulkDelete && confirmed && FirstRejection(outcomes).None?) ==>
                selected == old(selected)
      ensures old(selected) != [] && action == BulkSubmit ==> alerts == (if confirmed then [BulkSubmitAlert] else [])
      ensures hook.pagination == old(hook.pagination)
      ensures route.Some? <==> |old(selected)| == 1 && (action == BulkEdit || action == BulkView)
      ensures route.Some? ==>
                route.value == (if action == BulkEdit then EditRoute(old(selected)[0]) else ViewRoute(old(selected)[0]))
      ensures old(selected) != [] && |old(selected)| != 1 && action == BulkEdit ==> alerts == [EditOneAlert]
      ensures old(selected) != [] && |old(selected)| != 1 && action == BulkView ==> alerts == [ViewOneAlert]
    {
      alerts := [];
      route := None;
      if selected == [] {
        alerts := [SelectOneAlert];
        return;
      }
      match action {
        case BulkDelete =>
          if confirmed {
            var result := hook.DeleteMultipleReports(selected, outcomes);
            if result.Fulfilled? {
              var count := |selected|;
              selected := [];
              alerts := [NatToString(count) + DeletedSuffix];
            } else {
              alerts := [BulkErrorAlert(result.reason)];
            }
          }
        case BulkSubmit =>
          if confirmed {
            alerts := [BulkSubmitAlert];
          }
        case BulkEdit =>
          if |selected| == 1 {
            route := Some(EditRoute(selected[0]));
          } else {
            alerts := [EditOneAlert];
          }
        case BulkView =>
          if |selected| == 1 {
            route := Some(ViewRoute(selected[0]));
          } else {
            alerts := [ViewOneAlert];
          }
        case BulkOther =>
      }
    }
  }

  /** After a successful bulk delete no report with a selected id remains, and every report
      whose id was not selected stays. */
  lemma BulkDeleteLeavesRest(reports: seq<Value>, selected: seq<Value>, r: Value)
    ensures r in RemoveIds(reports, "reportId", selected) ==> !Contains(selected, IdOf(r, "reportId"))
    ensures r in reports && !Contains(selected, IdOf(r, "reportId")) ==> r in RemoveIds(reports, "reportId", selected)
  {
    RemoveIdsSpec(reports, "reportId", selected);
  }

  /** The pager over `totalElements` reports in pages of `size`, on page `number`. */
  predicate PagerShown(totalPages: int) { totalPages > 1 }
  predicate PreviousDisabled(number: int) { number == 0 }
  predicate NextDisabled(number: int, totalPages: int) { number >= totalPages - 1 }

  /** "Showing X to Y": the first position on the page and the last one, capped at the total. */
  function PagerWindow(number: nat, size: nat, totalElements: nat): (r: (int, int))
    ensures r.0 == number * size + 1
    ensures r.1 <= totalElements && r.1 <= (number + 1) * size
    ensures r.1 == totalElements || r.1 == (number + 1) * size
  {
    (number * size + 1, if (number + 1) * size < totalElements then (number + 1) * size else totalElements)
  }

  /** The number of pages a total needs: the fewest pages of `size` that hold it. */
  function PageCount(size: nat, totalElements: nat): (r: nat)
    requires size > 0
    ensures r * size >= totalElements
    ensures r > 0 ==> (r - 1) * size < totalElements
  {
    (totalElements + size - 1) / size
  }

  /** On every page the server can send, the window is non-empty and at most a page long; a
      full page is followed by the next window without a gap; and the pager's buttons are
      disabled exactly at the ends. */
  lemma PagerWindowRules(number: nat, size: nat, totalElements: nat)
    requires size > 0 && number < PageCount(size, totalElements)
    ensures PagerWindow(number, size, totalElements).0 <= PagerWindow(number, size, totalElements).1
    ensures PagerWindow(number, size, totalElements).1 - PagerWindow(number, size, totalElements).0 < size
    ensures PagerWindow(number, size, totalElements).1 == (number + 1) * size ==>
              PagerWindow(number + 1, size, totalElements).0 == PagerWindow(number, size, totalElements).1 + 1
    ensures PreviousDisabled(number) <==> number == 0
    ensures NextDisabled(number, PageCount(size, totalElements)) <==> number == PageCount(size, totalElements) - 1
  {
    MulBelow(totalElements + size - 1, size, number);
  }

  /** `(q + 1) * d <= n` when `q < n / d`. */
  lemma MulBelow(n: nat, d: nat, q: nat)
    requires d > 0 && q < n / d
    ensures (q + 1) * d <= n
  {
    MulMono(q + 1, n / d, d);
    assert (n / d) * d <= n;
  }

  lemma MulMono(a: nat, b: nat, d: nat)
    requires a <= b
    ensures a * d <= b * d
  {
  }
}
