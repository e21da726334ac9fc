/** The expense-reports hooks: the mirror of the report listing with its pagination, the
    create/update/delete/submit operations that fold the server's answer into it, and the
    single-report hook. */
module ExpenseReportsHook {
  import opened Js
  import opened JsNumbers
  import opened Api
  import opened Mirror

  const FetchFailed := "Failed to fetch expense reports"
  const CreateFailed := "Failed to create expense report"
  const UpdateFailed := "Failed to update expense report"
  const DeleteFailed := "Failed to delete expense report"
  const DeleteManyFailed := "Failed to delete expense reports"
  const SubmitFailed := "Failed to submit expense report"
  const FetchOneFailed := "Failed to fetch expense report"
  const DeletedMessage := "Expense report deleted successfully"
  const DeletedManySuffix := " expense reports deleted successfully"

  const PaginationKeys: set<string> := {"totalElements", "totalPages", "number", "size"}
  const DefaultPageKeys: set<string> := PaginationKeys
    + {"first", "last", "hasNext", "hasPrevious", "numberOfElements"}

  /** The pagination the hook starts with. */
  const InitialPagination := Obj(map["totalElements" := Num(0.0), "totalPages" := Num(1.0),
                                     "number" := Num(0.0), "size" := Num(10.0)])

  /** The pagination taken for a listing of `count` reports that came without one: a single
      first-and-last page of size 10 holding all of them. */
  function DefaultPage(count: nat): (p: Value)
    ensures p.Obj? && p.fields.Keys == DefaultPageKeys
    ensures p.fields["totalElements"] == Num(count as real) && p.fields["numberOfElements"] == Num(count as real)
    ensures p.fields["totalPages"] == Num(1.0) && p.fields["number"] == Num(0.0) && p.fields["size"] == Num(10.0)
    ensures p.fields["first"] == Bool(true) && p.fields["last"] == Bool(true)
    ensures p.fields["hasNext"] == Bool(false) && p.fields["hasPrevious"] == Bool(false)
  {
    Obj(map["totalElements" := Num(count as real), "totalPages" := Num(1.0), "number" := Num(0.0),
            "size" := Num(10.0), "first" := Bool(true), "last" := Bool(true),
            "hasNext" := Bool(false), "hasPrevious" := Bool(false),
            "numberOfElements" := Num(count as real)])
  }

  /** A page object with a `content` array: its reports and its own `page`, or the default
      pagination for that many reports. */
  function PageOf(page: Value): (r: (seq<Value>, Value))
    requires Get(page, "content").Arr?
  {
    var content := Get(page, "content").items;
    (content, if Truthy(Get(page, "page")) then Get(page, "page") else DefaultPage(|content|))
  }

  /** The reports and pagination a successful listing answer gives: the page held by the
      envelope, or a page object sent bare; anything else is an empty listing. */
  function FetchOutcome(response: Value): (r: (seq<Value>, Value))
  {
    var data := Get(response, "data");
    if IsEnveloped(response) then
      var page := Get(data, "data");
      if Get(page, "content").Arr? then PageOf(page) else ([], DefaultPage(0))
    else if Get(data, "content").Arr? then PageOf(data)
    else ([], DefaultPage(0))
  }

  /** A page of reports without its own pagination gets the default one for that many
      reports; a truthy `page` is taken as it is. */
  lemma PageOfShapes(reports: seq<Value>, page: Value)
    ensures PageOf(Obj(map["content" := Arr(reports)])) == (reports, DefaultPage(|reports|))
    ensures Truthy(page) ==> PageOf(Obj(map["content" := Arr(reports), "page" := page])) == (reports, page)
  {
    var plain := Obj(map["content" := Arr(reports)]);
    var paged := Obj(map["content" := Arr(reports), "page" := page]);
    assert Get(plain, "content") == Arr(reports) && Get(plain, "page") == Undefined;
    assert Get(paged, "content") == Arr(reports) && Get(paged, "page") == page;
  }

  /** A page object inside the `{success, data}` envelope is read as that page. */
  lemma FetchOutcomeEnveloped(page: Value)
    requires Get(page, "content").Arr?
    ensures FetchOutcome(Enveloped(page)) == PageOf(page)
  {
    var data := Obj(map["success" := Bool(true), "data" := page]);
    assert Get(Enveloped(page), "data") == data;
    assert Get(data, "success") == Bool(true) && Get(data, "data") == page;
    assert page.Obj? && Truthy(page);
    assert IsEnveloped(Enveloped(page));
  }

  /** A page object sent bare is read as the same page, unless it looks like an envelope
      itself (a truthy `success` and `data`). */
  lemma FetchOutcomeBare(page: Value)
    requires Get(page, "content").Arr? && !Truthy(Get(page, "success"))
    ensures FetchOutcome(Bare(page)) == PageOf(page)
  {
    assert Get(Bare(page), "data") == page;
  }

  /** An answer without data, or whose data holds no array of reports, is the empty listing
      with zero elements. */
  lemma FetchOutcomeEmpty(response: Value)
    requires !IsEnveloped(response) && !Get(Get(response, "data"), "content").Arr?
    ensures FetchOutcome(response) == ([], DefaultPage(0))
  {
  }

  /** The value `createReport` and `updateReport` resolve with: for an envelope, the response
      with its `data` replaced by the payload; the response itself otherwise. */
  function Resolved(response: Value): (r: Value)
    ensures IsEnveloped(response) ==> Get(r, "data") == Unwrap(response)
    ensures IsEnveloped(response) ==>
              forall k :: k in Spread(response) && k != "data" ==> Get(r, k) == Get(response, k)
    ensures !IsEnveloped(response) ==> r == response
  {
    if IsEnveloped(response) then Merge(response, Obj(map["data" := Unwrap(response)])) else response
  }

  /** The confirmation `deleteMultipleReports` resolves with. */
  function DeletedManyResult(count: nat): Value {
    Obj(map["data" := Obj(map["message" := Str(NatToString(count) + DeletedManySuffix)])])
  }

  /** The listing hook's state: the mirror of the reports, their pagination, the loading
      flag, the last error message (`null` when there is none) and the filters the hook was
      created with. */
  class ExpenseReports {
    var reports: seq<Value>
    var pagination: Value
    var loading: bool
    var error: Value
    const params: Value

    constructor (hookParams: Value)
      ensures reports == [] && pagination == InitialPagination && !loading && error == Null
      ensures params == hookParams
    {
      reports := [];
      pagination := InitialPagination;
      loading := false;
      error := Null;
      params := hookParams;
    }

    /** `fetchReports(searchParams)` answered by `server`: the hook's filters overlaid with the
        call's are sent; an answer replaces reports and pagination; a failure empties the
        reports, records the error and keeps the pagination. */
    method FetchReports(searchParams: Value, server: Settled) returns (sent: Value)
      modifies this
      ensures sent == Merge(params, searchParams)
      ensures !loading
      ensures server.Fulfilled? ==>
                (reports, pagination) == FetchOutcome(server.value) && error == Null
      ensures server.Rejected? ==>
                (reports == [] && pagination == old(pagination)
                 && error == HandleApiError(server.reason, FetchFailed))
    {
      loading := true;
      error := Null;
      sent := Merge(params, searchParams);
      match server {
        case Fulfilled(response) =>
          var outcome := FetchOutcome(response);
          reports := outcome.0;
          pagination := outcome.1;
        case Rejected(reason) =>
          error := HandleApiError(reason, FetchFailed);
          reports := [];
      }
      loading := false;
    }

    /** `createReport(reportData)` answered by `server`: the server's report goes to the front
        of the mirror; a failure leaves the mirror, records the error and is rethrown. */
    method CreateReport(server: Settled) returns (result: Settled)
      modifies this
      ensures !loading
      ensures server.Fulfilled? ==>
                (error == Null && result == Fulfilled(Resolved(server.value))
                 && reports == (if Truthy(Unwrap(server.value)) then [Unwrap(server.value)] else [])
                               + old(reports))
      ensures server.Rejected? ==>
                (result == server && reports == old(reports)
                 && error == HandleApiError(server.reason, CreateFailed))
      ensures pagination == old(pagination)
    {
      loading := true;
      error := Null;
      match server {
        case Fulfilled(response) =>
          var created := Unwrap(response);
          if Truthy(created) {
            reports := [created] + reports;
          }
          result := Fulfilled(Resolved(response));
        case Rejected(reason) =>
          error := HandleApiError(reason, CreateFailed);
          result := server;
      }
      loading := false;
    }

    /** `updateReport(reportId, reportData)` answered by `server`: the server's report is
        merged into the reports whose id is `reportId`; a failure leaves the mirror. */
    method UpdateReport(reportId: Value, server: Settled) returns (result: Settled)
      modifies this
      ensures !loading
      ensures server.Fulfilled? ==>
                (error == Null && result == Fulfilled(Resolved(server.value))
                 && reports == (if Truthy(Unwrap(server.value))
                                then PatchWhere(old(reports), "reportId", reportId, Unwrap(server.value))
                                else old(reports)))
      ensures server.Rejected? ==>
                (result == server && reports == old(reports)
                 && error == HandleApiError(server.reason, UpdateFailed))
      ensures pagination == old(pagination)
    {
      loading := true;
      error := Null;
      match server {
        case Fulfilled(response) =>
          var updated := Unwrap(response);
          if Truthy(updated) {
            reports := PatchWhere(reports, "reportId", reportId, updated);
          }
          result := Fulfilled(Resolved(response));
        case Rejected(reason) =>
          error := HandleApiError(reason, UpdateFailed);
          result := server;
      }
      loading := false;
    }

    /** `deleteReport(reportId)` answered by `server`: exactly the reports with that id go. */
    method DeleteReport(reportId: Value, server: Settled) returns (result: Settled)
      modifies this
      ensures !loading
      ensures server.Fulfilled? ==>
                (error == Null && reports == RemoveWhere(old(reports), "reportId", reportId)
                 && result == Fulfilled(Obj(map["data" := Obj(map["message" := Str(DeletedMessage)])])))
      ensures server.Rejected? ==>
                (result == server && reports == old(reports)
                 && error == HandleApiError(server.reason, DeleteFailed))
      ensures pagination == old(pagination)
    {
      loading := true;
      error := Null;
      if server.Rejected? {
        error := HandleApiError(server.reason, DeleteFailed);
        result := server;
      } else {
        reports := RemoveWhere(reports, "reportId", reportId);
        result := Fulfilled(Obj(map["data" := Obj(map["message" := Str(DeletedMessage)])]));
      }
      loading := false;
    }

    /** `deleteMultipleReports(reportIds)` where the delete of `reportIds[i]` settles as
        `outcomes[i]`: every delete is sent; only when all succeed are the listed reports
        removed; otherwise the mirror is untouched and the first failure is rethrown. */
    method DeleteMultipleReports(reportIds: seq<Value>, outcomes: seq<Settled>) returns (result: Settled)
      requires |outcomes| == |reportIds|
      modifies this
      ensures !loading
      ensures FirstRejection(outcomes).None? ==>
                (error == Null && reports == RemoveIds(old(reports), "reportId", reportIds)
                 && result == Fulfilled(DeletedManyResult(|reportIds|)))
      ensures FirstRejection(outcomes).Some? ==>
                (reports == old(reports) && result == Rejected(FirstRejection(outcomes).value)
                 && error == HandleApiError(FirstRejection(outcomes).value, DeleteManyFailed))
      ensures pagination == old(pagination)
    {
      loading := true;
      error := Null;
      var failure := FirstRejection(outcomes);
      if failure.Some? {
        error := HandleApiError(failure.value, DeleteManyFailed);
        result := Rejected(failure.value);
      } else {
        reports := RemoveIds(reports, "reportId", reportIds);
        result := Fulfilled(DeletedManyResult(|reportIds|));
      }
      loading := false;
    }

    /** `submitReport(reportId)` answered by `server`: the answer's `data`, as it comes, is
        merged into the reports with that id. */
    method SubmitReport(reportId: Value, server: Settled) returns (result: Settled)
      modifies this
      ensures !loading && result == server
      ensures server.Fulfilled? ==>
                (error == Null
                 && reports == (if Truthy(Get(server.value, "data"))
                                then PatchWhere(old(reports), "reportId", reportId, Get(server.value, "data"))
                                else old(reports)))
      ensures server.Rejected? ==>
                (reports == old(reports) && error == HandleApiError(server.reason, SubmitFailed))
      ensures pagination == old(pagination)
    {
      loading := true;
      error := Null;
      match server {
        case Fulfilled(response) =>
          var data := Get(response, "data");
          if Truthy(data) {
            reports := PatchWhere(reports, "reportId", reportId, data);
          }
        case Rejected(reason) =>
          error := HandleApiError(reason, SubmitFailed);
      }
      result := server;
      loading := false;
    }
  }

  /** A bulk delete that succeeds leaves the same mirror as deleting the reports one by one,
      and a report that was not listed for deletion stays. */
  lemma BulkDeleteIsStepwise(reports: seq<Value>, id: Value, rest: seq<Value>, r: Value)
    requires id != NaN
    ensures RemoveIds(reports, "reportId", [id] + rest)
            == RemoveIds(RemoveWhere(reports, "reportId", id), "reportId", rest)
    ensures r in reports && !Contains([id] + rest, IdOf(r, "reportId")) ==>
              r in RemoveIds(reports, "reportId", [id] + rest)
  {
    RemoveIdsStepwise(reports, "reportId", id, rest);
    RemoveIdsSpec(reports, "reportId", [id] + rest);
  }

  /** Creating a report and deleting it again restores the mirror, the new report having
      gone to the front. */
  lemma CreateThenDelete(reports: seq<Value>, created: Value)
    requires StrictEquals(IdOf(created, "reportId"), IdOf(created, "reportId"))
    requires CountWhere(reports, "reportId", IdOf(created, "reportId")) == 0
    ensures RemoveWhere([created] + reports, "reportId", IdOf(created, "reportId")) == reports
    ensures ([created] + reports)[0] == created
  {
    AddThenRemove(reports, "reportId", created);
  }

  /** The single-report hook's state. */
  class ExpenseReport {
    var report: Value
    var loading: bool
    var error: Value

    constructor ()
      ensures report == Null && !loading && error == Null
    {
      report := Null;
      loading := false;
      error := Null;
    }

    /** `fetchReport()` for `reportId` answered by `server`: no request and no change for a
        falsy id; otherwise the envelope's report, else the raw `data`, else `null`, and
        `null` with the error recorded on failure. */
    method FetchReport(reportId: Value, server: Settled) returns (requested: bool)
      modifies this
      ensures requested <==> Truthy(reportId)
      ensures !requested ==> report == old(report) && loading == old(loading) && error == old(error)
      ensures requested ==> !loading
      ensures requested && server.Fulfilled? ==>
                (error == Null
                 && report == (if Truthy(Unwrap(server.value)) then Unwrap(server.value) else Null))
      ensures requested && server.Rejected? ==>
                (report == Null && error == HandleApiError(server.reason, FetchOneFailed))
    {
      if !Truthy(reportId) {
        return false;
      }
      requested := true;
      loading := true;
      error := Null;
      match server {
        case Fulfilled(response) =>
          var fetched := Unwrap(response);
          report := if Truthy(fetched) then fetched else Null;
        case Rejected(reason) =>
          error := HandleApiError(reason, FetchOneFailed);
          report := Null;
      }
      loading := false;
    }
  }
}
