/** The request builders of the expense service: which query parameters each listing call
    sends, the defaults of the approvals call, and the health check's fallback. */
module ExpenseService {
  import opened Js

  /** A GET request: the path and its query parameters. */
  datatype Request = GetRequest(path: string, params: map<string, Value>)

  /** `getExpenseReports(filters)`: employeeId, status, dateFrom and dateTo are sent when
      truthy; page and size whenever they are not undefined, so page 0 is sent. */
  method GetExpenseReportsParams(filters: Value) returns (params: map<string, Value>)
    ensures params.Keys <= {"employeeId", "status", "dateFrom", "dateTo", "page", "size"}
    ensures forall k :: k in {"employeeId", "status", "dateFrom", "dateTo"} ==>
              (k in params <==> Truthy(Get(filters, k)))
    ensures forall k :: k in {"page", "size"} ==> (k in params <==> Get(filters, k) != Undefined)
    ensures forall k :: k in params ==> params[k] == Get(filters, k)
  {
    params := map[];
    if Truthy(Get(filters, "employeeId")) { params := params["employeeId" := Get(filters, "employeeId")]; }
    if Truthy(Get(filters, "status")) { params := params["status" := Get(filters, "status")]; }
    if Truthy(Get(filters, "dateFrom")) { params := params["dateFrom" := Get(filters, "dateFrom")]; }
    if Truthy(Get(filters, "dateTo")) { params := params["dateTo" := Get(filters, "dateTo")]; }
    if Get(filters, "page") != Undefined { params := params["page" := Get(filters, "page")]; }
    if Get(filters, "size") != Undefined { params := params["size" := Get(filters, "size")]; }
  }

  /** `searchExpenseReports(request)`: the search term is always sent, page and size when
      they are not undefined. */
  method SearchParams(request: Value) returns (params: map<string, Value>)
    ensures "searchTerm" in params && params["searchTerm"] == Get(request, "searchTerm")
    ensures params.Keys <= {"searchTerm", "page", "size"}
    ensures forall k :: k in {"page", "size"} ==> (k in params <==> Get(request, k) != Undefined)
    ensures forall k :: k in params ==> params[k] == Get(request, k)
  {
    params := map["searchTerm" := Get(request, "searchTerm")];
    if Get(request, "page") != Undefined { params := params["page" := Get(request, "page")]; }
    if Get(request, "size") != Undefined { params := params["size" := Get(request, "size")]; }
  }

  /** `getExchangeRate(request)`: the two currencies of the request object and its date,
      or today's date when it has none; reading them from `null` or `undefined` throws. */
  function ExchangeRateRequest(request: Value, today: string): (r: Result<Request>)
    ensures r.Err? <==> Nullish(request)
    ensures r.Err? ==> r.error == TypeErrorValue
    ensures r.Ok? ==> r.value.path == "/configuration/exchange-rates"
    ensures r.Ok? ==> r.value.params.Keys == {"fromCurrency", "toCurrency", "date"}
    ensures r.Ok? ==> r.value.params["fromCurrency"] == Get(request, "fromCurrency")
    ensures r.Ok? ==> r.value.params["toCurrency"] == Get(request, "toCurrency")
    ensures r.Ok? ==> r.value.params["date"] == if Truthy(Get(request, "date")) then Get(request, "date") else Str(today)
  {
    if Nullish(request) then Err(TypeErrorValue)
    else
      Ok(GetRequest("/configuration/exchange-rates",
        map["fromCurrency" := Get(request, "fromCurrency"),
            "toCurrency" := Get(request, "toCurrency"),
            "date" := if Truthy(Get(request, "date")) then Get(request, "date") else Str(today)]))
  }

  /** `getPendingApprovals(approverId, page, size)`: an omitted (undefined) page is 0 and an
      omitted size is 10. */
  function PendingApprovalsRequest(approverId: Value, page: Value, size: Value): (r: Request)
    ensures r.path == "/approvals" && r.params.Keys == {"approverId", "page", "size"}
    ensures r.params["approverId"] == approverId
    ensures r.params["page"] == (if page == Undefined then Num(0.0) else page)
    ensures r.params["size"] == (if size == Undefined then Num(10.0) else size)
  {
    GetRequest("/approvals", map["approverId" := approverId,
                                 "page" := if page == Undefined then Num(0.0) else page,
                                 "size" := if size == Undefined then Num(10.0) else size])
  }

  const HealthRequest := GetRequest("/health", map[])
  const HealthFallbackRequest := GetRequest("/configuration/expense-types", map["size" := Num(1.0)])

  /** `healthCheck()` given the answers to the two requests it may make: `/health` first, and
      only when that fails the expense-types listing with size 1, whose outcome is then the
      result. */
  function HealthCheck(health: Settled, fallback: Settled): (r: (seq<Request>, Settled))
    ensures |r.0| >= 1 && r.0[0] == HealthRequest
    ensures health.Fulfilled? ==> r.0 == [HealthRequest] && r.1 == health
    ensures health.Rejected? ==> r.0 == [HealthRequest, HealthFallbackRequest] && r.1 == fallback
  {
    if health.Fulfilled? then ([HealthRequest], health)
    else ([HealthRequest, HealthFallbackRequest], fallback)
  }
}
