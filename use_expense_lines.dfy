/** The expense-lines hook: the local mirror of one report's lines, and the operations that
    validate a line, send it, and fold the server's answer into the mirror. */
module ExpenseLinesHook {
  import opened Js
  import opened JsStrings
  import opened JsNumbers
  import opened Api
  import opened Mirror

  const DateRequired := "Expense date is required"
  const TypeRequired := "Expense type is required"
  const DescriptionRequired := "Description is required"
  const AmountPositive := "Amount must be greater than zero"
  const CurrencyRequired := "Currency is required"
  const DescriptionNotEmpty := "Description cannot be empty"
  const AddFailed := "Failed to add expense line"
  const UpdateFailed := "Failed to update expense line"
  const DeleteFailed := "Failed to delete expense line"
  const FetchFailed := "Failed to fetch expense lines"
  const DeletedMessage := "Expense line deleted successfully"
  const MustSaveFirst := "Cannot add expense line: Report must be saved first"

  /** A text field the hook may call `trim` on: a string, or unset (then `trim` is not
      called); any other truthy value makes `trim` throw a TypeError. */
  predicate TextOrUnset(v: Value) {
    v.Str? || !Truthy(v)
  }

  /** `v ? v.trim() : otherwise` for a text field. */
  function TrimOr(v: Value, otherwise: Value): Value {
    if Truthy(v) && v.Str? then Str(Trim(v.s)) else otherwise
  }

  /** The checks `addExpenseLine` makes before any request, in their order. */
  predicate DateOk(d: Value) { Truthy(Get(d, "expenseDate")) }
  predicate TypeOk(d: Value) { Truthy(Get(d, "expenseTypeId")) }
  predicate DescriptionOk(d: Value) {
    var v := Get(d, "description");
    v.Str? && !AllSpace(v.s)
  }
  predicate AmountOk(d: Value) {
    var v := Get(d, "originalAmount");
    Truthy(v) && !AtMostZero(v)
  }
  predicate CurrencyOk(d: Value) { Truthy(Get(d, "originalCurrency")) }

  /** The validation of `addExpenseLine`: the first failed check in the order date, type,
      description, amount, currency, each with its fixed message (a description that is not a
      string throws a TypeError); the trimmed description when every check passes. */
  function AddLineCheck(d: Value): (r: Result<string>)
    ensures !Nullish(d) && !DateOk(d) ==> r == Err(ErrorObject(DateRequired))
    ensures !Nullish(d) && DateOk(d) && !TypeOk(d) ==> r == Err(ErrorObject(TypeRequired))
    ensures !Nullish(d) && DateOk(d) && TypeOk(d) && !Truthy(Get(d, "description")) ==>
              r == Err(ErrorObject(DescriptionRequired))
    ensures !Nullish(d) && DateOk(d) && TypeOk(d) && Get(d, "description").Str? && AllSpace(Get(d, "description").s) ==>
              r == Err(ErrorObject(DescriptionRequired))
    ensures !Nullish(d) && DateOk(d) && TypeOk(d) && DescriptionOk(d) && !AmountOk(d) ==>
              r == Err(ErrorObject(AmountPositive))
    ensures !Nullish(d) && DateOk(d) && TypeOk(d) && DescriptionOk(d) && AmountOk(d) && !CurrencyOk(d) ==>
              r == Err(ErrorObject(CurrencyRequired))
    ensures r.Ok? <==> !Nullish(d) && DateOk(d) && TypeOk(d) && DescriptionOk(d) && AmountOk(d) && CurrencyOk(d)
    ensures r.Ok? ==> r.value == Trim(Get(d, "description").s) && r.value != ""
    ensures r.Err? ==> r.error in {ErrorObject(DateRequired), ErrorObject(TypeRequired),
              ErrorObject(DescriptionRequired), ErrorObject(AmountPositive),
              ErrorObject(CurrencyRequired), TypeErrorValue}
  {
    var description := Get(d, "description");
    if Nullish(d) then Err(TypeErrorValue)
    else if !Truthy(Get(d, "expenseDate")) then Err(ErrorObject(DateRequired))
    else if !Truthy(Get(d, "expenseTypeId")) then Err(ErrorObject(TypeRequired))
    else if !Truthy(description) then Err(ErrorObject(DescriptionRequired))
    else if !description.Str? then Err(TypeErrorValue)
    else
      TrimEmptyIffBlank(description.s);
      if Trim(description.s) == "" then Err(ErrorObject(DescriptionRequired))
      else if !Truthy(Get(d, "originalAmount")) || AtMostZero(Get(d, "originalAmount")) then
        Err(ErrorObject(AmountPositive))
      else if !Truthy(Get(d, "originalCurrency")) then Err(ErrorObject(CurrencyRequired))
      else Ok(Trim(description.s))
  }

  const LineRequestKeys: set<string> := {"expenseDate", "expenseTypeId", "description", "originalAmount",
    "originalCurrency", "merchantVendor", "businessPurpose", "projectCode"}

  /** The request body of `addExpenseLine` for a line that passed the checks: the type id as
      an integer, the amount as a number, the description trimmed, the currency trimmed and
      upper-cased, the purpose falling back to the description, and absent merchant and
      project code sent as null; a text field that is not a string throws a TypeError. */
  function LineRequestBody(d: Value, description: string): (r: Result<Value>)
    ensures r.Ok? <==> (Get(d, "originalCurrency").Str? && TextOrUnset(Get(d, "merchantVendor"))
                        && TextOrUnset(Get(d, "businessPurpose")) && TextOrUnset(Get(d, "projectCode")))
    ensures r.Ok? ==> r.value.Obj?
    ensures r.Err? ==> r.error == TypeErrorValue
  {
    var currency := Get(d, "originalCurrency");
    if !(currency.Str? && TextOrUnset(Get(d, "merchantVendor"))
         && TextOrUnset(Get(d, "businessPurpose")) && TextOrUnset(Get(d, "projectCode"))) then
      Err(TypeErrorValue)
    else
      Ok(Obj(map[
        "expenseDate" := Get(d, "expenseDate"),
        "expenseTypeId" := ParseInt(Get(d, "expenseTypeId")),
        "description" := Str(description),
        "originalAmount" := ParseFloat(Get(d, "originalAmount")),
        "originalCurrency" := Str(Upper(Trim(currency.s))),
        "merchantVendor" := TrimOr(Get(d, "merchantVendor"), Null),
        "businessPurpose" := TrimOr(Get(d, "businessPurpose"), Str(description)),
        "projectCode" := TrimOr(Get(d, "projectCode"), Null)]))
  }

  /** What `addExpenseLine` sends, or what it throws before sending anything. */
  function AddLineRequest(d: Value): Result<Value> {
    var description :- AddLineCheck(d);
    LineRequestBody(d, description)
  }

  /** A text the hook sends after trimming: trimming it again changes nothing. */
  predicate TrimmedText(v: Value) {
    v.Str? && Trim(v.s) == v.s
  }

  /** The request `addExpenseLine` sends is normalised: it has exactly the eight line fields,
      a set date, a non-empty trimmed description, a currency code that trimming and
      upper-casing leave as it is, and optional texts that are trimmed or `null`. */
  lemma SentLineIsNormalised(d: Value)
    requires AddLineRequest(d).Ok?
    ensures AddLineRequest(d).value.Obj? && AddLineRequest(d).value.fields.Keys == LineRequestKeys
    ensures Truthy(Get(AddLineRequest(d).value, "expenseDate"))
    ensures TrimmedText(Get(AddLineRequest(d).value, "description")) && Get(AddLineRequest(d).value, "description") != Str("")
    ensures Get(AddLineRequest(d).value, "originalCurrency").Str?
            && Upper(Trim(Get(AddLineRequest(d).value, "originalCurrency").s)) == Get(AddLineRequest(d).value, "originalCurrency").s
    ensures forall k :: k in {"merchantVendor", "businessPurpose", "projectCode"} ==>
              Get(AddLineRequest(d).value, k) == Null || TrimmedText(Get(AddLineRequest(d).value, k))
  {
    var description := AddLineCheck(d).value;
    assert AddLineRequest(d) == LineRequestBody(d, description);
    TrimIdempotent(Get(d, "description").s);
    BodyCore(d, description);
    TrimTexts(d, description);
  }

  /** The key set, date, description and currency of the add request. */
  lemma BodyCore(d: Value, description: string)
    requires LineRequestBody(d, description).Ok? && DateOk(d) && description != "" && Trim(description) == description
    ensures LineRequestBody(d, description).value.fields.Keys == LineRequestKeys
    ensures Truthy(Get(LineRequestBody(d, description).value, "expenseDate"))
    ensures Get(LineRequestBody(d, description).value, "description") == Str(description)
    ensures Get(LineRequestBody(d, description).value, "originalCurrency").Str?
            && Upper(Trim(Get(LineRequestBody(d, description).value, "originalCurrency").s))
               == Get(LineRequestBody(d, description).value, "originalCurrency").s
  {
    BodyKeys(d, description);
    var m := LineRequestBody(d, description).value.fields;
    assert "expenseDate" in m;
    assert "description" in m;
    assert m["originalCurrency"] == Str(Upper(Trim(Get(d, "originalCurrency").s)));
    UpperTrimIdempotent(Get(d, "originalCurrency").s);
  }

  lemma BodyKeys(d: Value, description: string)
    requires LineRequestBody(d, description).Ok?
    ensures LineRequestBody(d, description).value.fields.Keys == LineRequestKeys
  {
    var m := LineRequestBody(d, description).value.fields;
    assert forall k :: k in m <==> k in LineRequestKeys;
  }

  /** The optional texts of the add request are trimmed or `null`. */
  lemma TrimTexts(d: Value, description: string)
    requires LineRequestBody(d, description).Ok? && Trim(description) == description
    ensures forall k :: k in {"merchantVendor", "businessPurpose", "projectCode"} ==>
              Get(LineRequestBody(d, description).value, k) == Null || TrimmedText(Get(LineRequestBody(d, description).value, k))
  {
    var m := LineRequestBody(d, description).value.fields;
    assert "merchantVendor" in m && "businessPurpose" in m && "projectCode" in m;
    forall k | k in {"merchantVendor", "businessPurpose", "projectCode"} && Truthy(Get(d, k)) && Get(d, k).Str?
      ensures Trim(Trim(Get(d, k).s)) == Trim(Get(d, k).s)
    {
      TrimIdempotent(Get(d, k).s);
    }
  }

  /** Whether `updateExpenseLine` validates at all: only when all five core fields are set. */
  predicate AllCoreFieldsSet(d: Value) {
    DateOk(d) && TypeOk(d) && Truthy(Get(d, "description")) && Truthy(Get(d, "originalAmount")) && CurrencyOk(d)
  }

  /** The validation of `updateExpenseLine`: nothing is checked unless all five core fields
      are set; then a blank description and an amount at most zero are refused. */
  function UpdateLineCheck(d: Value): (r: Result<()>)
    ensures !Nullish(d) && !AllCoreFieldsSet(d) ==> r.Ok?
    ensures !Nullish(d) && AllCoreFieldsSet(d) && Get(d, "description").Str? && AllSpace(Get(d, "description").s) ==>
              r == Err(ErrorObject(DescriptionNotEmpty))
    ensures !Nullish(d) && AllCoreFieldsSet(d) && DescriptionOk(d) ==>
              (r.Ok? <==> !AtMostZero(Get(d, "originalAmount")))
    ensures r.Err? && r.error != TypeErrorValue ==>
              r.error in {ErrorObject(DescriptionNotEmpty), ErrorObject(AmountPositive)}
  {
    var description := Get(d, "description");
    if Nullish(d) then Err(TypeErrorValue)
    else if !AllCoreFieldsSet(d) then Ok(())
    else if !description.Str? then Err(TypeErrorValue)
    else
      TrimEmptyIffBlank(description.s);
      if Trim(description.s) == "" then Err(ErrorObject(DescriptionNotEmpty))
      else if AtMostZero(Get(d, "originalAmount")) then Err(ErrorObject(AmountPositive))
      else Ok(())
  }

  /** `cond ? value : undefined` for the optional transforms of the update body. */
  function WhenTruthy(v: Value, value: Value): Value {
    if Truthy(v) then value else Undefined
  }

  /** The five text fields of a line, which the update trims when they are set. */
  predicate UpdateTextsOk(d: Value) {
    TextOrUnset(Get(d, "description")) && TextOrUnset(Get(d, "originalCurrency"))
    && TextOrUnset(Get(d, "merchantVendor")) && TextOrUnset(Get(d, "businessPurpose"))
    && TextOrUnset(Get(d, "projectCode"))
  }

  /** The fields of the update body: each transformed as on add when it is set and undefined
      otherwise (the date is copied as it is), the purpose falling back to the trimmed
      description. */
  function UpdateFields(d: Value): map<string, Value>
  {
    var description := TrimOr(Get(d, "description"), Undefined);
    var currency := TrimOr(Get(d, "originalCurrency"), Undefined);
    map[
      "expenseDate" := Get(d, "expenseDate"),
      "expenseTypeId" := WhenTruthy(Get(d, "expenseTypeId"), ParseInt(Get(d, "expenseTypeId"))),
      "description" := description,
      "originalAmount" := WhenTruthy(Get(d, "originalAmount"), ParseFloat(Get(d, "originalAmount"))),
      "originalCurrency" := if currency.Str? then Str(Upper(currency.s)) else Undefined,
      "merchantVendor" := TrimOr(Get(d, "merchantVendor"), Undefined),
      "businessPurpose" := TrimOr(Get(d, "businessPurpose"), description),
      "projectCode" := TrimOr(Get(d, "projectCode"), Undefined)]
  }

  /** The update body before pruning; a text field that is not a string throws a TypeError. */
  function UpdateLineBody(d: Value): (r: Result<map<string, Value>>)
    ensures r.Ok? <==> UpdateTextsOk(d)
    ensures r.Ok? ==> r.value == UpdateFields(d)
    ensures r.Err? ==> r.error == TypeErrorValue
  {
    if UpdateTextsOk(d) then Ok(UpdateFields(d)) else Err(TypeErrorValue)
  }

  /** The update body before pruning, or what `updateExpenseLine` throws before sending. */
  function UpdateLineDraft(d: Value): Result<map<string, Value>> {
    var _ :- UpdateLineCheck(d);
    UpdateLineBody(d)
  }
  /** A line that `addExpenseLine` accepts is also accepted by `updateExpenseLine`, and the
      update body carries the same values as the add request, except that an unset merchant
      or project code is `undefined` (and so pruned) where the add request sends `null`. */
  lemma UpdateBodyAgreesWithAdd(d: Value)
    requires AddLineRequest(d).Ok?
    ensures UpdateLineDraft(d).Ok?
    ensures UpdateLineDraft(d).value.Keys == AddLineRequest(d).value.fields.Keys
    ensures forall k :: k in LineRequestKeys - {"merchantVendor", "projectCode"} ==>
              UpdateLineDraft(d).value[k] == AddLineRequest(d).value.fields[k]
    ensures forall k :: k in {"merchantVendor", "projectCode"} ==>
              (AddLineRequest(d).value.fields[k] == Null <==> UpdateLineDraft(d).value[k] == Undefined)
              && (AddLineRequest(d).value.fields[k] != Null ==> UpdateLineDraft(d).value[k] == AddLineRequest(d).value.fields[k])
  {
    var description := AddLineCheck(d).value;
    var add := AddLineRequest(d).value.fields;
    var upd := UpdateFields(d);
    assert UpdateLineCheck(d).Ok?;
    assert UpdateLineDraft(d) == Ok(upd);
    assert forall k :: k in add <==> k in LineRequestKeys;
    assert forall k :: k in upd <==> k in LineRequestKeys;
    AgreeOnNumbers(d, description);
    AgreeOnTexts(d, description);
    AgreeOnOptionals(d, description);
  }

  lemma AgreeOnNumbers(d: Value, description: string)
    requires LineRequestBody(d, description).Ok? && DateOk(d) && TypeOk(d) && Truthy(Get(d, "originalAmount"))
    ensures forall k :: k in {"expenseDate", "expenseTypeId", "originalAmount"} ==>
              k in UpdateFields(d) && k in LineRequestBody(d, description).value.fields
              && UpdateFields(d)[k] == LineRequestBody(d, description).value.fields[k]
  {
    var add := LineRequestBody(d, description).value.fields;
    var upd := UpdateFields(d);
    assert "expenseDate" in add && "expenseDate" in upd && add["expenseDate"] == upd["expenseDate"];
    AgreeOnType(d, description);
    AgreeOnAmount(d, description);
  }

  lemma AgreeOnType(d: Value, description: string)
    requires LineRequestBody(d, description).Ok? && TypeOk(d)
    ensures "expenseTypeId" in UpdateFields(d) && "expenseTypeId" in LineRequestBody(d, description).value.fields
            && UpdateFields(d)["expenseTypeId"] == LineRequestBody(d, description).value.fields["expenseTypeId"]
  {
    assert UpdateFields(d)["expenseTypeId"] == ParseInt(Get(d, "expenseTypeId"));
    assert LineRequestBody(d, description).value.fields["expenseTypeId"] == ParseInt(Get(d, "expenseTypeId"));
  }

  lemma AgreeOnAmount(d: Value, description: string)
    requires LineRequestBody(d, description).Ok? && Truthy(Get(d, "originalAmount"))
    ensures "originalAmount" in UpdateFields(d) && "originalAmount" in LineRequestBody(d, description).value.fields
            && UpdateFields(d)["originalAmount"] == LineRequestBody(d, description).value.fields["originalAmount"]
  {
    assert UpdateFields(d)["originalAmount"] == ParseFloat(Get(d, "originalAmount"));
    assert LineRequestBody(d, description).value.fields["originalAmount"] == ParseFloat(Get(d, "originalAmount"));
  }

  lemma AgreeOnTexts(d: Value, description: string)
    requires LineRequestBody(d, description).Ok? && Truthy(Get(d, "description")) && Get(d, "description").Str?
    requires description == Trim(Get(d, "description").s) && CurrencyOk(d)
    ensures forall k :: k in {"description", "originalCurrency", "businessPurpose"} ==>
              k in UpdateFields(d) && k in LineRequestBody(d, description).value.fields
              && UpdateFields(d)[k] == LineRequestBody(d, description).value.fields[k]
  {
    var add := LineRequestBody(d, description).value.fields;
    var upd := UpdateFields(d);
    assert "description" in add && "originalCurrency" in add && "businessPurpose" in add;
    assert "description" in upd && "originalCurrency" in upd && "businessPurpose" in upd;
  }

  lemma AgreeOnOptionals(d: Value, description: string)
    requires LineRequestBody(d, description).Ok?
    ensures forall k :: k in {"merchantVendor", "projectCode"} ==>
              k in UpdateFields(d) && k in LineRequestBody(d, description).value.fields
              && (LineRequestBody(d, description).value.fields[k] == Null <==> UpdateFields(d)[k] == Undefined)
              && (LineRequestBody(d, description).value.fields[k] != Null ==>
                    UpdateFields(d)[k] == LineRequestBody(d, description).value.fields[k])
  {
    var add := LineRequestBody(d, description).value.fields;
    var upd := UpdateFields(d);
    assert "merchantVendor" in add && "projectCode" in add;
    assert "merchantVendor" in upd && "projectCode" in upd;
  }


  /** The `forEach`/`delete` pass over the update body: every key whose value is undefined is
      deleted, every other key is kept with its value. */
  method PruneUndefined(request: map<string, Value>) returns (pruned: map<string, Value>)
    ensures pruned.Keys == DefinedKeys(request)
    ensures forall k :: k in pruned ==> pruned[k] == request[k]
  {
    pruned := request;
    var keys := request.Keys;
    while keys != {}
      invariant keys <= request.Keys
      invariant pruned.Keys == (set k | k in request && (k in keys || request[k] != Undefined))
      invariant forall k :: k in pruned ==> pruned[k] == request[k]
      decreases |keys|
    {
      var k :| k in keys;
      if pruned[k] == Undefined {
        pruned := map j | j in pruned && j != k :: pruned[j];
      }
      keys := keys - {k};
    }
  }

  /** What a create answer appends to the mirror: its record, when there is one. */
  function NewLines(response: Value): seq<Value> {
    if Truthy(Unwrap(response)) then [Unwrap(response)] else []
  }

  /** The mirror after an update answer: its record merged into the lines with the id, or
      the mirror as it was when the answer carries no record. */
  function PatchedLines(lines: seq<Value>, lineId: Value, response: Value): seq<Value> {
    if Truthy(Unwrap(response)) then PatchWhere(lines, "lineId", lineId, Unwrap(response))
    else lines
  }

  /** The keys of a map whose values are not undefined. */
  function DefinedKeys(m: map<string, Value>): set<string> {
    set k | k in m && m[k] != Undefined
  }

  /** A report id that refers to a saved report: not falsy and not the `'new'` placeholder. */
  predicate SavedReportId(reportId: Value) {
    Truthy(reportId) && !StrictEquals(reportId, Str("new"))
  }

  /** The hook's state: the mirror of the current report's lines, the loading flag and the
      last error message (`null` when there is none). */
  class ExpenseLines {
    var expenseLines: seq<Value>
    var loading: bool
    var error: Value

    constructor ()
      ensures expenseLines == [] && !loading && error == Null
    {
      expenseLines := [];
      loading := false;
      error := Null;
    }

    /** `addExpenseLine(reportId, lineData)` answered by `server`: a body that fails the
        checks is never sent; on success the server's record, if any, is appended last; on
        any failure the mirror is unchanged, the error is recorded and the failure rethrown. */
    method AddExpenseLine(reportId: Value, lineData: Value, server: Settled) returns (sent: Option<Value>, result: Settled)
      modifies this
      ensures !loading
      ensures AddLineRequest(lineData).Err? ==>
                (sent == None && expenseLines == old(expenseLines)
                 && result == Rejected(AddLineRequest(lineData).error)
                 && error == HandleApiError(AddLineRequest(lineData).error, AddFailed))
      ensures AddLineRequest(lineData).Ok? ==> sent == Some(AddLineRequest(lineData).value) && result == server
      ensures AddLineRequest(lineData).Ok? && server.Rejected? ==>
                (expenseLines == old(expenseLines) && error == HandleApiError(server.reason, AddFailed))
      ensures AddLineRequest(lineData).Ok? && server.Fulfilled? ==>
                (error == Null && expenseLines == old(expenseLines) + NewLines(server.value))
    {
      loading := true;
      error := Null;
      var request := AddLineRequest(lineData);
      if request.Err? {
        sent := None;
        error := HandleApiError(request.error, AddFailed);
        result := Rejected(request.error);
      } else {
        sent := Some(request.value);
        match server {
          case Rejected(reason) =>
            error := HandleApiError(reason, AddFailed);
          case Fulfilled(response) =>
            var newLine := Unwrap(response);
            if Truthy(newLine) {
              expenseLines := expenseLines + [newLine];
            }
        }
        result := server;
      }
      loading := false;
    }

    /** `updateExpenseLine(lineId, lineData)` answered by `server`: the body sent carries no
        undefined key; on success the server's record is merged into every line whose id is
        `lineId`; on failure the mirror is unchanged and the failure rethrown. */
    method UpdateExpenseLine(lineId: Value, lineData: Value, server: Settled) returns (sent: Option<Value>, result: Settled)
      modifies this
      ensures !loading
      ensures UpdateLineDraft(lineData).Err? ==>
                (sent == None && expenseLines == old(expenseLines)
                 && result == Rejected(UpdateLineDraft(lineData).error)
                 && error == HandleApiError(UpdateLineDraft(lineData).error, UpdateFailed))
      ensures UpdateLineDraft(lineData).Ok? ==>
                (result == server && sent.Some? && sent.value.Obj?
                 && sent.value.fields.Keys == DefinedKeys(UpdateLineDraft(lineData).value)
                 && (forall k :: k in sent.value.fields ==> sent.value.fields[k] == UpdateLineDraft(lineData).value[k]))
      ensures UpdateLineDraft(lineData).Ok? && server.Rejected? ==>
                (expenseLines == old(expenseLines) && error == HandleApiError(server.reason, UpdateFailed))
      ensures UpdateLineDraft(lineData).Ok? && server.Fulfilled? ==>
                (error == Null && expenseLines == PatchedLines(old(expenseLines), lineId, server.value))
    {
      loading := true;
      error := Null;
      var draft := UpdateLineDraft(lineData);
      if draft.Err? {
        sent := None;
        error := HandleApiError(draft.error, UpdateFailed);
        result := Rejected(draft.error);
      } else {
        var body := PruneUndefined(draft.value);
        sent := Some(Obj(body));
        match server {
          case Rejected(reason) =>
            error := HandleApiError(reason, UpdateFailed);
          case Fulfilled(response) =>
            var updated := Unwrap(response);
            if Truthy(updated) {
              expenseLines := PatchWhere(expenseLines, "lineId", lineId, updated);
            }
        }
        result := server;
      }
      loading := false;
    }

    /** `deleteExpenseLine(lineId)` answered by `server`: on success exactly the lines whose
        id is `lineId` are removed and a fixed confirmation is returned. */
    method DeleteExpenseLine(lineId: Value, server: Settled) returns (result: Settled)
      modifies this
      ensures !loading
      ensures server.Rejected? ==>
                (expenseLines == old(expenseLines) && result == server
                 && error == HandleApiError(server.reason, DeleteFailed))
      ensures server.Fulfilled? ==>
                (error == Null && expenseLines == RemoveWhere(old(expenseLines), "lineId", lineId)
                 && result == Fulfilled(Obj(map["data" := Obj(map["message" := Str(DeletedMessage)])])))
    {
      loading := true;
      error := Null;
      if server.Rejected? {
        error := HandleApiError(server.reason, DeleteFailed);
        result := server;
      } else {
        expenseLines := RemoveWhere(expenseLines, "lineId", lineId);
        result := Fulfilled(Obj(map["data" := Obj(map["message" := Str(DeletedMessage)])]));
      }
      loading := false;
    }

    /** `fetchExpenseLinesByReport(reportId)` answered by `server`: an unsaved id clears the
        mirror without a request and leaves the flags; otherwise the mirror becomes the
        fetched lines, or empty on failure. */
    method FetchExpenseLinesByReport(reportId: Value, server: Settled) returns (requested: bool)
      modifies this
      ensures requested <==> SavedReportId(reportId)
      ensures !requested ==> expenseLines == [] && loading == old(loading) && error == old(error)
      ensures requested ==> !loading
      ensures requested && server.Fulfilled? ==> expenseLines == UnwrapList(server.value) && error == Null
      ensures requested && server.Rejected? ==> expenseLines == [] && error == HandleApiError(server.reason, FetchFailed)
    {
      if !SavedReportId(reportId) {
        expenseLines := [];
        return false;
      }
      requested := true;
      loading := true;
      error := Null;
      match server {
        case Fulfilled(response) =>
          expenseLines := UnwrapList(response);
        case Rejected(reason) =>
          error := HandleApiError(reason, FetchFailed);
          expenseLines := [];
      }
      loading := false;
    }

    /** `clearExpenseLines()`. */
    method ClearExpenseLines()
      modifies this
      ensures expenseLines == [] && error == Null && loading == old(loading)
    {
      expenseLines := [];
      error := Null;
    }

    /** The report-scoped hook's effect when its report id changes: fetch for a saved report,
        clear otherwise. */
    method OnReportIdChange(reportId: Value, server: Settled)
      modifies this
      ensures !SavedReportId(reportId) ==> expenseLines == [] && error == Null && loading == old(loading)
      ensures SavedReportId(reportId) && server.Fulfilled? ==> expenseLines == UnwrapList(server.value) && error == Null && !loading
      ensures SavedReportId(reportId) && server.Rejected? ==>
                (expenseLines == [] && !loading && error == HandleApiError(server.reason, FetchFailed))
    {
      if SavedReportId(reportId) {
        var _ := FetchExpenseLinesByReport(reportId, server);
      } else {
        ClearExpenseLines();
      }
    }

    /** The report-scoped `addLine(lineData)`: refused, with no state change and no request,
        while the report is unsaved; `addExpenseLine` for the report otherwise. */
    method AddLine(reportId: Value, lineData: Value, server: Settled) returns (sent: Option<Value>, result: Settled)
      modifies this
      ensures !SavedReportId(reportId) ==>
                (sent == None && result == Rejected(ErrorObject(MustSaveFirst))
                 && expenseLines == old(expenseLines) && loading == old(loading) && error == old(error))
      ensures SavedReportId(reportId) ==> !loading && (sent.Some? <==> AddLineRequest(lineData).Ok?)
      ensures SavedReportId(reportId) && AddLineRequest(lineData).Ok? && server.Fulfilled? ==>
                (error == Null && expenseLines == old(expenseLines) + NewLines(server.value))
      ensures SavedReportId(reportId) && !(AddLineRequest(lineData).Ok? && server.Fulfilled?) ==>
                (expenseLines == old(expenseLines) && result.Rejected?)
    {
      if !SavedReportId(reportId) {
        return None, Rejected(ErrorObject(MustSaveFirst));
      }
      sent, result := AddExpenseLine(reportId, lineData, server);
    }
  }

  /** Both answer shapes of a create add the server's line last, and a create whose answer
      carries no data adds nothing. */
  lemma NewLinesShapes(rec: Value, response: Value)
    requires Truthy(rec) && !Truthy(Get(rec, "success"))
    ensures NewLines(Enveloped(rec)) == [rec] && NewLines(Bare(rec)) == [rec]
    ensures !Truthy(Get(response, "data")) ==> NewLines(response) == []
  {
    UnwrapShapes(rec);
    UnwrapTruthy(response);
  }

  /** An update merges the server's line into the matching lines only: the mirror keeps its
      length and order, other lines are untouched, and a matching line keeps its own fields
      unless the server's line overrides them. */
  lemma UpdateTouchesOnlyTheLine(lines: seq<Value>, lineId: Value, updated: Value, i: nat)
    requires i < |lines|
    ensures |PatchWhere(lines, "lineId", lineId, updated)| == |lines|
    ensures !StrictEquals(IdOf(lines[i], "lineId"), lineId) ==>
              PatchWhere(lines, "lineId", lineId, updated)[i] == lines[i]
    ensures StrictEquals(IdOf(lines[i], "lineId"), lineId) ==>
              forall k :: k in Spread(lines[i]) && k !in Spread(updated) ==>
                Get(PatchWhere(lines, "lineId", lineId, updated)[i], k) == Spread(lines[i])[k]
    ensures StrictEquals(IdOf(lines[i], "lineId"), lineId) ==>
              forall k :: k in Spread(updated) ==>
                Get(PatchWhere(lines, "lineId", lineId, updated)[i], k) == Spread(updated)[k]
  {
    PatchWhereAt(lines, "lineId", lineId, updated, i);
  }

  /** A blank or missing description is rejected before the amount is looked at, and a
      padded description is sent trimmed. */
  lemma AddLineDescriptionRule(d: Value)
    requires !Nullish(d) && DateOk(d) && TypeOk(d)
    ensures Get(d, "description") == Str("   ") ==> AddLineRequest(d) == Err(ErrorObject(DescriptionRequired))
    ensures AddLineRequest(d).Ok? ==> Get(AddLineRequest(d).value, "description") != Str("")
  {
    if Get(d, "description") == Str("   ") {
      assert AllSpace("   ");
    }
    if AddLineRequest(d).Ok? {
      SentLineIsNormalised(d);
    }
  }
}
