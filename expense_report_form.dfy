/** The report form: the running total of its lines, when it may be submitted, the
    create-then-update save sequence, the submit-for-approval and add-line guards, and the
    way it turns a failure into the message it shows. */
module ExpenseReportFormScreen {
  import opened Js
  import opened JsStrings
  import opened ExpenseLinesHook
  import opened Seqs

  /** What a line adds to a total: its reimbursement amount, a missing one counting 0. */
  function LineAmount(line: Value): real {
    var v := Get(line, "reimbursementAmount");
    if v.Num? then v.n else 0.0
  }

  /** `calculateTotal()`: the lines' amounts summed left to right from 0. */
  function LinesTotal(lines: seq<Value>): real {
    if lines == [] then 0.0 else LinesTotal(lines[..|lines| - 1]) + LineAmount(lines[|lines| - 1])
  }

  /** The total of two runs of lines is the sum of their totals, so the order in which lines
      are added does not matter for the total of a split. */
  lemma {:induction false} LinesTotalConcat(a: seq<Value>, b: seq<Value>)
    ensures LinesTotal(a + b) == LinesTotal(a) + LinesTotal(b)
    decreases |b|
  {
    if b == [] {
      assert a + b == a;
    } else {
      var c := b[..|b| - 1];
      assert (a + b)[..|a + b| - 1] == a + c;
      assert (a + b)[|a + b| - 1] == b[|b| - 1];
      LinesTotalConcat(a, c);
    }
  }

  /** No lines total 0; a line with an amount adds it and a line without one adds nothing. */
  lemma LinesTotalAppend(lines: seq<Value>, line: Value)
    ensures LinesTotal([]) == 0.0
    ensures Get(line, "reimbursementAmount").Num? ==>
              LinesTotal(lines + [line]) == LinesTotal(lines) + Get(line, "reimbursementAmount").n
    ensures !Get(line, "reimbursementAmount").Num? ==> LinesTotal(lines + [line]) == LinesTotal(lines)
  {
    assert (lines + [line])[..|lines|] == lines;
  }

  /** Deleting the line at `i` lowers the total by that line's amount. */
  lemma LinesTotalRemove(lines: seq<Value>, i: nat)
    requires i < |lines|
    ensures LinesTotal(lines[..i] + lines[i + 1..]) == LinesTotal(lines) - LineAmount(lines[i])
  {
    var front, back := lines[..i], lines[i + 1..];
    SplitAt(lines, i);
    calc {
      LinesTotal(lines);
      { LinesTotalConcat(front, [lines[i]] + back); }
      LinesTotal(front) + LinesTotal([lines[i]] + back);
      { LinesTotalConcat([lines[i]], back); LinesTotalOne(lines[i]); }
      LinesTotal(front) + LineAmount(lines[i]) + LinesTotal(back);
      { LinesTotalConcat(front, back); }
      LinesTotal(front + back) + LineAmount(lines[i]);
    }
  }

  /** A single line totals its own amount. */
  lemma LinesTotalOne(line: Value)
    ensures LinesTotal([line]) == LineAmount(line)
  {
    assert [line][..0] == [];
  }

  /** `canSubmitReport()`: the report is saved and has a line. */
  predicate CanSubmitReport(isSaved: bool, lines: seq<Value>) {
    isSaved && |lines| > 0
  }

  const DefaultEmployee := "EMP001"
  const DefaultTitle := "Expense Report"
  const CreatedAlert := "Expense report created successfully"
  const UpdatedAlert := "Expense report updated successfully!"
  const SaveFailedAlert := "Failed to save expense report. Please try again."
  const NoLinesAlert := "Please add at least one expense line before submitting for approval."
  const SaveFirstAlert := "Please save the report first before submitting for approval"
  const SubmittedAlert := "Report submitted for approval successfully"
  const DraftOnlyAlert := "Report must be in draft status to submit for approval."
  const SubmitFailedAlert := "Failed to submit report for approval. Please try again."
  const SubmitFailedPrefix := "Failed to submit report for approval: "
  const AddLineFirstAlert := "Please save the expense report first before adding expense items."
  const ReportsPath := "/expense-reports"

  /** The title sent: the form's title, else its purpose, else the fixed default. */
  function ReportTitle(data: Value): (r: Value)
    ensures Truthy(Get(data, "reportTitle")) ==> r == Get(data, "reportTitle")
    ensures !Truthy(Get(data, "reportTitle")) && Truthy(Get(data, "purpose")) ==> r == Get(data, "purpose")
    ensures !Truthy(Get(data, "reportTitle")) && !Truthy(Get(data, "purpose")) ==> r == Str(DefaultTitle)
    ensures Truthy(r)
  {
    if Truthy(Get(data, "reportTitle")) then Get(data, "reportTitle")
    else if Truthy(Get(data, "purpose")) then Get(data, "purpose")
    else Str(DefaultTitle)
  }

  /** The fields a save sends in both modes: the title with its fallbacks, the purpose and
      dates as entered, and the template id or `null`. */
  function UpdateBody(data: Value): (r: map<string, Value>)
    ensures r.Keys == {"reportTitle", "purpose", "dateFrom", "dateTo", "templateId"}
    ensures r["reportTitle"] == ReportTitle(data) && r["purpose"] == Get(data, "purpose")
    ensures r["dateFrom"] == Get(data, "dateFrom") && r["dateTo"] == Get(data, "dateTo")
    ensures r["templateId"] == (if Truthy(Get(data, "templateId")) then Get(data, "templateId") else Null)
  {
    map["reportTitle" := ReportTitle(data), "purpose" := Get(data, "purpose"),
        "dateFrom" := Get(data, "dateFrom"), "dateTo" := Get(data, "dateTo"),
        "templateId" := if Truthy(Get(data, "templateId")) then Get(data, "templateId") else Null]
  }

  /** The create request: the update fields and the fixed employee id. */
  function CreateBody(data: Value): (r: Value)
    ensures r.Obj? && r.fields.Keys == UpdateBody(data).Keys + {"employeeId"}
    ensures r.fields["employeeId"] == Str(DefaultEmployee)
    ensures forall k :: k in UpdateBody(data) ==> r.fields[k] == UpdateBody(data)[k]
  {
    Obj(UpdateBody(data)["employeeId" := Str(DefaultEmployee)])
  }

  /** The save request a submit makes. */
  datatype SaveCall = CreateCall(body: Value) | UpdateCall(id: Value, body: Value)

  datatype Mode = CreateMode | EditMode

  /** The message the line and delete handlers show for a failure: the server's `message`,
      else its `error`, when the failure carries a response with data; otherwise the
      failure's own message; otherwise the default. */
  function FailureMessage(error: Value, defaultMessage: string): (r: Value)
    ensures Truthy(Get(Get(error, "response"), "data")) && Truthy(Get(Get(Get(error, "response"), "data"), "message")) ==>
              r == Get(Get(Get(error, "response"), "data"), "message")
    ensures Truthy(Get(Get(error, "response"), "data")) && !Truthy(Get(Get(Get(error, "response"), "data"), "message")) ==>
              r == (if Truthy(Get(Get(Get(error, "response"), "data"), "error"))
                    then Get(Get(Get(error, "response"), "data"), "error") else Str(defaultMessage))
    ensures !Truthy(Get(Get(error, "response"), "data")) && Truthy(Get(error, "message")) ==>
              r == Get(error, "message")
    ensures !Truthy(Get(Get(error, "response"), "data")) && !Truthy(Get(error, "message")) ==>
              r == Str(defaultMessage)
    ensures Truthy(r) || defaultMessage == ""
  {
    var data := Get(Get(error, "response"), "data");
    if Truthy(Get(error, "response")) && Truthy(data) then
      if Truthy(Get(data, "message")) then Get(data, "message")
      else if Truthy(Get(data, "error")) then Get(data, "error")
      else Str(defaultMessage)
    else if Truthy(Get(error, "message")) then Get(error, "message")
    else Str(defaultMessage)
  }

  /** The alert of a failed submit for approval, reading the server's message where the
      handler looks for it, `error.response.data.message`. */
  function SubmitFailureAlertAsWritten(error: Value): string {
    SubmitAlertFor(Get(Get(Get(error, "response"), "data"), "message"))
  }

  /** The alert for a server message found (or not) by the handler. */
  function SubmitAlertFor(message: Value): (r: string)
    ensures !Truthy(message) ==> r == SubmitFailedAlert
    ensures message.Str? && Includes(message.s, "expense lines") ==> r == NoLinesAlert
    ensures message.Str? && !Includes(message.s, "expense lines") && Includes(message.s, "DRAFT status") ==>
              r == DraftOnlyAlert
    ensures message.Str? && message.s != "" && !Includes(message.s, "expense lines") && !Includes(message.s, "DRAFT status") ==>
              r == SubmitFailedPrefix + message.s
    ensures Truthy(message) && !message.Str? ==> r == SubmitFailedAlert
  {
    if Truthy(message) && message.Str? then
      if Includes(message.s, "expense lines") then NoLinesAlert
      else if Includes(message.s, "DRAFT status") then DraftOnlyAlert
      else SubmitFailedPrefix + message.s
    else SubmitFailedAlert
  }

  /** The same alert reading the message where the client's interceptor puts it: the
      rejected value's own `message` (the one from the server when it sent one). */
  function SubmitFailureAlert(error: Value): (r: string)
    ensures !Truthy(Get(error, "message")) ==> r == SubmitFailedAlert
    ensures Get(error, "message").Str? && Includes(Get(error, "message").s, "expense lines") ==> r == NoLinesAlert
    ensures (Get(error, "message").Str? && !Includes(Get(error, "message").s, "expense lines")
             && Includes(Get(error, "message").s, "DRAFT status")) ==> r == DraftOnlyAlert
  {
    SubmitAlertFor(Get(error, "message"))
  }

  /** The rejection the hook rethrows has no `response`, so as written every failed submit
      shows the generic alert: a server refusal naming missing expense lines is not reported
      as such, while reading the rejection's own message reports it. */
  lemma SubmitFailureLosesServerMessage()
    ensures var refusal := Api.NormalizeError(Api.HttpError(400,
              Obj(map["message" := Str("Report has no expense lines")]), Str("Request failed with status code 400")));
            SubmitFailureAlertAsWritten(refusal) == SubmitFailedAlert
            && SubmitFailureAlert(refusal) == NoLinesAlert
  {
    var data := Obj(map["message" := Str("Report has no expense lines")]);
    var refusal := Api.NormalizeError(Api.HttpError(400, data, Str("Request failed with status code 400")));
    assert Get(data, "message") == Str("Report has no expense lines");
    assert Get(refusal, "response") == Undefined;
    assert Get(refusal, "message") == Str("Report has no expense lines");
    var before, lines := "Report has no ", "expense lines";
    assert "Report has no expense lines" == before + lines;
    SliceOfConcat(before, lines);
    assert OccursAt("Report has no expense lines", "expense lines", |before|);
    IncludesIffOccurs("Report has no expense lines", "expense lines");
  }

  /** For a rejection of the client's interceptor the line handlers show what `handleApiError`
      would: the server's message, the network message or the transport's message. */
  lemma FailureMessageOfNormalized(e: Api.TransportError, defaultMessage: string)
    ensures FailureMessage(Api.NormalizeError(e), defaultMessage) == Api.HandleApiError(Api.NormalizeError(e), defaultMessage)
  {
    var r := Api.NormalizeError(e);
    assert Get(r, "response") == Undefined;
  }

  /** A saved report's id that lines may be added to: set and not the `'new'` placeholder. */
  predicate LinesAllowed(id: Value) {
    Truthy(id) && !StrictEquals(id, Str("new"))
  }

  /** The form's state: its mode and route id, whether the report is saved and under which
      id, the report it shows, the lines mirror it clears, the submitting flag and the line
      modal. */
  class ReportForm {
    const mode: Mode
    const reportId: Value
    var isSaved: bool
    var savedReportId: Value
    var report: Value
    var lines: seq<Value>
    var isSubmitting: bool
    var showLineModal: bool
    var selectedLine: Value

    constructor (m: Mode, routeId: Value)
      ensures mode == m && reportId == routeId
      ensures isSaved == (m == EditMode) && savedReportId == routeId
      ensures report == Null && lines == [] && !isSubmitting && !showLineModal && selectedLine == Null
    {
      mode := m;
      reportId := routeId;
      isSaved := m == EditMode;
      savedReportId := routeId;
      report := Null;
      lines := [];
      isSubmitting := false;
      showLineModal := false;
      selectedLine := Null;
    }

    /** `savedReportId || reportId`. */
    function Target(): Value
      reads this
    {
      if Truthy(savedReportId) then savedReportId else reportId
    }

    /** `onSubmit(data)`, where `answer` is how the hook's create or update settled and
        `goBack` the answer to the "back to the list" question: the first save of a new
        report creates it, remembers its id and report and clears the lines; every other
        save updates the target id; any failure only shows the failure alert. */
    method OnSubmit(data: Value, answer: Settled, goBack: bool)
      returns (call: SaveCall, alerts: seq<string>, navigate: Option<string>)
      modifies this
      ensures !isSubmitting && showLineModal == old(showLineModal) && selectedLine == old(selectedLine)
      ensures old(mode == CreateMode && !isSaved) ==> call == CreateCall(CreateBody(data))
      ensures !old(mode == CreateMode && !isSaved) ==> call == UpdateCall(old(Target()), Obj(UpdateBody(data)))
      ensures answer.Rejected? ==>
                (alerts == [SaveFailedAlert] && navigate == None && isSaved == old(isSaved)
                 && savedReportId == old(savedReportId) && report == old(report) && lines == old(lines))
      ensures answer.Fulfilled? ==> isSaved
      ensures answer.Fulfilled? && call.CreateCall? && !Nullish(Get(answer.value, "data")) ==>
                (alerts == [CreatedAlert] && navigate == None
                 && savedReportId == Get(Get(answer.value, "data"), "reportId")
                 && report == Get(answer.value, "data") && lines == [])
      ensures answer.Fulfilled? && call.CreateCall? && Nullish(Get(answer.value, "data")) ==>
                (alerts == [CreatedAlert, SaveFailedAlert] && navigate == None
                 && savedReportId == old(savedReportId) && report == old(report) && lines == old(lines))
      ensures answer.Fulfilled? && call.UpdateCall? ==>
                (alerts == [UpdatedAlert] && navigate == (if goBack then Some(ReportsPath) else None)
                 && savedReportId == old(savedReportId) && report == old(report) && lines == old(lines))
    {
      isSubmitting := true;
      navigate := None;
      if mode == CreateMode && !isSaved {
        call := CreateCall(CreateBody(data));
        if answer.Rejected? {
          alerts := [SaveFailedAlert];
        } else {
          alerts := [CreatedAlert];
          isSaved := true;
          var created := Get(answer.value, "data");
          if Nullish(created) {
            alerts := alerts + [SaveFailedAlert];
          } else {
            savedReportId := Get(created, "reportId");
            report := created;
            lines := [];
          }
        }
      } else {
        call := UpdateCall(Target(), Obj(UpdateBody(data)));
        if answer.Rejected? {
          alerts := [SaveFailedAlert];
        } else {
          alerts := [UpdatedAlert];
          isSaved := true;
          if goBack {
            navigate := Some(ReportsPath);
          }
        }
      }
      isSubmitting := false;
    }

    /** `handleSubmitForApproval()`: the save runs first (skipped when the required purpose is
        empty), then the lines and the target id as they were when the handler started decide:
        no lines or no id refuse with an alert and never call `submitReport`; otherwise the
        report is submitted and the outcome alerted. */
    method SubmitForApproval(data: Value, saveAnswer: Settled, goBack: bool, submitAnswer: Settled)
      returns (save: Option<SaveCall>, submitted: Option<Value>, alerts: seq<string>, navigate: Option<string>)
      modifies this
      ensures save.Some? <==> Truthy(Get(data, "purpose"))
      ensures submitted.Some? <==> |old(lines)| > 0 && Truthy(old(Target()))
      ensures submitted.Some? ==> submitted.value == old(Target())
      ensures |alerts| >= 1
      ensures |old(lines)| == 0 ==> alerts[|alerts| - 1] == NoLinesAlert
      ensures |old(lines)| > 0 && !Truthy(old(Target())) ==> alerts[|alerts| - 1] == SaveFirstAlert
      ensures submitted.Some? && submitAnswer.Fulfilled? ==>
                alerts[|alerts| - 1] == SubmittedAlert && navigate == Some(ReportsPath)
      ensures submitted.Some? && submitAnswer.Rejected? ==>
                alerts[|alerts| - 1] == SubmitFailureAlert(submitAnswer.reason)
    {
      var linesBefore := lines;
      var targetBefore := Target();
      alerts := [];
      navigate := None;
      save := None;
      submitted := None;
      if Truthy(Get(data, "purpose")) {
        var call, saveAlerts, back := OnSubmit(data, saveAnswer, goBack);
        save := Some(call);
        alerts := saveAlerts;
        navigate := back;
      }
      if |linesBefore| == 0 {
        alerts := alerts + [NoLinesAlert];
      } else if !Truthy(targetBefore) {
        alerts := alerts + [SaveFirstAlert];
      } else {
        submitted := Some(targetBefore);
        if submitAnswer.Fulfilled? {
          alerts := alerts + [SubmittedAlert];
          navigate := Some(ReportsPath);
        } else {
          alerts := alerts + [SubmitFailureAlert(submitAnswer.reason)];
        }
      }
    }

    /** `handleAddExpenseLine()`: refused with an alert while the report has no saved id;
        otherwise the modal opens for a new line. */
    method HandleAddExpenseLine() returns (alert: Option<string>)
      modifies this
      ensures !LinesAllowed(old(Target())) ==>
                (alert == Some(AddLineFirstAlert) && showLineModal == old(showLineModal)
                 && selectedLine == old(selectedLine))
      ensures LinesAllowed(old(Target())) ==> alert == None && showLineModal && selectedLine == Null
      ensures isSaved == old(isSaved) && savedReportId == old(savedReportId) && lines == old(lines)
      ensures report == old(report) && isSubmitting == old(isSubmitting)
    {
      if !LinesAllowed(Target()) {
        return Some(AddLineFirstAlert);
      }
      alert := None;
      selectedLine := Null;
      showLineModal := true;
    }
  }

  /** A report just created in the form has no lines, so it cannot be submitted until one is
      added, and adding one makes it submittable. */
  lemma NewReportNeedsALine(line: Value)
    ensures !CanSubmitReport(true, [])
    ensures CanSubmitReport(true, [] + [line])
    ensures !CanSubmitReport(false, [line])
  {
  }
}
