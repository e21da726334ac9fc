/** The approval queue screen: the approver's pending reports, a checkbox selection over
    their ids, bulk approval and rejection of the selection, and the modal that approves,
    rejects or asks for more information about one report. */
module ApprovalQueueScreen {
  import opened Js
  import opened JsStrings
  import opened JsNumbers
  import opened Api
  import opened Mirror
  import opened Selection
  import opened ExpenseService

  /** The approver the screen starts with. */
  const DefaultApprover := "EMP002"

  /** The approvals kept from the load answer: the page content of a successful envelope
      when it is an array, otherwise none. */
  function LoadedApprovals(response: Value): seq<Value> {
    var data := Get(response, "data");
    if Truthy(data) && Truthy(Get(data, "success")) then
      var content := Get(Get(data, "data"), "content");
      if content.Arr? then content.items else []
    else []
  }

  /** A page of approvals in the backend envelope loads exactly its content; a page whose
      content is missing, and an answer without `success`, load nothing. */
  lemma LoadedApprovalsShapes(items: seq<Value>, payload: Value)
    ensures LoadedApprovals(Enveloped(Obj(map["content" := Arr(items)]))) == items
    ensures !Get(payload, "content").Arr? ==> LoadedApprovals(Enveloped(payload)) == []
    ensures LoadedApprovals(Bare(Obj(map["content" := Arr(items)]))) == []
  {
    assert Get(Enveloped(Obj(map["content" := Arr(items)])), "data")
        == Obj(map["success" := Bool(true), "data" := Obj(map["content" := Arr(items)])]);
    assert Get(Enveloped(payload), "data") == Obj(map["success" := Bool(true), "data" := payload]);
    assert Get(Bare(Obj(map["content" := Arr(items)])), "data") == Obj(map["content" := Arr(items)]);
  }

  /** What the modal was opened for. Any action other than approve and reject is a request
      for more information. */
  datatype Decision = Approve | Reject | RequestInfo

  /** A call the screen makes to the approvals backend: its target and its body. */
  datatype ApprovalCall =
    | BulkApproveCall(body: Value)
    | DecisionCall(decision: Decision, reportId: Value, body: Value)

  const NoneToApprove := "Please select at least one report to approve"
  const NoneToReject := "Please select at least one report to reject"
  const ApprovedSuffix := " report(s) approved successfully"
  const RejectedSuffix := " report(s) rejected successfully"
  const BulkApproveFailed := "Failed to process bulk approval"
  const BulkRejectFailed := "Failed to process bulk rejection"
  const DecisionFailed := "Failed to process approval"

  /** The past tense a decision's alert uses. */
  function DecisionText(d: Decision): string {
    match d
    case Approve => "approved"
    case Reject => "rejected"
    case RequestInfo => "updated"
  }

  /** The body of one decision: the approver and the trimmed comments. */
  function DecisionBody(approverId: string, comments: string): (r: Value)
    ensures Get(r, "approverId") == Str(approverId) && Get(r, "comments") == Str(Trim(comments))
  {
    Obj(map["approverId" := Str(approverId), "comments" := Str(Trim(comments))])
  }

  /** The modal's submit button is disabled for a rejection without a reason. */
  predicate SubmitDisabled(decision: Option<Decision>, comments: string) {
    decision == Some(Reject) && Trim(comments) == ""
  }

  /** A rejection cannot be sent while its comments are blank, and only then; the other
      decisions can always be sent. */
  lemma SubmitDisabledIffBlankRejection(decision: Option<Decision>, comments: string)
    ensures SubmitDisabled(decision, comments) <==> decision == Some(Reject) && AllSpace(comments)
  {
    TrimEmptyIffBlank(comments);
  }

  /** The screen's state. */
  class Queue {
    var approvals: seq<Value>
    var selected: seq<Value>
    var loading: bool
    var showModal: bool
    var current: Value
    var decision: Option<Decision>
    var comments: string
    const approverId: string

    constructor ()
      ensures approvals == [] && selected == [] && loading && !showModal
      ensures current == Null && decision == None && comments == "" && approverId == DefaultApprover
    {
      approvals := [];
      selected := [];
      loading := true;
      showModal := false;
      current := Null;
      decision := None;
      comments := "";
      approverId := DefaultApprover;
    }

    /** `loadApprovals()` answered by `server`: the first fifty pending approvals of the
        approver are asked for; a failure leaves the queue empty. */
    method Load(server: Settled) returns (sent: Request)
      modifies this
      ensures sent == PendingApprovalsRequest(Str(approverId), Num(0.0), Num(50.0))
      ensures approvals == (if server.Fulfilled? then LoadedApprovals(server.value) else [])
      ensures !loading
      ensures selected == old(selected) && showModal == old(showModal) && current == old(current)
      ensures decision == old(decision) && comments == old(comments)
    {
      loading := true;
      sent := PendingApprovalsRequest(Str(approverId), Num(0.0), Num(50.0));
      if server.Fulfilled? {
        approvals := LoadedApprovals(server.value);
      } else {
        approvals := [];
      }
      loading := false;
    }

    /** `handleApprovalSelection(reportId)`. */
    method ToggleApproval(reportId: Value)
      modifies this
      ensures selected == Toggle(old(selected), reportId)
      ensures approvals == old(approvals)
    {
      selected := Toggle(selected, reportId);
    }

    /** `handleSelectAll()`: clears a full selection, otherwise selects every report id. */
    method SelectAllApprovals()
      modifies this
      ensures selected == SelectAll(old(selected), |approvals|, Ids(approvals, "reportId"))
      ensures approvals == old(approvals)
    {
      selected := SelectAll(selected, |approvals|, Ids(approvals, "reportId"));
    }

    /** `handleBulkApproval()` with `confirmed` the answer to the confirmation and `server`
        the outcome of the one bulk call: an empty selection is refused; a success removes
        every selected report from the queue and clears the selection; a failure changes
        nothing but the alert. */
    method BulkApprove(confirmed: bool, server: Settled) returns (call: Option<ApprovalCall>, alerts: seq<string>)
      modifies this
      ensures old(selected) == [] ==> call == None && alerts == [NoneToApprove]
      ensures call.Some? <==> old(selected) != [] && confirmed
      ensures call.Some? ==>
                call.value == BulkApproveCall(Obj(map["reportIds" := Arr(old(selected)), "approverId" := Str(approverId),
                                                      "comments" := Str("Bulk approval")]))
      ensures call.Some? && server.Fulfilled? ==>
                (approvals == RemoveIds(old(approvals), "reportId", old(selected)) && selected == []
                 && alerts == [NatToString(|old(selected)|) + ApprovedSuffix])
      ensures !(call.Some? && server.Fulfilled?) ==> approvals == old(approvals) && selected == old(selected)
      ensures call.Some? && server.Rejected? ==>
                alerts == ["Failed to approve reports: " + Interpolate(HandleApiError(server.reason, BulkApproveFailed))]
      ensures old(selected) != [] && !confirmed ==> alerts == []
    {
      call := None;
      alerts := [];
      if selected == [] {
        alerts := [NoneToApprove];
        return;
      }
      if confirmed {
        call := Some(BulkApproveCall(Obj(map["reportIds" := Arr(selected), "approverId" := Str(approverId),
                                             "comments" := Str("Bulk approval")])));
        if server.Fulfilled? {
          var count := |selected|;
          approvals := RemoveIds(approvals, "reportId", selected);
          selected := [];
          alerts := [NatToString(count) + ApprovedSuffix];
        } else {
          alerts := ["Failed to approve reports: " + Interpolate(HandleApiError(server.reason, BulkApproveFailed))];
        }
      }
    }

    /** `handleBulkRejection()` with `reason` the prompt's answer (None when cancelled) and
        `outcomes[i]` how the rejection of the i-th selected report settles: a blank reason
        sends nothing; one rejection per selected report is sent with the trimmed reason;
        the queue and the selection change only when every rejection succeeds. */
    method BulkReject(reason: Option<string>, outcomes: seq<Settled>) returns (calls: seq<ApprovalCall>, alerts: seq<string>)
      requires |outcomes| == |selected|
      modifies this
      ensures old(selected) == [] ==> calls == [] && alerts == [NoneToReject]
      ensures old(selected) != [] && (reason.None? || Trim(reason.value) == "") ==> calls == [] && alerts == []
      ensures calls != [] ==> reason.Some? && Trim(reason.value) != ""
      ensures calls != [] ==> |calls| == |old(selected)| && forall i :: 0 <= i < |calls| ==>
                calls[i] == DecisionCall(Reject, old(selected)[i], DecisionBody(approverId, reason.value))
      ensures calls != [] && FirstRejection(outcomes).None? ==>
                (approvals == RemoveIds(old(approvals), "reportId", old(selected)) && selected == []
                 && alerts == [NatToString(|old(selected)|) + RejectedSuffix])
      ensures !(calls != [] && FirstRejection(outcomes).None?) ==> approvals == old(approvals) && selected == old(selected)
      ensures calls != [] && FirstRejection(outcomes).Some? ==>
                alerts == ["Failed to reject reports: " + Interpolate(HandleApiError(FirstRejection(outcomes).value, BulkRejectFailed))]
    {
      calls := [];
      alerts := [];
      if selected == [] {
        alerts := [NoneToReject];
        return;
      }
      if reason.Some? && Trim(reason.value) != "" {
        var body := DecisionBody(approverId, reason.value);
        var i := 0;
        while i < |selected|
          invariant 0 <= i <= |selected| && |calls| == i
          invariant forall j :: 0 <= j < i ==> calls[j] == DecisionCall(Reject, selected[j], body)
        {
          calls := calls + [DecisionCall(Reject, selected[i], body)];
          i := i + 1;
        }
        var failure := FirstRejection(outcomes);
        if failure.None? {
          var count := |selected|;
          approvals := RemoveIds(approvals, "reportId", selected);
          selected := [];
          alerts := [NatToString(count) + RejectedSuffix];
        } else {
          alerts := ["Failed to reject reports: " + Interpolate(HandleApiError(failure.value, BulkRejectFailed))];
        }
      }
    }

    /** `handleApprovalAction(approval, action)`: opens the modal for that report with empty
        comments. */
    method OpenDecision(approval: Value, d: Decision)
      modifies this
      ensures current == approval && decision == Some(d) && comments == "" && showModal
      ensures approvals == old(approvals) && selected == old(selected)
    {
      current := approval;
      decision := Some(d);
      comments := "";
      showModal := true;
    }

    /** `handleSubmitApproval()` answered by `server`: nothing happens without a report and a
        decision; the decision is sent for the report's id with the trimmed comments; a
        success removes exactly the reports with that id and closes the modal; a failure
        keeps everything and alerts. */
    method SubmitDecision(server: Settled) returns (call: Option<ApprovalCall>, alerts: seq<string>)
      modifies this
      ensures call.Some? <==> Truthy(old(current)) && old(decision).Some?
      ensures call.Some? ==>
                call.value == DecisionCall(old(decision).value, Get(old(current), "reportId"), DecisionBody(approverId, old(comments)))
      ensures call.Some? && server.Fulfilled? ==>
                (approvals == RemoveWhere(old(approvals), "reportId", Get(old(current), "reportId"))
                 && alerts == ["Report " + Interpolate(Get(old(current), "reportId")) + " " + DecisionText(old(decision).value) + " successfully"]
                 && !showModal && current == Null && decision == None && comments == "")
      ensures !(call.Some? && server.Fulfilled?) ==>
                (approvals == old(approvals) && showModal == old(showModal) && current == old(current)
                 && decision == old(decision) && comments == old(comments))
      ensures call.Some? && server.Rejected? ==>
                alerts == ["Failed to process approval: " + Interpolate(HandleApiError(server.reason, DecisionFailed))]
      ensures call.None? ==> alerts == []
      ensures selected == old(selected)
    {
      call := None;
      alerts := [];
      if !Truthy(current) || decision.None? {
        return;
      }
      var id := Get(current, "reportId");
      call := Some(DecisionCall(decision.value, id, DecisionBody(approverId, comments)));
      if server.Fulfilled? {
        approvals := RemoveWhere(approvals, "reportId", id);
        alerts := ["Report " + Interpolate(id) + " " + DecisionText(decision.value) + " successfully"];
        showModal := false;
        current := Null;
        decision := None;
        comments := "";
      } else {
        alerts := ["Failed to process approval: " + Interpolate(HandleApiError(server.reason, DecisionFailed))];
      }
    }
  }

  /** After a decision succeeds no report with the decided id is left in the queue, every
      other report stays, and the queue shrinks by the number of reports with that id. */
  lemma DecisionRemovesExactlyThatReport(approvals: seq<Value>, id: Value, r: Value)
    ensures r in RemoveWhere(approvals, "reportId", id) <==> r in approvals && !StrictEquals(Get(r, "reportId"), id)
    ensures |RemoveWhere(approvals, "reportId", id)| == |approvals| - CountWhere(approvals, "reportId", id)
  {
    RemoveWhereSpec(approvals, "reportId", id);
  }

  /** After a bulk approval or rejection succeeds, exactly the reports whose id was not
      selected are left, in their order. */
  lemma BulkRemovesExactlyTheSelection(approvals: seq<Value>, selected: seq<Value>, r: Value)
    ensures r in RemoveIds(approvals, "reportId", selected) <==> r in approvals && !Contains(selected, Get(r, "reportId"))
  {
    RemoveIdsSpec(approvals, "reportId", selected);
  }
}
