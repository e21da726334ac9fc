/** The expense type screen: its form, filled blank for a new type or from the type being
    edited, and the submit and delete handlers that call the types mirror. */
module ExpenseTypeManagementScreen {
  import opened Js
  import opened Api
  import opened Mirror
  import opened FormInput
  import opened ConfigurationHooks

  const TypeFormKeys: set<string> :=
    {"typeName", "description", "category", "isActive", "receiptRequired", "approvalRequired",
     "dailyLimit", "monthlyLimit", "annualLimit", "glAccountCode"}

  /** The form of a new type. */
  const NewTypeForm: map<string, Value> :=
    map["typeName" := Str(""), "description" := Str(""), "category" := Str(""),
        "isActive" := Bool(true), "receiptRequired" := Bool(false), "approvalRequired" := Bool(true),
        "dailyLimit" := Str(""), "monthlyLimit" := Str(""), "annualLimit" := Str(""),
        "glAccountCode" := Str("")]

  /** `v || ''`. */
  function OrEmpty(v: Value): Value {
    if Truthy(v) then v else Str("")
  }

  /** The form for editing `t`: its names, category and flags as they are; a missing limit
      or account code is blank. */
  function EditTypeForm(t: Value): map<string, Value>
  {
    map["typeName" := Get(t, "typeName"), "description" := Get(t, "description"),
        "category" := Get(t, "category"), "isActive" := Get(t, "isActive"),
        "receiptRequired" := Get(t, "receiptRequired"), "approvalRequired" := Get(t, "approvalRequired"),
        "dailyLimit" := OrEmpty(Get(t, "dailyLimit")), "monthlyLimit" := OrEmpty(Get(t, "monthlyLimit")),
        "annualLimit" := OrEmpty(Get(t, "annualLimit")), "glAccountCode" := OrEmpty(Get(t, "glAccountCode"))]
  }

  /** The edit form has exactly the form's fields, shows a missing limit or account code
      blank, and editing a type whose record is an edit form shows that same form again. */
  lemma EditTypeFormShape(t: Value)
    ensures EditTypeForm(t).Keys == TypeFormKeys
    ensures forall k :: k in {"dailyLimit", "monthlyLimit", "annualLimit", "glAccountCode"} && !Truthy(Get(t, k)) ==>
              EditTypeForm(t)[k] == Str("")
    ensures EditTypeForm(Obj(EditTypeForm(t))) == EditTypeForm(t)
  {
    var f := EditTypeForm(t);
    assert forall k :: k in f <==> k in TypeFormKeys;
    assert f["dailyLimit"] == OrEmpty(Get(t, "dailyLimit"));
    assert f["monthlyLimit"] == OrEmpty(Get(t, "monthlyLimit"));
    assert f["annualLimit"] == OrEmpty(Get(t, "annualLimit"));
    assert f["glAccountCode"] == OrEmpty(Get(t, "glAccountCode"));
    EditFormRoundTrip(f);
  }

  /** Editing a type whose record is a filled-in form shows that form back: the edit form
      round-trips the form fields, and a blank new form comes back blank. */
  lemma EditFormRoundTrip(form: map<string, Value>)
    requires form.Keys == TypeFormKeys
    requires forall k :: k in {"dailyLimit", "monthlyLimit", "annualLimit", "glAccountCode"} ==>
               form[k] == OrEmpty(form[k])
    ensures EditTypeForm(Obj(form)) == form
  {
  }

  lemma NewFormRoundTrip()
    ensures EditTypeForm(Obj(NewTypeForm)) == NewTypeForm
  {
    EditFormRoundTrip(NewTypeForm);
  }

  const UpdatedAlert := "Expense type updated successfully"
  const CreatedAlert := "Expense type created successfully"
  const SaveFailedAlert := "Failed to save expense type. Please try again."
  const DeletedAlert := "Expense type deleted successfully"
  const DeleteFailedAlert := "Failed to delete expense type. Please try again."

  /** The call a submit makes: a create of the form, or an update of the type's id with it. */
  datatype SaveCall = CreateCall(body: Value) | UpdateCall(id: Value, body: Value)

  class TypeScreen {
    var showModal: bool
    var editing: Value
    var form: map<string, Value>

    constructor ()
      ensures !showModal && editing == Null && form == NewTypeForm
    {
      showModal := false;
      editing := Null;
      form := NewTypeForm;
    }

    /** `handleInputChange(e)`. */
    method ChangeInput(e: InputEvent)
      modifies this
      ensures form == InputChange(old(form), e)
      ensures showModal == old(showModal) && editing == old(editing)
    {
      form := InputChange(form, e);
    }

    /** `handleCreateType()`. */
    method OpenCreate()
      modifies this
      ensures editing == Null && form == NewTypeForm && showModal
    {
      editing := Null;
      form := NewTypeForm;
      showModal := true;
    }

    /** `handleEditType(t)`. */
    method OpenEdit(t: Value)
      modifies this
      ensures editing == t && form == EditTypeForm(t) && showModal
    {
      editing := t;
      form := EditTypeForm(t);
      showModal := true;
    }

    /** `handleSubmit()` with the mirror `types` and `server` the outcome of its call: an
        update of the edited type's id when a type is being edited, a create otherwise; the
        modal closes only on success. */
    method Submit(types: ConfigMirror, server: Settled) returns (call: SaveCall, alert: string)
      requires types.idKey == "expenseTypeId"
      modifies this, types
      ensures call == (if Truthy(old(editing)) then UpdateCall(Get(old(editing), "expenseTypeId"), Obj(old(form)))
                       else CreateCall(Obj(old(form))))
      ensures server.Fulfilled? ==> !showModal && alert == (if call.UpdateCall? then UpdatedAlert else CreatedAlert)
      ensures server.Rejected? ==> showModal == old(showModal) && alert == SaveFailedAlert
      ensures server.Rejected? ==> types.items == old(types.items)
      ensures server.Fulfilled? && call.UpdateCall? ==>
                types.items == (if Truthy(Unwrap(server.value))
                                then PatchWhere(old(types.items), types.idKey, call.id, Unwrap(server.value))
                                else old(types.items))
      ensures server.Fulfilled? && call.CreateCall? ==>
                types.items == old(types.items) + (if Truthy(Unwrap(server.value)) then [Unwrap(server.value)] else [])
      ensures editing == old(editing) && form == old(form)
    {
      var result;
      if Truthy(editing) {
        call := UpdateCall(Get(editing, "expenseTypeId"), Obj(form));
        result := types.Update(call.id, server);
      } else {
        call := CreateCall(Obj(form));
        result := types.Create(server);
      }
      if result.Fulfilled? {
        alert := if call.UpdateCall? then UpdatedAlert else CreatedAlert;
        showModal := false;
      } else {
        alert := SaveFailedAlert;
      }
    }

    /** `handleDeleteType(typeId)` with `confirmed` the answer to the confirmation: nothing
        is deleted without it. */
    method Delete(types: ConfigMirror, typeId: Value, confirmed: bool, server: Settled) returns (alerts: seq<string>)
      requires types.idKey == "expenseTypeId"
      modifies types
      ensures !confirmed ==> alerts == [] && types.items == old(types.items) && types.error == old(types.error)
      ensures confirmed && server.Fulfilled? ==>
                alerts == [DeletedAlert] && types.items == RemoveWhere(old(types.items), types.idKey, typeId)
      ensures confirmed && server.Rejected? ==> alerts == [DeleteFailedAlert] && types.items == old(types.items)
    {
      alerts := [];
      if confirmed {
        var result := types.Delete(typeId, server);
        alerts := if result.Fulfilled? then [DeletedAlert] else [DeleteFailedAlert];
      }
    }
  }
}
