/** The expense template screen: its form, the four fields it submits, the submit and
    delete handlers over the templates mirror, and the guards on what the hooks hold. */
module ExpenseTemplateManagementScreen {
  import opened Js
  import opened JsNumbers
  import opened Mirror
  import opened FormInput
  import opened ConfigurationHooks

  const StandardWorkflow := "Standard (Manager Approval)"

  const TemplateFormKeys: set<string> :=
    {"templateName", "description", "expenseType", "category", "isActive", "isDefault",
     "approvalWorkflow", "fromDate", "toDate", "attachments"}

  /** The form of a new template. */
  const NewTemplateForm: map<string, Value> :=
    map["templateName" := Str(""), "description" := Str(""), "expenseType" := Str(""),
        "category" := Str(""), "isActive" := Bool(true), "isDefault" := Bool(false),
        "approvalWorkflow" := Str(StandardWorkflow), "fromDate" := Str(""), "toDate" := Str(""),
        "attachments" := Str("")]

  /** The fields a template keeps. */
  const TemplateFields: set<string> := {"templateName", "description", "isActive", "isDefault"}

  /** The form for editing `t`: its name, description and flags, and every other field as in
      a new form. */
  function EditTemplateForm(t: Value): map<string, Value>
  {
    NewTemplateForm["templateName" := Get(t, "templateName")]["description" := Get(t, "description")]
                   ["isActive" := Get(t, "isActive")]["isDefault" := Get(t, "isDefault")]
  }

  /** The edit form has the form's fields, the template's four as they are and the rest as
      in a new form. */
  lemma EditTemplateFormFields(t: Value)
    ensures EditTemplateForm(t).Keys == TemplateFormKeys
    ensures forall k :: k in TemplateFields ==> EditTemplateForm(t)[k] == Get(t, k)
    ensures forall k :: k in TemplateFormKeys - TemplateFields ==> EditTemplateForm(t)[k] == NewTemplateForm[k]
  {
    var f := EditTemplateForm(t);
    assert forall k :: k in f <==> k in TemplateFormKeys;
  }

  /** `formData[k]`: a field the form does not hold reads as undefined. */
  function Field(form: map<string, Value>, k: string): Value {
    if k in form then form[k] else Undefined
  }

  /** The payload a submit sends: the form's four template fields and nothing else. */
  function TemplatePayload(form: map<string, Value>): (r: Value)
    ensures r.Obj? && r.fields.Keys == TemplateFields
    ensures forall k :: k in TemplateFields ==> r.fields[k] == Field(form, k)
  {
    Obj(map["templateName" := Field(form, "templateName"), "description" := Field(form, "description"),
            "isActive" := Field(form, "isActive"), "isDefault" := Field(form, "isDefault")])
  }

  /** Editing a template and submitting the form unchanged sends back the template's own
      four fields. */
  lemma EditThenSubmit(t: Value)
    ensures TemplatePayload(EditTemplateForm(t)).fields.Keys == TemplateFields
    ensures forall k :: k in TemplateFields ==> TemplatePayload(EditTemplateForm(t)).fields[k] == Get(t, k)
  {
    EditTemplateFormFields(t);
  }

  /** The form's other fields never reach the server: changing one leaves the payload as it
      was. */
  lemma OtherFieldsNotSent(form: map<string, Value>, e: InputEvent)
    requires e.name !in TemplateFields
    ensures TemplatePayload(InputChange(form, e)) == TemplatePayload(form)
  {
    var f := InputChange(form, e);
    assert Field(f, "templateName") == Field(form, "templateName");
    assert Field(f, "description") == Field(form, "description");
    assert Field(f, "isActive") == Field(form, "isActive");
    assert Field(f, "isDefault") == Field(form, "isDefault");
  }

  const UpdatedAlert := "Template updated successfully"
  const CreatedAlert := "Template created successfully"
  const SaveFailedDefault := "Failed to save template. Please try again."
  const DeletedAlert := "Template deleted successfully"
  const DeleteFailedDefault := "Failed to delete template. Please try again."

  /** `error?.message || fallback`, as the alert's text. */
  function ErrorAlert(error: Value, fallback: string): (r: string)
    ensures Get(error, "message").Str? && Get(error, "message").s != "" ==> r == Get(error, "message").s
    ensures !Truthy(Get(error, "message")) ==> r == fallback
  {
    if Truthy(Get(error, "message")) then Interpolate(Get(error, "message")) else fallback
  }

  datatype SaveCall = CreateCall(body: Value) | UpdateCall(id: Value, body: Value)

  /** What the screen renders: loading while either hook loads, then an error when the
      templates or the expense types are not an array, then the table. */
  datatype View = LoadingView | TemplatesErrorView | TypesErrorView | TableView

  function ViewFor(templatesLoading: bool, typesLoading: bool, templates: Value, types: Value): (r: View)
    ensures r == TableView <==> !templatesLoading && !typesLoading && templates.Arr? && types.Arr?
    ensures r == TypesErrorView ==> templates.Arr?
  {
    if templatesLoading || typesLoading then LoadingView
    else if !templates.Arr? then TemplatesErrorView
    else if !types.Arr? then TypesErrorView
    else TableView
  }

  class TemplateScreen {
    var showModal: bool
    var editing: Value
    var form: map<string, Value>

    constructor ()
      ensures !showModal && editing == Null && form == NewTemplateForm
    {
      showModal := false;
      editing := Null;
      form := NewTemplateForm;
    }

    /** `handleInputChange(e)`. */
    method ChangeInput(e: InputEvent)
      modifies this
      ensures form == InputChange(old(form), e)
      ensures showModal == old(showModal) && editing == old(editing)
    {
      form := InputChange(form, e);
    }

    /** `handleCreateTemplate()`. */
    method OpenCreate()
      modifies this
      ensures editing == Null && form == NewTemplateForm && showModal
    {
      editing := Null;
      form := NewTemplateForm;
      showModal := true;
    }

    /** `handleEditTemplate(t)`. */
    method OpenEdit(t: Value)
      modifies this
      ensures editing == t && form == EditTemplateForm(t) && showModal
    {
      editing := t;
      form := EditTemplateForm(t);
      showModal := true;
    }

    /** `handleSubmit()` with the mirror `templates` and `server` the outcome of its call:
        the four template fields are sent as an update of the edited template's id, or as a
        create; the modal closes only on success and a failure alerts its message. */
    method Submit(templates: ConfigMirror, server: Settled) returns (call: SaveCall, alert: string)
      requires templates.idKey == "templateId"
      modifies this, templates
      ensures call == (if Truthy(old(editing)) then UpdateCall(Get(old(editing), "templateId"), TemplatePayload(old(form)))
                       else CreateCall(TemplatePayload(old(form))))
      ensures server.Fulfilled? ==> !showModal && alert == (if call.UpdateCall? then UpdatedAlert else CreatedAlert)
      ensures server.Rejected? ==> showModal == old(showModal) && alert == ErrorAlert(server.reason, SaveFailedDefault)
      ensures server.Rejected? ==> templates.items == old(templates.items)
      ensures server.Fulfilled? && call.UpdateCall? ==>
                templates.items == (if Truthy(Unwrap(server.value))
                                    then PatchWhere(old(templates.items), templates.idKey, call.id, Unwrap(server.value))
                                    else old(templates.items))
      ensures server.Fulfilled? && call.CreateCall? ==>
                templates.items == old(templates.items) + (if Truthy(Unwrap(server.value)) then [Unwrap(server.value)] else [])
      ensures editing == old(editing) && form == old(form)
    {
      var body := TemplatePayload(form);
      var result;
      if Truthy(editing) {
        call := UpdateCall(Get(editing, "templateId"), body);
        result := templates.Update(call.id, server);
      } else {
        call := CreateCall(body);
        result := templates.Create(server);
      }
      if result.Fulfilled? {
        alert := if call.UpdateCall? then UpdatedAlert else CreatedAlert;
        showModal := false;
      } else {
        alert := ErrorAlert(result.reason, SaveFailedDefault);
      }
    }

    /** `handleDeleteTemplate(templateId)` with `confirmed` the answer to the confirmation. */
    method Delete(templates: ConfigMirror, templateId: Value, confirmed: bool, server: Settled) returns (alerts: seq<string>)
      requires templates.idKey == "templateId"
      modifies templates
      ensures !confirmed ==> alerts == [] && templates.items == old(templates.items) && templates.error == old(templates.error)
      ensures confirmed && server.Fulfilled? ==>
                alerts == [DeletedAlert] && templates.items == RemoveWhere(old(templates.items), templates.idKey, templateId)
      ensures confirmed && server.Rejected? ==>
                alerts == [ErrorAlert(server.reason, DeleteFailedDefault)] && templates.items == old(templates.items)
    {
      alerts := [];
      if confirmed {
        var result := templates.Delete(templateId, server);
        alerts := if result.Fulfilled? then [DeletedAlert] else [ErrorAlert(result.reason, DeleteFailedDefault)];
      }
    }
  }
}
