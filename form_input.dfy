/** The change handler the configuration forms share: the named field takes the box's
    `checked` for a checkbox and the input's `value` otherwise. */
module FormInput {
  import opened Js

  /** An input's change event: its name, value, and whether it is a checked checkbox. */
  datatype InputEvent = TextInput(name: string, value: Value) | CheckboxInput(name: string, checked: bool)

  /** `{...prev, [name]: type === 'checkbox' ? checked : value}`. */
  function InputChange(form: map<string, Value>, e: InputEvent): (r: map<string, Value>)
    ensures r.Keys == form.Keys + {e.name}
    ensures e.TextInput? ==> r[e.name] == e.value
    ensures e.CheckboxInput? ==> r[e.name] == Bool(e.checked)
    ensures forall k :: k in form && k != e.name ==> r[k] == form[k]
  {
    form[e.name := if e.CheckboxInput? then Bool(e.checked) else e.value]
  }

  /** Changing a field twice keeps the last change, and changing two different fields can be
      done in either order. */
  lemma InputChangeOrder(form: map<string, Value>, e1: InputEvent, e2: InputEvent)
    ensures e1.name == e2.name ==> InputChange(InputChange(form, e1), e2) == InputChange(form, e2)
    ensures e1.name != e2.name ==> InputChange(InputChange(form, e1), e2) == InputChange(InputChange(form, e2), e1)
  {
  }
}
