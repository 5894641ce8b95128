/** The logic of `src/components/DynamicForm.tsx`: a form built from a
    JSON form definition, with its option lists under `values`. */
module DynamicForm {
  import opened Js
  import opened PromptTypes
  import opened FormTypes
  import opened FormState
  import ExtraInputs
  import Results
  import Writes

  /** The default-initialisation view of a form field: the type string
      "MultiChoice" collects every default option. */
  function DefaultsOf(c: InputConfig): (d: Defaults)
    ensures d.id == c.id && d.default == c.default && d.multi == (KindName(c.inputType) == "MultiChoice")
    ensures d.options.Some? <==> c.values.Some?
    ensures c.values.Some? ==> (|d.options.value| == |c.values.value| &&
      forall i :: 0 <= i < |c.values.value| ==>
        d.options.value[i] == (c.values.value[i].value, c.values.value[i].isDefault))
  {
    Defaults(c.id, c.default,
      if c.values.None? then None
      else Some(seq(|c.values.value|, i requires 0 <= i < |c.values.value| =>
        (c.values.value[i].value, c.values.value[i].isDefault))),
      KindName(c.inputType) == "MultiChoice")
  }

  function FormDefaults(inputs: seq<InputConfig>): (ds: seq<Defaults>)
    ensures |ds| == |inputs| && forall i :: 0 <= i < |inputs| ==> ds[i] == DefaultsOf(inputs[i])
  {
    seq(|inputs|, i requires 0 <= i < |inputs| => DefaultsOf(inputs[i]))
  }

  function InitValues(inputs: seq<InputConfig>): PromptValues
  {
    Writes.Apply(map[], InitSteps(FormDefaults(inputs)))
  }

  /** The string "MultiChoice" is the type `MultiChoice` and no other. */
  lemma MultiChoiceName(k: InputKind)
    ensures KindName(k) == "MultiChoice" <==> k == MultiChoice
  {
  }

  /** An id gets an initial value iff some field with it has a default,
      the value of the last such field. */
  lemma InitValuesAt(inputs: seq<InputConfig>, k: string)
    ensures k in InitValues(inputs) <==>
      exists i :: 0 <= i < |inputs| && inputs[i].id == k && DefaultOf(DefaultsOf(inputs[i])).Some?
    ensures forall i :: IsLastDefault(FormDefaults(inputs), k, i) ==>
      InitValues(inputs)[k] == DefaultOf(DefaultsOf(inputs[i])).value
  {
    InitialValuesAt(FormDefaults(inputs), k);
  }

  /** The (id, required) pair of a form field. */
  function ConfigFlag(input: InputConfig): (string, bool)
  {
    (input.id, input.required)
  }

  /** The errors `validateForm` records, over the visible fields only. */
  function ValidationErrors(inputs: seq<InputConfig>, values: PromptValues): map<string, string>
  {
    MessagesFor(BlankRequired(RequiredFlags(ExtraInputs.GetVisibleInputs(inputs, values), ConfigFlag), values))
  }

  datatype FormConfig = FormConfig(title: string, inputs: seq<InputConfig>)

  /** The component's state. */
  class DynamicFormState {
    const config: FormConfig
    var formValues: PromptValues
    var errors: map<string, string>

    constructor (c: FormConfig)
      ensures config == c && formValues == InitValues(c.inputs) && errors == map[]
    {
      config := c;
      var vs := InitialValues(FormDefaults(c.inputs));
      formValues := vs;
      errors := map[];
    }

    /** `handleFieldChange`. */
    method HandleFieldChange(id: string, v: Value)
      modifies this
      ensures (formValues, errors) == FieldChange(old(formValues), old(errors), id, v)
    {
      formValues := formValues[id := v];
      if id in errors && errors[id] != "" {
        errors := errors - {id};
      }
    }

    /** `validateForm`. */
    method ValidateForm(values: PromptValues) returns (ok: bool)
      modifies this
      ensures formValues == old(formValues)
      ensures errors == ValidationErrors(config.inputs, values)
      ensures ok <==> errors == map[]
    {
      var visible := ExtraInputs.GetVisibleInputs(config.inputs, values);
      var e, okay := RequiredErrors(RequiredFlags(visible, ConfigFlag), values);
      errors := e;
      ok := |errors| == 0;
    }

    /** `handleSubmit`: the form result is copied only after validation
      passes; `popped` says whether the view closes. `copyOk` is whether
      the clipboard copy succeeds. */
    method HandleSubmit(values: PromptValues, keys: seq<string>, copyOk: bool)
      returns (copied: Option<string>, popped: bool)
      requires EnumeratesKeys(values, keys)
      modifies this
      ensures formValues == old(formValues)
      ensures errors == ValidationErrors(config.inputs, values)
      ensures copied.Some? <==> errors == map[]
      ensures copied.Some? ==> copied.value == Join(Results.Lines(values, keys), "\n")
      ensures popped <==> copied.Some? && copyOk
    {
      var valid := ValidateForm(values);
      if !valid {
        return None, false;
      }
      var text, success := Results.HandleFormSubmit(values, keys, copyOk);
      copied := Some(text);
      popped := success;
    }
  }

  /** A field has an error iff it is required, blank and visible. */
  lemma ValidationErrorIff(inputs: seq<InputConfig>, values: PromptValues, k: string)
    ensures k in ValidationErrors(inputs, values) <==>
      IsBlank(Lookup(values, k)) &&
      exists i :: 0 <= i < |inputs| && inputs[i].id == k && inputs[i].required &&
        k in ExtraInputs.VisibleIds(ExtraInputs.ConfigFields(inputs), values)
  {
    var vis := ExtraInputs.GetVisibleInputs(inputs, values);
    var flags := RequiredFlags(vis, ConfigFlag);
    BlankRequiredIff(flags, values, k);
    if k in BlankRequired(flags, values) {
      var j :| 0 <= j < |flags| && flags[j].0 == k && flags[j].1 && IsBlank(Lookup(values, k));
      assert vis[j] in vis;
      var i :| 0 <= i < |inputs| && inputs[i] == vis[j];
    }
    if IsBlank(Lookup(values, k)) &&
       exists i :: 0 <= i < |inputs| && inputs[i].id == k && inputs[i].required &&
         k in ExtraInputs.VisibleIds(ExtraInputs.ConfigFields(inputs), values) {
      var i :| 0 <= i < |inputs| && inputs[i].id == k && inputs[i].required &&
         k in ExtraInputs.VisibleIds(ExtraInputs.ConfigFields(inputs), values);
      assert inputs[i] in vis;
      var j :| 0 <= j < |vis| && vis[j] == inputs[i];
      assert flags[j] == (k, true);
    }
  }
}
