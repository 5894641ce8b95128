/** Rendering a form value as text (src/utils/valueConverter.ts), in template
    mode (human-facing "是"/"否") and command mode ("true"/"false"). A
    checkbox field's `trueValue`/`falseValue` override the boolean literal
    in both modes; an override that is the empty string still counts. */
module ValueConverter {
  import opened Js
  import opened PromptTypes

  predicate IsCheckbox(input: Option<PromptInput>) {
    input.Some? && input.value.kind == Checkbox
  }

  /** The literal for boolean `b`: the checkbox override if one is set, else
      the mode's default. */
  function BoolLiteral(b: bool, input: Option<PromptInput>, yes: string, no: string): string
  {
    if IsCheckbox(input) then
      if b then (if input.value.trueValue.Some? then input.value.trueValue.value else yes)
      else (if input.value.falseValue.Some? then input.value.falseValue.value else no)
    else if b then yes else no
  }

  /** `valueToTemplateString`. */
  function ValueToTemplateString(value: Value, input: Option<PromptInput>): (r: string)
    ensures value.VList? ==> r == Join(value.items, ", ")
    ensures value.VStr? ==> r == value.s
    ensures value.VBool? && !IsCheckbox(input) ==> r == (if value.b then "是" else "否")
    ensures value.VBool? && IsCheckbox(input) && value.b ==>
      r == (if input.value.trueValue.Some? then input.value.trueValue.value else "是")
    ensures value.VBool? && IsCheckbox(input) && !value.b ==>
      r == (if input.value.falseValue.Some? then input.value.falseValue.value else "否")
  {
    match value
    case VList(items) => Join(items, ", ")
    case VBool(b) => BoolLiteral(b, input, "是", "否")
    case VStr(s) => s
  }

  /** `valueToCommandString`. */
  function ValueToCommandString(value: Value, input: Option<PromptInput>): (r: string)
    ensures value.VList? ==> r == Join(value.items, ", ")
    ensures value.VStr? ==> r == value.s
    ensures value.VBool? && !IsCheckbox(input) ==> r == (if value.b then "true" else "false")
    ensures value.VBool? && IsCheckbox(input) && value.b ==>
      r == (if input.value.trueValue.Some? then input.value.trueValue.value else "true")
    ensures value.VBool? && IsCheckbox(input) && !value.b ==>
      r == (if input.value.falseValue.Some? then input.value.falseValue.value else "false")
  {
    match value
    case VList(items) => Join(items, ", ")
    case VBool(b) => BoolLiteral(b, input, "true", "false")
    case VStr(s) => s
  }

  /** The two modes differ only on a boolean whose literal is not overridden. */
  lemma ModesAgreeExceptDefaultLiterals(value: Value, input: Option<PromptInput>)
    requires !value.VBool? ||
      (IsCheckbox(input) && (if value.b then input.value.trueValue.Some? else input.value.falseValue.Some?))
    ensures ValueToTemplateString(value, input) == ValueToCommandString(value, input)
  {
  }

  /** An override is only consulted for a checkbox field: for any other field
      the result equals the result without a field configuration. */
  lemma OverridesNeedCheckbox(value: Value, input: PromptInput)
    requires input.kind != Checkbox
    ensures ValueToTemplateString(value, Some(input)) == ValueToTemplateString(value, None)
    ensures ValueToCommandString(value, Some(input)) == ValueToCommandString(value, None)
  {
  }

  /** A checkbox override renders verbatim in both modes, even when empty. */
  lemma OverrideVerbatim(b: bool, input: PromptInput, lit: string)
    requires input.kind == Checkbox
    requires (if b then input.trueValue else input.falseValue) == Some(lit)
    ensures ValueToTemplateString(VBool(b), Some(input)) == lit
    ensures ValueToCommandString(VBool(b), Some(input)) == lit
  {
  }
}
