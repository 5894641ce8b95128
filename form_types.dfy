/** The records of a JSON form definition (src/types/form.ts), used by the
    dynamic form. Its option list is called `values`. */
module FormTypes {
  import opened Js
  import opened PromptTypes

  datatype InputKind =
    | TextLine
    | MultiLineText
    | SingleChoice
    | MultiChoice
    | BooleanChoice
    | SingleChoiceInFolder

  /** `inputType.toString()`: the enum's string value. */
  function KindName(k: InputKind): string
  {
    match k
    case TextLine => "TextLine"
    case MultiLineText => "MultiLineText"
    case SingleChoice => "SingleChoice"
    case MultiChoice => "MultiChoice"
    case BooleanChoice => "BooleanChoice"
    case SingleChoiceInFolder => "SingleChoiceInFolder"
  }

  datatype InputValue = InputValue(
    value: string,
    display: Option<string>,
    isDefault: bool,
    extraInputs: Option<seq<string>>)

  /** `InputConfig`; its `default` is a string or a boolean. */
  datatype InputConfig = InputConfig(
    inputType: InputKind,
    labelText: string,
    id: string,
    required: bool,
    default: Option<Value>,
    description: Option<string>,
    values: Option<seq<InputValue>>,
    isExtraInput: bool,
    folder: Option<string>)

  /** `FormValues` has the same shape as `PromptValues`. */
  type FormValues = PromptValues
}
