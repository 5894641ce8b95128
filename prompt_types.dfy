/** The records of a prompt definition (src/types/prompt.ts): field
    definitions, their options, form values and the command/request
    descriptors. Optional boolean attributes (`required`, `isDefault`,
    `isExtraInput`) are read only through truthiness, so an absent one is
    modelled as `false`. */
module PromptTypes {
  import opened Js

  /** The `type` attribute of a field. A prompt file may name a type outside
      the declared union; such a name is kept in `Unknown`. */
  datatype InputType =
    | Text
    | Textarea
    | Select
    | Multiselect
    | Checkbox
    | SelectInFolder
    | Unknown(name: string)

  function TypeName(t: InputType): string
  {
    match t
    case Text => "text"
    case Textarea => "textarea"
    case Select => "select"
    case Multiselect => "multiselect"
    case Checkbox => "checkbox"
    case SelectInFolder => "selectInFolder"
    case Unknown(name) => name
  }

  /** A form value: `string | string[] | boolean`. */
  datatype Value = VStr(s: string) | VList(items: seq<string>) | VBool(b: bool)

  datatype PromptOption = PromptOption(
    value: string,
    labelText: Option<string>,
    isDefault: bool,
    extraInputs: Option<seq<string>>)

  datatype PromptInput = PromptInput(
    id: string,
    labelText: string,
    kind: InputType,
    required: bool,
    default: Option<Value>,
    description: Option<string>,
    isExtraInput: bool,
    options: Option<seq<PromptOption>>,
    folder: Option<string>,
    trueValue: Option<string>,
    falseValue: Option<string>)

  /** `PromptValues`: field id to value; a missing key is `undefined`. */
  type PromptValues = map<string, Value>

  function Lookup(values: PromptValues, id: string): Option<Value>
  {
    if id in values then Some(values[id]) else None
  }

  /** `keys` is the order in which `Object.entries` visits `values`: every
      key exactly once. */
  predicate EnumeratesKeys(values: PromptValues, keys: seq<string>)
  {
    (forall i :: 0 <= i < |keys| ==> keys[i] in values) &&
    (forall k :: k in values ==> k in keys) &&
    (forall i, j :: 0 <= i < j < |keys| ==> keys[i] != keys[j])
  }

  datatype CommandConfig = CommandConfig(
    commandLine: string,
    args: Option<seq<string>>,
    envs: Option<map<string, string>>,
    cwd: Option<string>,
    timeout: Option<int>)

  /** `config.timeout || 30000`, in milliseconds: an absent or zero timeout
      falls back to 30 seconds. */
  function EffectiveTimeout(t: Option<int>): (r: int)
    ensures t.None? || t == Some(0) ==> r == 30000
    ensures t.Some? && t.value != 0 ==> r == t.value
  {
    if t.None? || t == Some(0) then 30000 else t.value
  }

  /** A query parameter value: `string | number | boolean`. */
  datatype QueryValue = QStr(s: string) | QNum(n: int) | QBool(b: bool)

  /** A request body: `string | Record<string, unknown>`. */
  datatype RequestBody = BodyText(text: string) | BodyObject(fields: seq<(string, JsValue)>)

  datatype RequestConfig = RequestConfig(
    httpMethod: string,
    url: string,
    query: Option<seq<(string, QueryValue)>>,
    headers: Option<map<string, string>>,
    body: Option<RequestBody>,
    timeout: Option<int>)

  datatype PromptConfig = PromptConfig(
    title: string,
    formDescription: Option<string>,
    execScript: Option<string>,
    command: Option<CommandConfig>,
    request: Option<RequestConfig>,
    inputs: seq<PromptInput>,
    content: string,
    filePath: Option<string>,
    lastUseTime: Option<int>)
}
