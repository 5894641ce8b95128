/** `src/utils/deeplinkValidator.ts`: merging the `inputs` argument of a
    deeplink into a prompt's form values. Each field takes the deeplink
    value when it has the right type and names known options, and falls back
    to its default otherwise, with a warning for a rejected value. */
module Deeplink {
  import opened Js
  import opened PromptTypes
  import opened FormState
  import Writes

  /** The default-initialisation view of a prompt field: `multiselect`
      collects every default option. */
  function DefaultsOf(input: PromptInput): (d: Defaults)
    ensures d.id == input.id && d.default == input.default && d.multi == (input.kind == Multiselect)
    ensures d.options.Some? <==> input.options.Some?
    ensures input.options.Some? ==> (|d.options.value| == |input.options.value| &&
      forall i :: 0 <= i < |input.options.value| ==>
        d.options.value[i] == (input.options.value[i].value, input.options.value[i].isDefault))
  {
    Defaults(input.id, input.default,
      if input.options.None? then None
      else Some(seq(|input.options.value|, i requires 0 <= i < |input.options.value| =>
        (input.options.value[i].value, input.options.value[i].isDefault))),
      input.kind == Multiselect)
  }

  /** `getDefaultValue`; its precedence is `FormState.DefaultPrecedence`. */
  function GetDefaultValue(input: PromptInput): Option<Value>
  {
    DefaultOf(DefaultsOf(input))
  }

  /** `{ valid, error }`. */
  datatype Check = Valid | Invalid(error: string)

  predicate AllStrings(elems: seq<JsValue>)
  {
    forall i :: 0 <= i < |elems| ==> elems[i].Str?
  }

  /** `validateType`. */
  function ValidateType(input: PromptInput, v: JsValue): (r: Check)
    ensures r.Valid? <==>
      (input.kind == Multiselect && v.Arr? && AllStrings(v.elems)) ||
      (input.kind in {Select, Text, Textarea, SelectInFolder} && v.Str?) ||
      (input.kind == Checkbox && v.Bool?)
  {
    match input.kind
    case Multiselect =>
      if !v.Arr? then Invalid("类型错误：应为数组，收到 " + TypeOf(v))
      else if !AllStrings(v.elems) then Invalid("类型错误：数组元素应为字符串")
      else Valid
    case Select => StringTypeCheck(v)
    case Text => StringTypeCheck(v)
    case Textarea => StringTypeCheck(v)
    case SelectInFolder => StringTypeCheck(v)
    case Checkbox => if !v.Bool? then Invalid("类型错误：应为布尔值，收到 " + TypeOf(v)) else Valid
    case Unknown(name) => Invalid("未知的字段类型: " + name)
  }

  function StringTypeCheck(v: JsValue): (r: Check)
    ensures r.Valid? <==> v.Str?
  {
    if !v.Str? then Invalid("类型错误：应为字符串，收到 " + TypeOf(v)) else Valid
  }

  /** A value that passed the type check, as a form value. */
  function AsValue(v: JsValue): (r: Value)
    requires v.Str? || v.Bool? || (v.Arr? && AllStrings(v.elems))
    ensures ValueAsJs(r) == v
  {
    match v
    case Str(s) => VStr(s)
    case Bool(b) => VBool(b)
    case Arr(elems) =>
      var r := VList(seq(|elems|, i requires 0 <= i < |elems| => elems[i].s));
      assert ValueAsJs(r).elems == elems;
      r
  }

  /** A form value as the dynamic value it came from. */
  function ValueAsJs(v: Value): JsValue
  {
    match v
    case VStr(s) => Str(s)
    case VBool(b) => Bool(b)
    case VList(items) => Arr(seq(|items|, i requires 0 <= i < |items| => Str(items[i])))
  }

  /** The supplied values that are not option values (`invalidValues`),
      rendered as `join` renders them. A boolean never equals an option
      value, so it is always offending. */
  function InvalidValues(optionValues: seq<string>, v: Value): (r: seq<string>)
    ensures v.VStr? ==> r == (if v.s in optionValues then [] else [v.s])
    ensures v.VBool? ==> r == [BoolToString(v.b)]
    ensures v.VList? ==> (forall x :: x in r <==> x in v.items && x !in optionValues) && |r| <= |v.items|
  {
    match v
    case VStr(s) => if s in optionValues then [] else [s]
    case VBool(b) => [BoolToString(b)]
    case VList(items) => NotIn(optionValues, items)
  }

  function NotIn(optionValues: seq<string>, items: seq<string>): (r: seq<string>)
    ensures (forall x :: x in r <==> x in items && x !in optionValues) && |r| <= |items|
    decreases |items|
  {
    if |items| == 0 then []
    else (if items[0] in optionValues then [] else [items[0]]) + NotIn(optionValues, items[1..])
  }

  function OptionValues(opts: seq<PromptOption>): (r: seq<string>)
    ensures |r| == |opts| && forall i :: 0 <= i < |opts| ==> r[i] == opts[i].value
  {
    seq(|opts|, i requires 0 <= i < |opts| => opts[i].value)
  }

  /** `validateOptions`, on a value that passed the type check. */
  function ValidateOptions(input: PromptInput, v: Value): (r: Check)
  {
    if input.options.None? then Valid
    else
      var bad := InvalidValues(OptionValues(input.options.value), v);
      if |bad| > 0 then Invalid("无效选项: " + Join(bad, ", ")) else Valid
  }

  /** The option rule: a string or every array element must be some option's
      value, and a boolean never passes; the warning lists the offenders. */
  lemma OptionRule(input: PromptInput, v: Value)
    requires input.options.Some?
    ensures ValidateOptions(input, v).Valid? <==>
      (v.VStr? && exists i :: 0 <= i < |input.options.value| && input.options.value[i].value == v.s) ||
      (v.VList? && forall x :: x in v.items ==> exists i :: 0 <= i < |input.options.value| && input.options.value[i].value == x)
    ensures ValidateOptions(input, v).Invalid? ==>
      ValidateOptions(input, v).error == "无效选项: " + Join(InvalidValues(OptionValues(input.options.value), v), ", ")
  {
    var ov := OptionValues(input.options.value);
    var bad := InvalidValues(ov, v);
    if v.VList? && |bad| > 0 {
      assert bad[0] in bad;
    }
  }

  /** The deeplink value for a field; a missing key reads as `undefined`. */
  function Supplied(raw: map<string, JsValue>, id: string): JsValue
  {
    if id in raw then raw[id] else Undefined
  }

  /** What one iteration does: the value it assigns, if any, and the warning
      it records, if any. */
  function Outcome(input: PromptInput, raw: map<string, JsValue>): (r: (Option<Value>, Option<string>))
  {
    var dv := Supplied(raw, input.id);
    if dv == Undefined then (GetDefaultValue(input), None)
    else match ValidateType(input, dv)
      case Invalid(e) => (GetDefaultValue(input), Some(e))
      case Valid =>
        var v := AsValue(dv);
        if input.options.Some? then
          match ValidateOptions(input, v)
          case Invalid(e) => (GetDefaultValue(input), Some(e))
          case Valid => (Some(v), None)
        else (Some(v), None)
  }

  function ValueSteps(inputs: seq<PromptInput>, raw: map<string, JsValue>): (ws: seq<(string, Option<Value>)>)
    ensures |ws| == |inputs| && forall i :: 0 <= i < |inputs| ==> ws[i] == (inputs[i].id, Outcome(inputs[i], raw).0)
  {
    seq(|inputs|, i requires 0 <= i < |inputs| => (inputs[i].id, Outcome(inputs[i], raw).0))
  }

  function WarningSteps(inputs: seq<PromptInput>, raw: map<string, JsValue>): (ws: seq<(string, Option<string>)>)
    ensures |ws| == |inputs| && forall i :: 0 <= i < |inputs| ==> ws[i] == (inputs[i].id, Outcome(inputs[i], raw).1)
  {
    seq(|inputs|, i requires 0 <= i < |inputs| => (inputs[i].id, Outcome(inputs[i], raw).1))
  }

  /** `checkCompleteness`: every required field, visible or not, has a value
      that is not blank. */
  predicate CheckCompleteness(inputs: seq<PromptInput>, values: PromptValues)
  {
    forall i :: 0 <= i < |inputs| && inputs[i].required ==> !IsBlank(Lookup(values, inputs[i].id))
  }

  /** One iteration of the loop in `validateAndMergeInputs`, with its
      three `continue` exits. */
  method MergeOne(input: PromptInput, raw: map<string, JsValue>, values: PromptValues, warnings: map<string, string>)
    returns (values': PromptValues, warnings': map<string, string>)
    ensures values' == (if Outcome(input, raw).0.Some? then values[input.id := Outcome(input, raw).0.value] else values)
    ensures warnings' == (if Outcome(input, raw).1.Some? then warnings[input.id := Outcome(input, raw).1.value] else warnings)
  {
    values', warnings' := values, warnings;
    var dv := Supplied(raw, input.id);
    if dv == Undefined {
      var d := GetDefaultValue(input);
      if d.Some? { values' := values'[input.id := d.value]; }
      return;
    }
    var typeCheck := ValidateType(input, dv);
    if typeCheck.Invalid? {
      warnings' := warnings'[input.id := typeCheck.error];
      var d := GetDefaultValue(input);
      if d.Some? { values' := values'[input.id := d.value]; }
      return;
    }
    var v := AsValue(dv);
    if input.options.Some? {
      var optionCheck := ValidateOptions(input, v);
      if optionCheck.Invalid? {
        warnings' := warnings'[input.id := optionCheck.error];
        var d := GetDefaultValue(input);
        if d.Some? { values' := values'[input.id := d.value]; }
        return;
      }
    }
    values' := values'[input.id := v];
  }

  /** `validateAndMergeInputs`. */
  method ValidateAndMergeInputs(inputs: seq<PromptInput>, raw: map<string, JsValue>)
    returns (values: PromptValues, warnings: map<string, string>, isComplete: bool)
    ensures values == Writes.Apply(map[], ValueSteps(inputs, raw))
    ensures warnings == Writes.Apply(map[], WarningSteps(inputs, raw))
    ensures isComplete == CheckCompleteness(inputs, values)
  {
    values := map[];
    warnings := map[];
    var i := 0;
    while i < |inputs|
      invariant 0 <= i <= |inputs|
      invariant values == Writes.Apply(map[], ValueSteps(inputs[..i], raw))
      invariant warnings == Writes.Apply(map[], WarningSteps(inputs[..i], raw))
    {
      assert ValueSteps(inputs[..i + 1], raw)[..i] == ValueSteps(inputs[..i], raw);
      assert WarningSteps(inputs[..i + 1], raw)[..i] == WarningSteps(inputs[..i], raw);
      values, warnings := MergeOne(inputs[i], raw, values, warnings);
      i := i + 1;
    }
    assert inputs[..i] == inputs;
    isComplete := CheckCompleteness(inputs, values);
  }

  /** A field the deeplink does not supply takes its default, with no warning. */
  lemma AbsentTakesDefault(input: PromptInput, raw: map<string, JsValue>)
    requires input.id !in raw || raw[input.id] == Undefined
    ensures Outcome(input, raw) == (GetDefaultValue(input), None)
  {
  }

  /** A rejected value leaves a warning and falls back to the default. */
  lemma RejectedFallsBack(input: PromptInput, raw: map<string, JsValue>)
    requires Supplied(raw, input.id) != Undefined
    requires ValidateType(input, Supplied(raw, input.id)).Invalid? ||
      (input.options.Some? && ValidateOptions(input, AsValue(Supplied(raw, input.id))).Invalid?)
    ensures Outcome(input, raw).0 == GetDefaultValue(input)
    ensures Outcome(input, raw).1.Some?
  {
  }

  /** A value that passes both checks is taken as supplied. */
  lemma AcceptedVerbatim(input: PromptInput, raw: map<string, JsValue>)
    requires Supplied(raw, input.id) != Undefined
    requires ValidateType(input, Supplied(raw, input.id)).Valid?
    requires input.options.None? || ValidateOptions(input, AsValue(Supplied(raw, input.id))).Valid?
    ensures Outcome(input, raw).1.None?
    ensures Outcome(input, raw).0.Some? && ValueAsJs(Outcome(input, raw).0.value) == raw[input.id]
  {
  }

  /** The merged result per id: a warning is recorded for an id iff some
      field with that id was rejected, and the value of an id is the
      outcome of the last field with that id that assigned one. */
  lemma MergedAt(inputs: seq<PromptInput>, raw: map<string, JsValue>, k: string)
    ensures k in Writes.Apply(map[], WarningSteps(inputs, raw)) <==>
      exists i :: 0 <= i < |inputs| && inputs[i].id == k && Outcome(inputs[i], raw).1.Some?
    ensures k in Writes.Apply(map[], ValueSteps(inputs, raw)) <==>
      exists i :: 0 <= i < |inputs| && inputs[i].id == k && Outcome(inputs[i], raw).0.Some?
    ensures forall i :: Writes.IsLastWrite(ValueSteps(inputs, raw), k, i) ==>
      Writes.Apply(map[], ValueSteps(inputs, raw))[k] == Outcome(inputs[i], raw).0.value
  {
    var vs := ValueSteps(inputs, raw);
    var ws := WarningSteps(inputs, raw);
    Writes.ApplyKeys(map[], vs, k);
    Writes.ApplyKeys(map[], ws, k);
    assert forall i :: 0 <= i < |inputs| ==>
      (Writes.Assigns(vs, k, i) <==> inputs[i].id == k && Outcome(inputs[i], raw).0.Some?) &&
      (Writes.Assigns(ws, k, i) <==> inputs[i].id == k && Outcome(inputs[i], raw).1.Some?);
    forall i | Writes.IsLastWrite(vs, k, i)
      ensures Writes.Apply(map[], vs)[k] == Outcome(inputs[i], raw).0.value
    {
      Writes.ApplyLast(map[], vs, k, i);
    }
  }

  /** Deeplink keys that name no field do not affect the merge. */
  lemma UnknownKeysIgnored(inputs: seq<PromptInput>, raw: map<string, JsValue>, k: string, v: JsValue)
    requires forall i :: 0 <= i < |inputs| ==> inputs[i].id != k
    ensures ValueSteps(inputs, raw[k := v]) == ValueSteps(inputs, raw)
    ensures WarningSteps(inputs, raw[k := v]) == WarningSteps(inputs, raw)
  {
    assert forall i :: 0 <= i < |inputs| ==> Supplied(raw[k := v], inputs[i].id) == Supplied(raw, inputs[i].id);
  }

  /** A required `false` checkbox counts as filled; an empty list does not. */
  lemma CompletenessExamples(input: PromptInput)
    requires input.required
    ensures CheckCompleteness([input], map[input.id := VBool(false)])
    ensures !CheckCompleteness([input], map[input.id := VList([])])
    ensures !CheckCompleteness([input], map[])
  {
    assert Lookup(map[input.id := VList([])], [input][0].id) == Some(VList([]));
  }

  /** Completeness is the required-field check over every field. */
  lemma CompletenessIsRequiredCheck(inputs: seq<PromptInput>, values: PromptValues)
    ensures CheckCompleteness(inputs, values) <==> BlankRequired(RequiredFlags(inputs, PromptFlag), values) == {}
  {
    NoBlankRequired(RequiredFlags(inputs, PromptFlag), values);
  }

  /** The (id, required) pair of a prompt field. */
  function PromptFlag(input: PromptInput): (string, bool)
  {
    (input.id, input.required)
  }
}
