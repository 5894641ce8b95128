/** `src/config/inputTemplates.ts`: per-type templates of field
    definitions, kept in local storage, and the `copy: <type>` shorthand that
    fills a user's field definition from a template. A field definition that
    has not been validated yet is a bag of attributes, `Partial<PromptInput>`,
    so it is modelled as a map from attribute name to JSON value, and object
    spread as map union. */
module InputTemplates {
  import opened Js

  type Partial = map<string, JsValue>
  type Templates = map<string, Partial>

  function Attr(p: Partial, k: string): JsValue
  {
    if k in p then p[k] else Undefined
  }

  function Opt(value: string, labelText: string): JsValue
  {
    Obj([("value", Str(value)), ("label", Str(labelText))])
  }

  const TextTemplate: Partial := map[
    "id" := Str("example_text"), "label" := Str("文本输入"), "type" := Str("text"),
    "required" := Bool(false), "default" := Str(""), "description" := Str("请输入文本内容"),
    "isExtraInput" := Bool(false)]

  const TextareaTemplate: Partial := map[
    "id" := Str("example_textarea"), "label" := Str("多行文本"), "type" := Str("textarea"),
    "required" := Bool(false), "default" := Str(""), "description" := Str("请输入多行文本内容"),
    "isExtraInput" := Bool(false)]

  const SelectTemplate: Partial := map[
    "id" := Str("example_select"), "label" := Str("单选下拉框"), "type" := Str("select"),
    "required" := Bool(false), "description" := Str("请选择一个选项"), "isExtraInput" := Bool(false),
    "options" := Arr([
      Obj([("value", Str("option1")), ("label", Str("选项 1")), ("isDefault", Bool(true))]),
      Opt("option2", "选项 2"),
      Obj([("value", Str("option3")), ("label", Str("选项 3")), ("extraInputs", Arr([]))])])]

  const MultiselectTemplate: Partial := map[
    "id" := Str("example_multiselect"), "label" := Str("多选标签"), "type" := Str("multiselect"),
    "required" := Bool(false), "description" := Str("可以选择多个选项"),
    "isExtraInput" := Bool(false), "default" := Arr([]),
    "options" := Arr([
      Opt("tag1", "标签 1"),
      Obj([("value", Str("tag2")), ("label", Str("标签 2")), ("isDefault", Bool(true))]),
      Obj([("value", Str("tag3")), ("label", Str("标签 3")), ("extraInputs", Arr([]))])])]

  const CheckboxTemplate: Partial := map[
    "id" := Str("example_checkbox"), "label" := Str("复选框"), "type" := Str("checkbox"),
    "required" := Bool(false), "default" := Bool(false), "description" := Str("勾选表示同意"),
    "isExtraInput" := Bool(false), "trueValue" := Str("true"), "falseValue" := Str("false")]

  const SelectInFolderTemplate: Partial := map[
    "id" := Str("example_select_in_folder"), "label" := Str("文件夹选择"),
    "type" := Str("selectInFolder"), "required" := Bool(false),
    "description" := Str("从指定文件夹中选择"), "isExtraInput" := Bool(false),
    "folder" := Str("/Users/yourname/Documents"), "valueItemType" := Num(0),
    "regIncludeFilter" := Str(""), "regExcludeFilter" := Str(""), "default" := Str("")]

  /** `DEFAULT_TEMPLATES`. */
  const DefaultTemplates: Templates := map[
    "text" := TextTemplate, "textarea" := TextareaTemplate, "select" := SelectTemplate,
    "multiselect" := MultiselectTemplate, "checkbox" := CheckboxTemplate,
    "selectInFolder" := SelectInFolderTemplate]

  const TypeNames: set<string> := {"text", "textarea", "select", "multiselect", "checkbox", "selectInFolder"}

  /** There is one default template per field type. */
  lemma DefaultTemplateTypes()
    ensures DefaultTemplates.Keys == TypeNames
  {
  }

  /** A template of type `t` names that type and carries a non-empty id
      and label. */
  predicate TemplateOf(t: string, p: Partial) {
    Attr(p, "type") == Str(t) && HasRequired(p)
  }

  lemma TextTemplateOk() ensures TemplateOf("text", TextTemplate) {}
  lemma TextareaTemplateOk() ensures TemplateOf("textarea", TextareaTemplate) {}
  lemma SelectTemplateOk() ensures TemplateOf("select", SelectTemplate) {}
  lemma MultiselectTemplateOk() ensures TemplateOf("multiselect", MultiselectTemplate) {}
  lemma CheckboxTemplateOk() ensures TemplateOf("checkbox", CheckboxTemplate) {}
  lemma SelectInFolderTemplateOk() ensures TemplateOf("selectInFolder", SelectInFolderTemplate) {}

  /** Every default template is a template of its own type. */
  lemma DefaultTemplatesWellFormed(t: string)
    requires t in DefaultTemplates
    ensures TemplateOf(t, DefaultTemplates[t])
  {
    if t == "text" {
      TextTemplateOk();
    } else if t == "textarea" {
      TextareaTemplateOk();
    } else if t == "select" {
      SelectTemplateOk();
    } else if t == "multiselect" {
      MultiselectTemplateOk();
    } else if t == "checkbox" {
      CheckboxTemplateOk();
    } else {
      SelectInFolderTemplateOk();
    }
  }

  /** `id`, `label` and `type` are all truthy. */
  predicate HasRequired(p: Partial) {
    Truthy(Attr(p, "id")) && Truthy(Attr(p, "label")) && Truthy(Attr(p, "type"))
  }

  /** A stored record overrides the defaults type by type. */
  function Overlay(defaults: Templates, stored: Option<Templates>): (r: Templates)
    ensures r.Keys == defaults.Keys + (if stored.Some? then stored.value.Keys else {})
    ensures forall t :: t in r ==>
      r[t] == (if stored.Some? && t in stored.value then stored.value[t] else defaults[t])
  {
    if stored.Some? then defaults + stored.value else defaults
  }

  /** `loadInputTemplates`: a stored record (already parsed) spread over the
      module's `DEFAULT_TEMPLATES` as they stand; without one, that object
      itself is returned. */
  function Loaded(defaults: Templates, stored: Option<Templates>): Templates
  {
    Overlay(defaults, stored)
  }

  /** `updateInputTemplate` as written. It gives the module's defaults and
      the stored record afterwards. With nothing stored, the load hands out
      `DEFAULT_TEMPLATES` itself, so the assignment also lands in the
      defaults; with a stored record the load builds a fresh object and the
      defaults stay as they were. */
  function UpdateAsWritten(defaults: Templates, stored: Option<Templates>, t: string, template: Partial)
    : (r: (Templates, Option<Templates>))
    ensures r.1 == Some(Loaded(defaults, stored)[t := template])
    ensures stored.Some? ==> r.0 == defaults
    ensures stored.None? ==> r.0 == defaults[t := template]
  {
    var templates := Loaded(defaults, stored)[t := template];
    if stored.None? then (templates, Some(templates)) else (defaults, Some(templates))
  }

  /** `updateInputTemplate` as evidently intended: the load hands out a
      copy, so the module's defaults never change. */
  function UpdateIntended(stored: Option<Templates>, t: string, template: Partial): (r: Option<Templates>)
    ensures r.Some? && r.value.Keys == DefaultTemplates.Keys + {t} + (if stored.Some? then stored.value.Keys else {})
    ensures r.Some? && r.value[t] == template
  {
    Some(Loaded(DefaultTemplates, stored)[t := template])
  }

  /** The template store: the module's `DEFAULT_TEMPLATES` object, which an
      update can change in place, and the record saved in local storage
      under `aurora_input_templates`, or none. */
  class TemplateStore {
    var defaults: Templates
    var saved: Option<Templates>

    constructor ()
      ensures defaults == DefaultTemplates && saved.None?
    {
      defaults := DefaultTemplates;
      saved := None;
    }

    function Load(): Templates
      reads this
    {
      Loaded(defaults, saved)
    }

    /** `saveInputTemplates`. The record is stored as its JSON text, so
        later changes to the object passed in do not reach it. */
    method Save(templates: Templates)
      modifies this
      ensures saved == Some(templates) && defaults == old(defaults)
    {
      saved := Some(templates);
    }

    /** `getInputTemplate`: the loaded template of a type, if any. */
    method Get(t: string) returns (r: Option<Partial>)
      ensures r.Some? <==> t in Load()
      ensures r.Some? ==> r.value == Load()[t]
    {
      var templates := Loaded(defaults, saved);
      r := if t in templates then Some(templates[t]) else None;
    }

    /** `updateInputTemplate`: load, assign the one type, save. */
    method Update(t: string, template: Partial)
      modifies this
      ensures (defaults, saved) == UpdateAsWritten(old(defaults), old(saved), t, template)
    {
      var templates := Loaded(defaults, saved);
      templates := templates[t := template];
      if saved.None? {
        defaults := templates;
      }
      Save(templates);
    }

    /** `resetInputTemplates`: saves `DEFAULT_TEMPLATES` as it now stands. */
    method Reset()
      modifies this
      ensures saved == Some(old(defaults)) && defaults == old(defaults)
    {
      Save(defaults);
    }
  }

  /** Loading after saving an update of `t` reads back the new template,
      keeps every other type and still covers every default type. */
  lemma OverlayUpdate(defaults: Templates, before: Option<Templates>, t: string, template: Partial, u: string)
    ensures var after := Some(Overlay(defaults, before)[t := template]);
      Overlay(defaults, after)[t] == template &&
      (u != t && u in Overlay(defaults, before) ==>
        u in Overlay(defaults, after) && Overlay(defaults, after)[u] == Overlay(defaults, before)[u]) &&
      defaults.Keys <= Overlay(defaults, after).Keys
  {
  }

  /** The same for the store as written: after an update the store loads
      the new template, and every other type as before. */
  lemma UpdateThenLoad(defaults: Templates, before: Option<Templates>, t: string, template: Partial, u: string)
    ensures var (defaults', after) := UpdateAsWritten(defaults, before, t, template);
      Loaded(defaults', after)[t] == template &&
      (u != t && u in Loaded(defaults, before) ==>
        u in Loaded(defaults', after) && Loaded(defaults', after)[u] == Loaded(defaults, before)[u]) &&
      defaults.Keys <= Loaded(defaults', after).Keys
  {
    var (defaults', after) := UpdateAsWritten(defaults, before, t, template);
    OverlayUpdate(defaults, before, t, template, u);
    assert Loaded(defaults', after) == Loaded(defaults, after);
  }

  /** After a reset the store loads the module's defaults as they stand. */
  lemma ResetThenLoad(defaults: Templates)
    ensures Loaded(defaults, Some(defaults)) == defaults
  {
  }

  /** A call of `updateInputTemplate` or `resetInputTemplates` within one
      session. */
  datatype TemplateOp = UpdateOp(t: string, template: Partial) | ResetOp

  /** The module's defaults and the stored record after running `ops` in
      order, as written. */
  function RunAsWritten(defaults: Templates, stored: Option<Templates>, ops: seq<TemplateOp>)
    : (r: (Templates, Option<Templates>))
    ensures stored.Some? ==> r.0 == defaults && r.1.Some?
    decreases |ops|
  {
    if |ops| == 0 then (defaults, stored)
    else match ops[0]
      case UpdateOp(t, template) =>
        var (defaults', stored') := UpdateAsWritten(defaults, stored, t, template);
        RunAsWritten(defaults', stored', ops[1..])
      case ResetOp => RunAsWritten(defaults, Some(defaults), ops[1..])
  }

  /** The stored record after running `ops` in order, as intended: the
      defaults are the built-in templates throughout. */
  function RunIntended(stored: Option<Templates>, ops: seq<TemplateOp>): Option<Templates>
    decreases |ops|
  {
    if |ops| == 0 then stored
    else match ops[0]
      case UpdateOp(t, template) => RunIntended(UpdateIntended(stored, t, template), ops[1..])
      case ResetOp => RunIntended(Some(DefaultTemplates), ops[1..])
  }

  /** As written, an update made while nothing is stored changes
      `DEFAULT_TEMPLATES` itself, and a later reset saves the change: the
      store then loads the edited template, not the built-in one. */
  lemma FallbackUpdateSurvivesReset(t: string, template: Partial)
    requires t in DefaultTemplates && template != DefaultTemplates[t]
    ensures var (defaults, stored) := RunAsWritten(DefaultTemplates, None, [UpdateOp(t, template), ResetOp]);
      Loaded(defaults, stored)[t] == template &&
      Loaded(defaults, stored) != DefaultTemplates
  {
    var (d1, s1) := UpdateAsWritten(DefaultTemplates, None, t, template);
    assert [UpdateOp(t, template), ResetOp][1..] == [ResetOp];
    assert RunAsWritten(d1, s1, [ResetOp]) == (d1, Some(d1));
  }

  /** Once a record is stored, the store as written behaves as intended:
      the defaults are no longer written. */
  lemma {:induction false} AsWrittenAgreesWhenStored(stored: Templates, ops: seq<TemplateOp>)
    ensures RunAsWritten(DefaultTemplates, Some(stored), ops) == (DefaultTemplates, RunIntended(Some(stored), ops))
    decreases |ops|
  {
    if |ops| > 0 {
      match ops[0]
      case UpdateOp(t, template) =>
        AsWrittenAgreesWhenStored(Loaded(DefaultTemplates, Some(stored))[t := template], ops[1..]);
      case ResetOp =>
        AsWrittenAgreesWhenStored(DefaultTemplates, ops[1..]);
    }
  }

  /** As intended, a reset at the end of any session restores the built-in
      templates, whatever was stored and updated before. */
  lemma {:induction false} IntendedResetRestores(stored: Option<Templates>, ops: seq<TemplateOp>)
    ensures var r := RunIntended(stored, ops + [ResetOp]);
      r == Some(DefaultTemplates) && Loaded(DefaultTemplates, r) == DefaultTemplates
    decreases |ops|
  {
    if |ops| == 0 {
      assert ops + [ResetOp] == [ResetOp];
    } else {
      assert (ops + [ResetOp])[1..] == ops[1..] + [ResetOp];
      match ops[0]
      case UpdateOp(t, template) =>
        IntendedResetRestores(UpdateIntended(stored, t, template), ops[1..]);
      case ResetOp =>
        IntendedResetRestores(Some(DefaultTemplates), ops[1..]);
    }
  }

  /** `mergeInputWithTemplate`. With a truthy `copy`, the named template is
      overlaid by the user's attributes other than `copy`; without one, the
      user's definition is taken as it is. Either way a result lacking a
      truthy `id`, `label` or `type` is `null`. */
  function MergeInput(user: Partial, templates: Templates): (r: Option<Partial>)
    ensures r.Some? ==> HasRequired(r.value)
  {
    var copy := Attr(user, "copy");
    if Truthy(copy) then
      var t := ToJsString(copy);
      if t !in templates then None
      else
        var merged := templates[t] + (user - {"copy"});
        if HasRequired(merged) then Some(merged) else None
    else if HasRequired(user) then Some(user)
    else None
  }

  /** The user's attributes win over the template's, the template fills in
      the rest, and `copy` itself is dropped. */
  lemma MergeUserWins(user: Partial, templates: Templates, k: string)
    requires Truthy(Attr(user, "copy")) && MergeInput(user, templates).Some?
    ensures var t := ToJsString(Attr(user, "copy"));
      var r := MergeInput(user, templates).value;
      t in templates &&
      (k in user && k != "copy" ==> k in r && r[k] == user[k]) &&
      (k !in user && k in templates[t] ==> k in r && r[k] == templates[t][k]) &&
      (k == "copy" ==> (k in r <==> k in templates[t]))
  {
  }

  /** A copy of an unknown type gives `null`. */
  lemma UnknownTemplateIsNull(user: Partial, templates: Templates)
    requires Truthy(Attr(user, "copy")) && ToJsString(Attr(user, "copy")) !in templates
    ensures MergeInput(user, templates).None?
  {
  }

  /** Without `copy`, a definition is kept exactly when it has the three
      required attributes. */
  lemma NoCopyKeptAsIs(user: Partial, templates: Templates)
    requires !Truthy(Attr(user, "copy"))
    ensures MergeInput(user, templates) == (if HasRequired(user) then Some(user) else None)
  {
  }

  /** `{copy: "checkbox", id: "agree"}` against the defaults is the checkbox
      template with its id replaced. */
  lemma CopyDefaultCheckbox()
    ensures MergeInput(map["copy" := Str("checkbox"), "id" := Str("agree")], DefaultTemplates)
      == Some(CheckboxTemplate["id" := Str("agree")])
  {
    CheckboxTemplateOk();
    var user := map["copy" := Str("checkbox"), "id" := Str("agree")];
    var rest := map["id" := Str("agree")];
    assert ToJsString(Attr(user, "copy")) == "checkbox";
    assert user - {"copy"} == rest;
    assert DefaultTemplates["checkbox"] == CheckboxTemplate;
    CopyOverlay(CheckboxTemplate, rest);
  }

  /** Overlaying a template with a new truthy id keeps it well formed. */
  lemma CopyOverlay(template: Partial, rest: map<string, JsValue>)
    requires HasRequired(template) && rest.Keys == {"id"} && Truthy(rest["id"])
    ensures template + rest == template["id" := rest["id"]]
    ensures HasRequired(template + rest)
  {
  }

  /** `mergeInputsWithTemplates`: every definition merged, the `null`s
      dropped, order kept. */
  function MergeAll(users: seq<Partial>, templates: Templates): (r: seq<Partial>)
    ensures |r| <= |users|
    ensures forall i :: 0 <= i < |r| ==> HasRequired(r[i])
    decreases |users|
  {
    if |users| == 0 then []
    else
      var init := MergeAll(users[..|users| - 1], templates);
      match MergeInput(users[|users| - 1], templates)
      case Some(p) => init + [p]
      case None => init
  }

  /** The results are exactly the merges that succeed. */
  lemma {:induction false} MergeAllContents(users: seq<Partial>, templates: Templates, p: Partial)
    ensures p in MergeAll(users, templates) <==> exists i :: 0 <= i < |users| && MergeInput(users[i], templates) == Some(p)
    decreases |users|
  {
    if |users| > 0 {
      var init := users[..|users| - 1];
      MergeAllContents(init, templates, p);
      assert forall i :: 0 <= i < |init| ==> init[i] == users[i];
      if exists i :: 0 <= i < |users| && MergeInput(users[i], templates) == Some(p) {
        var i :| 0 <= i < |users| && MergeInput(users[i], templates) == Some(p);
        if i < |init| {
          assert MergeInput(init[i], templates) == Some(p);
        }
      }
    }
  }

  /** The `map` and `filter` over the user definitions. */
  method MergeInputsWithTemplates(users: seq<Partial>, templates: Templates) returns (r: seq<Partial>)
    ensures r == MergeAll(users, templates)
  {
    r := [];
    var i := 0;
    while i < |users|
      invariant 0 <= i <= |users|
      invariant r == MergeAll(users[..i], templates)
    {
      assert users[..i + 1][..i] == users[..i];
      var merged := MergeInput(users[i], templates);
      if merged.Some? {
        r := r + [merged.value];
      }
      i := i + 1;
    }
    assert users[..i] == users;
  }
}
