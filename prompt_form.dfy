/** The logic of `src/components/PromptForm.tsx`: the form's state (the
    prompt configuration, the form values and the error map), default
    initialisation, validation, field changes, saving values back as
    defaults, replacing an edited field, composing the copied command and
    the prompt text.

    Two call sites do not match the functions they call (see README,
    Findings): the visibility functions are handed `PromptInput` records,
    whose option list is `options`, while they read `values`; and
    `replaceTemplate` is handed `config.inputs` where it expects the
    selection text. Each is modelled as written (`...AsWritten`) and as
    evidently intended; the form state uses the intended version. */
module PromptForm {
  import opened Js
  import opened PromptTypes
  import opened FormState
  import ExtraInputs
  import Deeplink
  import Template
  import Placeholders
  import Writes
  import ConfigWriter

  // ---------------------------------------------------------------- visibility

  /** How the visibility algorithm sees a `PromptInput` as written: it reads
      `input.values`, which a `PromptInput` does not have. */
  function FieldAsWritten(p: PromptInput): (f: ExtraInputs.Field)
    ensures f.id == p.id && f.isExtra == p.isExtraInput && f.choices.None?
  {
    ExtraInputs.Field(p.id, p.isExtraInput, None)
  }

  /** The evident intent: the option list is `options`. */
  function Field(p: PromptInput): (f: ExtraInputs.Field)
    ensures f.id == p.id && f.isExtra == p.isExtraInput
    ensures f.choices.Some? <==> p.options.Some?
    ensures p.options.Some? ==> (|f.choices.value| == |p.options.value| &&
      forall i :: 0 <= i < |p.options.value| ==>
        f.choices.value[i] == ExtraInputs.Choice(p.options.value[i].value, p.options.value[i].extraInputs))
  {
    ExtraInputs.Field(p.id, p.isExtraInput,
      if p.options.None? then None
      else Some(seq(|p.options.value|, i requires 0 <= i < |p.options.value| =>
        ExtraInputs.Choice(p.options.value[i].value, p.options.value[i].extraInputs))))
  }

  function FieldsAsWritten(inputs: seq<PromptInput>): (fs: seq<ExtraInputs.Field>)
    ensures |fs| == |inputs| && forall i :: 0 <= i < |inputs| ==> fs[i] == FieldAsWritten(inputs[i])
  {
    seq(|inputs|, i requires 0 <= i < |inputs| => FieldAsWritten(inputs[i]))
  }

  function Fields(inputs: seq<PromptInput>): (fs: seq<ExtraInputs.Field>)
    ensures |fs| == |inputs| && forall i :: 0 <= i < |inputs| ==> fs[i] == Field(inputs[i])
  {
    seq(|inputs|, i requires 0 <= i < |inputs| => Field(inputs[i]))
  }

  /** `getVisibleInputIds(config.inputs, values)` as written. */
  function VisibleIdsAsWritten(inputs: seq<PromptInput>, values: PromptValues): set<string>
  {
    ExtraInputs.VisibleIds(FieldsAsWritten(inputs), values)
  }

  /** `getVisibleInputIds(config.inputs, values)` as intended. */
  function VisibleIds(inputs: seq<PromptInput>, values: PromptValues): set<string>
  {
    ExtraInputs.VisibleIds(Fields(inputs), values)
  }

  /** `getVisibleInputs(config.inputs, values)` as intended. */
  function VisibleInputs(inputs: seq<PromptInput>, values: PromptValues): (r: seq<PromptInput>)
    ensures forall x :: x in r <==> x in inputs && x.id in VisibleIds(inputs, values)
  {
    ExtraInputs.FilterById(inputs, (p: PromptInput) => p.id, VisibleIds(inputs, values))
  }

  /** With no option list visible to it, the second loop adds nothing. */
  lemma {:induction false} PassWithoutChoices(fields: seq<ExtraInputs.Field>, values: PromptValues, start: set<string>)
    requires forall i :: 0 <= i < |fields| ==> fields[i].choices.None?
    ensures ExtraInputs.Pass(fields, values, start) == start
    decreases |fields|
  {
    if |fields| > 0 {
      PassWithoutChoices(fields[..|fields| - 1], values, start);
    }
  }

  /** As written, the visible fields are exactly the non-conditional ones,
      whatever the values: no option ever reveals a conditional field. */
  lemma AsWrittenRevealsNothing(inputs: seq<PromptInput>, values: PromptValues, x: string)
    ensures x in VisibleIdsAsWritten(inputs, values) <==>
      exists i :: 0 <= i < |inputs| && !inputs[i].isExtraInput && inputs[i].id == x
  {
    var fs := FieldsAsWritten(inputs);
    PassWithoutChoices(fs, values, ExtraInputs.Seed(fs));
    ExtraInputs.SeedIff(fs, x);
  }

  /** A "mode" select whose option "detail" reveals a required "notes" field. */
  function ModeInput(): PromptInput
  {
    PromptInput("mode", "Mode", Select, false, None, None, false,
      Some([PromptOption("detail", None, false, Some(["notes"]))]), None, None, None)
  }

  function NotesInput(): PromptInput
  {
    PromptInput("notes", "Notes", Textarea, true, None, None, true, None, None, None, None)
  }

  /** Selecting "detail" reveals "notes" only in the intended reading. */
  lemma NotesRevealedOnlyAsIntended()
    ensures "notes" !in VisibleIdsAsWritten([ModeInput(), NotesInput()], map["mode" := VStr("detail")])
    ensures "notes" in VisibleIds([ModeInput(), NotesInput()], map["mode" := VStr("detail")])
  {
    var inputs := [ModeInput(), NotesInput()];
    var values := map["mode" := VStr("detail")];
    AsWrittenRevealsNothing(inputs, values, "notes");
    var fs := Fields(inputs);
    assert fs[..1] == [fs[0]] && [fs[0]][..0] == [];
    assert ExtraInputs.Seed(fs[..1]) == {"mode"} by {
      assert fs[..1][..0] == [];
    }
    assert fs[1] == Field(NotesInput()) && fs[1].isExtra;
    assert ExtraInputs.Seed(fs) == {"mode"};
    ExtraInputs.ElemsOne("notes");
    assert Field(ModeInput()).choices.value == [ExtraInputs.Choice("detail", Some(["notes"]))];
    assert ExtraInputs.Pass(fs[..1], values, {"mode"}) == {"mode", "notes"};
    ExtraInputs.PassGrows(fs[1..], values, {"mode", "notes"});
    assert ExtraInputs.Pass(fs, values, {"mode"}) == {"mode", "notes"};
  }

  // ----------------------------------------------------- default initialisation

  function PromptDefaults(inputs: seq<PromptInput>): (ds: seq<Defaults>)
    ensures |ds| == |inputs| && forall i :: 0 <= i < |inputs| ==> ds[i] == Deeplink.DefaultsOf(inputs[i])
  {
    seq(|inputs|, i requires 0 <= i < |inputs| => Deeplink.DefaultsOf(inputs[i]))
  }

  /** The initial form values of lines 63-82 and 413-428. */
  function InitValues(inputs: seq<PromptInput>): PromptValues
  {
    Writes.Apply(map[], InitSteps(PromptDefaults(inputs)))
  }

  /** An id gets an initial value iff some field with that id has a
      default; the value is `getDefaultValue` of the last such field. */
  lemma InitValuesAt(inputs: seq<PromptInput>, k: string, i: int)
    requires IsLastDefault(PromptDefaults(inputs), k, i)
    ensures k in InitValues(inputs) && InitValues(inputs)[k] == Deeplink.GetDefaultValue(inputs[i]).value
  {
    InitialValuesAt(PromptDefaults(inputs), k);
  }

  lemma InitValuesKeys(inputs: seq<PromptInput>, k: string)
    ensures k in InitValues(inputs) <==>
      exists i :: 0 <= i < |inputs| && inputs[i].id == k && Deeplink.GetDefaultValue(inputs[i]).Some?
  {
    InitialValuesAt(PromptDefaults(inputs), k);
  }

  // ------------------------------------------------------ saving and editing

  /** `saveFormValues`: every field's `default` becomes `values[id]`,
      possibly undefined, and nothing else of the field changes. */
  function SavedInputs(inputs: seq<PromptInput>, values: PromptValues): (r: seq<PromptInput>)
    ensures |r| == |inputs|
    ensures forall i :: 0 <= i < |inputs| ==> r[i] == inputs[i].(default := Lookup(values, inputs[i].id))
  {
    seq(|inputs|, i requires 0 <= i < |inputs| => inputs[i].(default := Lookup(values, inputs[i].id)))
  }

  /** The configuration `saveFormValues` writes, with `Date.now()` as `now`. */
  function SavedConfig(config: PromptConfig, values: PromptValues, now: int): PromptConfig
  {
    config.(inputs := SavedInputs(config.inputs, values), lastUseTime := Some(now))
  }

  /** Saving the submitted values and initialising the form again gives
      back every submitted value of a field. */
  lemma SaveThenInitRestores(inputs: seq<PromptInput>, values: PromptValues, k: string, j: int)
    requires 0 <= j < |inputs| && inputs[j].id == k && k in values
    ensures k in InitValues(SavedInputs(inputs, values))
    ensures InitValues(SavedInputs(inputs, values))[k] == values[k]
  {
    var saved := SavedInputs(inputs, values);
    var ds := PromptDefaults(saved);
    var ws := InitSteps(ds);
    assert forall i :: 0 <= i < |saved| && saved[i].id == k ==> DefaultOf(ds[i]) == Some(values[k]);
    assert Writes.Assigns(ws, k, j);
    Writes.LastWriteExists(ws, k, j);
    var last :| Writes.IsLastWrite(ws, k, last);
    Writes.ApplyLast(map[], ws, k, last);
  }

  /** `handleSaveInput`: the field with the edited field's id is replaced. */
  function ReplaceById(inputs: seq<PromptInput>, updated: PromptInput): (r: seq<PromptInput>)
    ensures |r| == |inputs|
    ensures forall i :: 0 <= i < |inputs| ==> r[i] == (if inputs[i].id == updated.id then updated else inputs[i])
  {
    seq(|inputs|, i requires 0 <= i < |inputs| => if inputs[i].id == updated.id then updated else inputs[i])
  }

  /** Replacing is idempotent, and the ids stay as they were. */
  lemma ReplaceByIdStable(inputs: seq<PromptInput>, updated: PromptInput)
    ensures ReplaceById(ReplaceById(inputs, updated), updated) == ReplaceById(inputs, updated)
    ensures forall i :: 0 <= i < |inputs| ==> ReplaceById(inputs, updated)[i].id == inputs[i].id
  {
  }

  // --------------------------------------------------- substitution call sites

  /** `String(config.inputs)`: each record prints as "[object Object]". */
  function InputsAsString(inputs: seq<PromptInput>): (r: string)
  {
    Join(seq(|inputs|, i requires 0 <= i < |inputs| => "[object Object]"), ",")
  }

  lemma InputsAsStringHasNoBrace(inputs: seq<PromptInput>)
    ensures '{' !in InputsAsString(inputs)
    ensures '$' !in InputsAsString(inputs)
  {
    var parts := seq(|inputs|, i requires 0 <= i < |inputs| => "[object Object]");
    JoinAvoids(parts, ",", '{');
    JoinAvoids(parts, ",", '$');
  }

  /** `generatePrompt` as written: the field list sits in the selection slot
      and the selection text in the clipboard slot. */
  function GeneratePromptAsWritten(content: string, values: PromptValues, inputs: seq<PromptInput>,
                                   selection: string, clipboard: string): string
  {
    Template.ReplaceTemplate(content, values, VisibleIdsAsWritten(inputs, values),
      Some(InputsAsString(inputs)), Some(selection))
  }

  /** `generatePrompt` as intended, with the intended visibility. The
      selection text is "" when it cannot be read, and so is the clipboard. */
  function GeneratePrompt(content: string, values: PromptValues, inputs: seq<PromptInput>,
                          selection: string, clipboard: string): string
  {
    Template.ReplaceTemplate(content, values, VisibleIds(inputs, values), Some(selection), Some(clipboard))
  }

  /** A launcher token alone, for launcher text without braces or dollars. */
  lemma LauncherTokens(values: PromptValues, visible: set<string>, s: Option<string>, c: Option<string>)
    requires '{' !in OrEmpty(s) && '$' !in OrEmpty(s) && '{' !in OrEmpty(c) && '$' !in OrEmpty(c)
    ensures Template.ReplaceTemplate("{selection}", values, visible, s, c) == OrEmpty(s)
    ensures Template.ReplaceTemplate("{clipboard}", values, visible, s, c) == OrEmpty(c)
  {
    var f := n => Template.TemplateText(values, visible, n);
    ReplaceAllWhole("{selection}", OrEmpty(s));
    FirstCharAbsent(OrEmpty(s), "{clipboard}");
    ReplaceAllNoMatch(OrEmpty(s), "{clipboard}", OrEmpty(c));
    Placeholders.NoBracesUnchanged(Placeholders.Word, OrEmpty(s), f);
    SameLengthAbsent("{clipboard}", "{selection}");
    ReplaceAllNoMatch("{clipboard}", "{selection}", OrEmpty(s));
    ReplaceAllWhole("{clipboard}", OrEmpty(c));
    Placeholders.NoBracesUnchanged(Placeholders.Word, OrEmpty(c), f);
  }

  /** As written, `{selection}` renders the field list and `{clipboard}`
      renders the selection. */
  lemma GeneratePromptAsWrittenSlots(values: PromptValues, inputs: seq<PromptInput>, selection: string, clipboard: string)
    requires '{' !in selection && '$' !in selection
    ensures GeneratePromptAsWritten("{selection}", values, inputs, selection, clipboard) == InputsAsString(inputs)
    ensures GeneratePromptAsWritten("{clipboard}", values, inputs, selection, clipboard) == selection
  {
    InputsAsStringHasNoBrace(inputs);
    LauncherTokens(values, VisibleIdsAsWritten(inputs, values), Some(InputsAsString(inputs)), Some(selection));
  }

  /** As intended, `{selection}` renders the selection and `{clipboard}` the
      clipboard. */
  lemma GeneratePromptSlots(values: PromptValues, inputs: seq<PromptInput>, selection: string, clipboard: string)
    requires '{' !in selection && '$' !in selection && '{' !in clipboard && '$' !in clipboard
    ensures GeneratePrompt("{selection}", values, inputs, selection, clipboard) == selection
    ensures GeneratePrompt("{clipboard}", values, inputs, selection, clipboard) == clipboard
  {
    LauncherTokens(values, VisibleIds(inputs, values), Some(selection), Some(clipboard));
  }

  /** The four-argument calls (copied command, URL of a failed request) as
      written: the field list sits in the selection slot, the clipboard slot
      is empty. */
  function RenderAsWritten(text: string, values: PromptValues, inputs: seq<PromptInput>): string
  {
    Template.ReplaceTemplate(text, values, VisibleIdsAsWritten(inputs, values), Some(InputsAsString(inputs)), None)
  }

  /** The four-argument calls as intended: no launcher text. */
  function Render(text: string, values: PromptValues, inputs: seq<PromptInput>): string
  {
    Template.ReplaceTemplate(text, values, VisibleIds(inputs, values), None, None)
  }

  lemma RenderSelection(values: PromptValues, inputs: seq<PromptInput>)
    ensures RenderAsWritten("{selection}", values, inputs) == InputsAsString(inputs)
    ensures Render("{selection}", values, inputs) == ""
    ensures RenderAsWritten("{selection}", values, [NotesInput()]) == "[object Object]"
  {
    InputsAsStringHasNoBrace(inputs);
    LauncherTokens(values, VisibleIdsAsWritten(inputs, values), Some(InputsAsString(inputs)), None);
    LauncherTokens(values, VisibleIds(inputs, values), None, None);
    InputsAsStringHasNoBrace([NotesInput()]);
    LauncherTokens(values, VisibleIdsAsWritten([NotesInput()], values), Some(InputsAsString([NotesInput()])), None);
  }

  /** The copied command: the rendered command line, then a space and the
      rendered arguments joined by spaces whenever `args` exists. */
  function CopiedCommand(command: CommandConfig, values: PromptValues, inputs: seq<PromptInput>): (r: string)
  {
    var line := Render(command.commandLine, values, inputs);
    if command.args.Some? then
      line + " " + Join(seq(|command.args.value|, i requires 0 <= i < |command.args.value| =>
        Render(command.args.value[i], values, inputs)), " ")
    else line
  }

  /** The command line is a prefix; an empty argument list still adds the
      space; without arguments the command line is the whole result. */
  lemma CopiedCommandShape(command: CommandConfig, values: PromptValues, inputs: seq<PromptInput>)
    ensures StartsWith(CopiedCommand(command, values, inputs), Render(command.commandLine, values, inputs))
    ensures command.args == Some([]) ==> CopiedCommand(command, values, inputs) == Render(command.commandLine, values, inputs) + " "
    ensures command.args.None? ==> CopiedCommand(command, values, inputs) == Render(command.commandLine, values, inputs)
  {
    var line := Render(command.commandLine, values, inputs);
    assert CopiedCommand(command, values, inputs)[..|line|] == line;
  }

  // ---------------------------------------------------------------- the state

  /** The component's state. */
  class PromptFormState {
    var config: PromptConfig
    var formValues: PromptValues
    var errors: map<string, string>

    /** Mounting: the configuration is taken, then the initialisation effect runs. */
    constructor (initial: PromptConfig)
      ensures config == initial && formValues == InitValues(initial.inputs) && errors == map[]
    {
      config := initial;
      var vs := InitialValues(PromptDefaults(initial.inputs));
      formValues := vs;
      errors := map[];
    }

    /** The effect of lines 63-82. */
    method Init()
      modifies this`formValues
      ensures formValues == InitValues(config.inputs)
    {
      formValues := InitialValues(PromptDefaults(config.inputs));
    }

    /** `handleFieldChange`. */
    method HandleFieldChange(id: string, v: Value)
      modifies this`formValues, this`errors
      ensures (formValues, errors) == FieldChange(old(formValues), old(errors), id, v)
    {
      formValues := formValues[id := v];
      if id in errors && errors[id] != "" {
        errors := errors - {id};
      }
    }

    /** `validateForm`: only visible fields are checked. */
    method ValidateForm(values: PromptValues) returns (ok: bool)
      modifies this`errors
      ensures errors == MessagesFor(BlankRequired(RequiredFlags(VisibleInputs(config.inputs, values), Deeplink.PromptFlag), values))
      ensures ok <==> errors == map[]
    {
      var visible := VisibleInputs(config.inputs, values);
      var e, okay := RequiredErrors(RequiredFlags(visible, Deeplink.PromptFlag), values);
      errors := e;
      ok := |errors| == 0;
    }

    /** `saveFormValues`. `savePromptConfig` runs first and throws when
        the configuration has no path or, as `written` says, when the
        serialiser or the file write fails; the state is then left as it
        was and `saved` is false. Otherwise `setConfig` re-runs the
        `[config]` effect, which initialises the values from the new
        defaults. */
    method SaveFormValues(values: PromptValues, now: int, written: bool) returns (saved: bool)
      modifies this`config, this`formValues
      ensures saved <==> !ConfigWriter.PathMissing(old(config).filePath) && written
      ensures config == if saved then SavedConfig(old(config), values, now) else old(config)
      ensures formValues == if saved then InitValues(config.inputs) else old(formValues)
    {
      var newConfig := SavedConfig(config, values, now);
      if ConfigWriter.PathMissing(newConfig.filePath) || !written {
        return false;
      }
      config := newConfig;
      Init();
      saved := true;
    }

    /** `handleSaveInput`: the same save, then the new configuration and
        freshly initialised values; nothing changes when the save throws. */
    method HandleSaveInput(updated: PromptInput, written: bool) returns (saved: bool)
      modifies this`config, this`formValues
      ensures saved <==> !ConfigWriter.PathMissing(old(config).filePath) && written
      ensures config == if saved then old(config).(inputs := ReplaceById(old(config).inputs, updated)) else old(config)
      ensures formValues == if saved then InitValues(config.inputs) else old(formValues)
    {
      var newConfig := config.(inputs := ReplaceById(config.inputs, updated));
      if ConfigWriter.PathMissing(newConfig.filePath) || !written {
        return false;
      }
      config := newConfig;
      formValues := InitialValues(PromptDefaults(config.inputs));
      saved := true;
    }
  }

  /** A field has a validation error iff a visible field with that id is
      required and blank; a `false` checkbox never errors. */
  lemma ValidationErrorIff(inputs: seq<PromptInput>, values: PromptValues, k: string)
    ensures k in BlankRequired(RequiredFlags(VisibleInputs(inputs, values), Deeplink.PromptFlag), values) <==>
      k in VisibleIds(inputs, values) && IsBlank(Lookup(values, k)) &&
      exists i :: 0 <= i < |inputs| && inputs[i].id == k && inputs[i].required
  {
    BlankRequiredIff(RequiredFlags(VisibleInputs(inputs, values), Deeplink.PromptFlag), values, k);
    if k in BlankRequired(RequiredFlags(VisibleInputs(inputs, values), Deeplink.PromptFlag), values) {
      ErrorIsVisibleRequired(inputs, values, k);
    }
    if k in VisibleIds(inputs, values) && IsBlank(Lookup(values, k)) &&
       exists i :: 0 <= i < |inputs| && inputs[i].id == k && inputs[i].required {
      var i :| 0 <= i < |inputs| && inputs[i].id == k && inputs[i].required;
      VisibleRequiredIsError(inputs, values, i);
    }
  }

  lemma ErrorIsVisibleRequired(inputs: seq<PromptInput>, values: PromptValues, k: string)
    requires var flags := RequiredFlags(VisibleInputs(inputs, values), Deeplink.PromptFlag);
      exists j :: 0 <= j < |flags| && flags[j].0 == k && flags[j].1 && IsBlank(Lookup(values, k))
    ensures k in VisibleIds(inputs, values) && IsBlank(Lookup(values, k))
    ensures exists i :: 0 <= i < |inputs| && inputs[i].id == k && inputs[i].required
  {
    var vis := VisibleInputs(inputs, values);
    var flags := RequiredFlags(vis, Deeplink.PromptFlag);
    var j :| 0 <= j < |flags| && flags[j].0 == k && flags[j].1 && IsBlank(Lookup(values, k));
    assert vis[j] in vis;
    var i :| 0 <= i < |inputs| && inputs[i] == vis[j];
    assert inputs[i].id == k && inputs[i].required;
  }

  lemma VisibleRequiredIsError(inputs: seq<PromptInput>, values: PromptValues, i: int)
    requires 0 <= i < |inputs| && inputs[i].required
    requires inputs[i].id in VisibleIds(inputs, values) && IsBlank(Lookup(values, inputs[i].id))
    ensures var flags := RequiredFlags(VisibleInputs(inputs, values), Deeplink.PromptFlag);
      exists j :: 0 <= j < |flags| && flags[j].0 == inputs[i].id && flags[j].1 && IsBlank(Lookup(values, inputs[i].id))
  {
    var vis := VisibleInputs(inputs, values);
    var flags := RequiredFlags(vis, Deeplink.PromptFlag);
    assert inputs[i] in vis;
    var j :| 0 <= j < |vis| && vis[j] == inputs[i];
    assert flags[j] == (inputs[i].id, true);
  }

}
