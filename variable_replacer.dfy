/** `src/utils/variableReplacer.ts`: the `{{name}}` substituter used for
    command execution (names `[\w-]+`, the value rendering passed in by the
    caller) and the pass for the launcher's own `{selection}` and
    `{clipboard}` variables. */
module VariableReplacer {
  import opened Js
  import opened PromptTypes
  import opened Placeholders

  /** `valueConverter`: renders a value given the field's configuration. */
  type Converter = (Value, Option<PromptInput>) -> string

  /** The configuration `inputMap.get(id)` returns: the last input carrying
      that id, since the map is filled in list order. */
  function LastById(inputs: seq<PromptInput>, id: string): (r: Option<PromptInput>)
    ensures r.None? <==> forall i :: 0 <= i < |inputs| ==> inputs[i].id != id
    ensures r.Some? ==> r.value.id == id
    ensures r.Some? ==>
      exists k :: 0 <= k < |inputs| && inputs[k] == r.value && forall j :: k < j < |inputs| ==> inputs[j].id != id
    decreases |inputs|
  {
    if |inputs| == 0 then None
    else if inputs[|inputs| - 1].id == id then Some(inputs[|inputs| - 1])
    else LastById(inputs[..|inputs| - 1], id)
  }

  /** The `forEach` that fills `inputMap` (lines 46-49). */
  method BuildInputMap(inputs: seq<PromptInput>) returns (m: map<string, PromptInput>)
    ensures forall id :: id in m <==> LastById(inputs, id).Some?
    ensures forall id :: id in m ==> LastById(inputs, id) == Some(m[id])
  {
    m := map[];
    var i := 0;
    while i < |inputs|
      invariant 0 <= i <= |inputs|
      invariant forall id :: id in m <==> LastById(inputs[..i], id).Some?
      invariant forall id :: id in m ==> LastById(inputs[..i], id) == Some(m[id])
    {
      assert inputs[..i + 1][..i] == inputs[..i];
      m := m[inputs[i].id := inputs[i]];
      i := i + 1;
    }
    assert inputs[..i] == inputs;
  }

  /** The text the replace callback returns for the name `name`. */
  function UserVariableText(values: PromptValues, visible: set<string>, inputs: seq<PromptInput>,
                            convert: Converter, name: string): string
  {
    if name !in visible then ""
    else if name !in values then ""
    else convert(values[name], LastById(inputs, name))
  }

  /** What `replaceUserVariables` returns. */
  function UserVariables(template: string, values: PromptValues, visible: set<string>,
                         inputs: seq<PromptInput>, convert: Converter): string
  {
    Substitute(WordOrHyphen, template, n => UserVariableText(values, visible, inputs, convert, n))
  }

  /** `replaceUserVariables`: builds the input map, then runs one
      `[\w-]+` substitution pass whose callback consults it. */
  method ReplaceUserVariables(template: string, values: PromptValues, visible: set<string>,
                              inputs: seq<PromptInput>, convert: Converter) returns (r: string)
    ensures r == UserVariables(template, values, visible, inputs, convert)
  {
    var inputMap := BuildInputMap(inputs);
    var callback := (n: string) =>
      if n !in visible then ""
      else if n !in values then ""
      else convert(values[n], if n in inputMap then Some(inputMap[n]) else None);
    r := Substitute(WordOrHyphen, template, callback);
    forall n ensures callback(n) == UserVariableText(values, visible, inputs, convert, n) {
    }
    SubstituteCongruent(WordOrHyphen, template, callback,
      n => UserVariableText(values, visible, inputs, convert, n));
  }

  /** One token followed by more text: a hidden name gives "", a visible one
      without a value gives "", otherwise the converter's output for the last
      input with that id. The inserted text is never rescanned. */
  lemma TokenReplaced(name: string, rest: string, values: PromptValues, visible: set<string>,
                      inputs: seq<PromptInput>, convert: Converter)
    requires IsName(WordOrHyphen, name)
    ensures name !in visible ==>
      UserVariables("{{" + name + "}}" + rest, values, visible, inputs, convert)
        == UserVariables(rest, values, visible, inputs, convert)
    ensures name in visible && name !in values ==>
      UserVariables("{{" + name + "}}" + rest, values, visible, inputs, convert)
        == UserVariables(rest, values, visible, inputs, convert)
    ensures name in visible && name in values ==>
      UserVariables("{{" + name + "}}" + rest, values, visible, inputs, convert)
        == convert(values[name], LastById(inputs, name)) + UserVariables(rest, values, visible, inputs, convert)
  {
    TokenThenRest(WordOrHyphen, name, rest, n => UserVariableText(values, visible, inputs, convert, n));
  }

  /** A value whose text is itself a placeholder is inserted literally. */
  lemma InsertedTokenStaysLiteral(values: PromptValues, inputs: seq<PromptInput>)
    requires values == map["a" := VStr("{{b}}"), "b" := VStr("B")]
    ensures UserVariables("{{a}}", values, {"a", "b"}, inputs, (v: Value, c: Option<PromptInput>) => if v.VStr? then v.s else "")
      == "{{b}}"
  {
    var convert := (v: Value, c: Option<PromptInput>) => if v.VStr? then v.s else "";
    TokenReplaced("a", "", values, {"a", "b"}, inputs, convert);
    assert "{{a}}" == "{{" + "a" + "}}" + "";
  }

  /** A template with no `{{` is returned unchanged. */
  lemma NoPlaceholderUnchanged(template: string, values: PromptValues, visible: set<string>,
                               inputs: seq<PromptInput>, convert: Converter)
    requires forall i :: 0 <= i < |template| - 1 ==> !(template[i] == '{' && template[i + 1] == '{')
    ensures UserVariables(template, values, visible, inputs, convert) == template
  {
    NoBracesUnchanged(WordOrHyphen, template, n => UserVariableText(values, visible, inputs, convert, n));
  }

  /** What `replaceRaycastVariables` returns: `{selection}` first, then
      `{clipboard}` over the result, each by a global literal replace with a
      string replacement. */
  function RaycastVariables(content: string, selection: Option<string>, clipboard: Option<string>): string
  {
    ReplaceAll(ReplaceAll(content, "{selection}", OrEmpty(selection)), "{clipboard}", OrEmpty(clipboard))
  }

  /** `replaceRaycastVariables`, reassigning `result` twice (lines 86-94). */
  method ReplaceRaycastVariables(content: string, selection: Option<string>, clipboard: Option<string>)
    returns (result: string)
    ensures result == RaycastVariables(content, selection, clipboard)
  {
    result := content;
    result := ReplaceAll(result, "{selection}", OrEmpty(selection));
    result := ReplaceAll(result, "{clipboard}", OrEmpty(clipboard));
  }

  /** The clipboard pass also scans the text the selection pass inserted. */
  lemma SelectionTextScannedByClipboardPass()
    ensures RaycastVariables("{selection}", Some("{clipboard}"), Some("X")) == "X"
  {
    assert '$' !in "{clipboard}" && '$' !in "X";
    ReplaceAllWholePlain("{selection}", "{clipboard}");
    ReplaceAllWholePlain("{clipboard}", "X");
  }

  /** A missing selection removes the token; `$&` in the replacement stands
      for the matched text, so such a selection re-inserts the token. */
  lemma SelectionReplacementCases()
    ensures RaycastVariables("{selection}", None, None) == ""
    ensures RaycastVariables("{selection}", Some("$&"), None) == "{selection}"
  {
    ReplaceAllWhole("{selection}", "");
    assert ReplaceAll("", "{clipboard}", "") == "";
    ReplaceAllWhole("{selection}", "$&");
    assert Expand("$&", "{selection}", "", "") == "{selection}" + Expand("", "{selection}", "", "");
    ReplaceAllNoMatch("{selection}", "{clipboard}", "");
  }

  /** Content mentioning neither variable is unchanged. */
  lemma NoRaycastVariableUnchanged(content: string, selection: Option<string>, clipboard: Option<string>)
    requires !Contains(content, "{selection}") && !Contains(content, "{clipboard}")
    ensures RaycastVariables(content, selection, clipboard) == content
  {
    ReplaceAllNoMatch(content, "{selection}", OrEmpty(selection));
    ReplaceAllNoMatch(content, "{clipboard}", OrEmpty(clipboard));
  }
}
