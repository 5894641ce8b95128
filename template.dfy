/** `src/utils/template.ts`: the substituter behind pasted and copied
    prompts. The launcher variables are replaced first, then `{{name}}`
    tokens with names `\w+`; booleans always render as "是"/"否". */
module Template {
  import opened Js
  import opened PromptTypes
  import opened Placeholders
  import ValueConverter

  /** The replace callback of lines 27-51. */
  function TemplateText(values: PromptValues, visible: set<string>, name: string): string
  {
    if name !in visible then ""
    else if name !in values then ""
    else match values[name]
      case VList(items) => Join(items, ", ")
      case VBool(b) => if b then "是" else "否"
      case VStr(s) => s
  }

  /** `replaceTemplate(content, values, visibleInputIds, selection, clipboard)`. */
  function ReplaceTemplate(content: string, values: PromptValues, visible: set<string>,
                           selection: Option<string>, clipboard: Option<string>): string
  {
    var withSelection := ReplaceAll(content, "{selection}", OrEmpty(selection));
    var withClipboard := ReplaceAll(withSelection, "{clipboard}", OrEmpty(clipboard));
    Substitute(Word, withClipboard, n => TemplateText(values, visible, n))
  }

  /** The callback renders exactly like template-mode conversion of a field
      without a configuration: no checkbox overrides apply. */
  lemma TemplateTextIsPlainTemplateMode(values: PromptValues, visible: set<string>, name: string)
    requires name in visible && name in values
    ensures TemplateText(values, visible, name) == ValueConverter.ValueToTemplateString(values[name], None)
  {
  }

  /** A token as the whole text: hidden or missing names give "", lists
      join with ", ", booleans give "是"/"否", strings are copied. The names
      `selection` and `clipboard` are excluded: see `BuiltinPassSeesUserToken`. */
  lemma TemplateToken(name: string, values: PromptValues, visible: set<string>,
                      selection: Option<string>, clipboard: Option<string>)
    requires IsName(Word, name) && name != "selection" && name != "clipboard"
    ensures name !in visible || name !in values ==>
      ReplaceTemplate("{{" + name + "}}", values, visible, selection, clipboard) == ""
    ensures name in visible && name in values && values[name].VList? ==>
      ReplaceTemplate("{{" + name + "}}", values, visible, selection, clipboard) == Join(values[name].items, ", ")
    ensures name in visible && name in values && values[name].VBool? ==>
      ReplaceTemplate("{{" + name + "}}", values, visible, selection, clipboard) == (if values[name].b then "是" else "否")
    ensures name in visible && name in values && values[name].VStr? ==>
      ReplaceTemplate("{{" + name + "}}", values, visible, selection, clipboard) == values[name].s
  {
    var t := "{{" + name + "}}";
    TokenAvoidsBuiltin(name, "{selection}");
    TokenAvoidsBuiltin(name, "{clipboard}");
    ReplaceAllNoMatch(t, "{selection}", OrEmpty(selection));
    ReplaceAllNoMatch(t, "{clipboard}", OrEmpty(clipboard));
    assert t == "{{" + name + "}}" + "";
    TokenThenRest(Word, name, "", n => TemplateText(values, visible, n));
  }

  /** `{x}` with `x` a lower-case word occurs in `{{name}}` only when `name` is `x`. */
  lemma TokenAvoidsBuiltin(name: string, p: string)
    requires IsName(Word, name)
    requires |p| == 11 && p[0] == '{' && p[10] == '}' && forall k :: 1 <= k < 10 ==> 'a' <= p[k] <= 'z'
    requires name != p[1..10]
    ensures !Contains("{{" + name + "}}", p)
  {
    var t := "{{" + name + "}}";
    assert forall k :: 2 <= k < 2 + |name| ==> t[k] == name[k - 2];
    assert t[2 + |name|] == '}' && t[3 + |name|] == '}';
    forall i | 0 <= i <= |t| ensures !OccursAt(t, p, i) {
      if i + 11 <= |t| {
        var k: int;
        if i == 0 {
          k := 1;
        } else if i == 1 {
          if |name| < 9 {
            k := 1 + |name|;
          } else if |name| > 9 {
            k := 10;
            assert t[11] == name[9];
          } else {
            var d := FirstDifference(name, p[1..10]);
            k := 1 + d;
            assert t[i + k] == name[d];
          }
        } else {
          k := 0;
          if i < 2 + |name| { assert t[i] == name[i - 2]; }
        }
        assert 0 <= k < 11 && t[i + k] != p[k];
        assert t[i..i + 11][k] == t[i + k];
      }
    }
  }

  /** The first index at which two different sequences of equal length differ. */
  function FirstDifference(a: string, b: string): (d: nat)
    requires |a| == |b| && a != b
    ensures d < |a| && a[d] != b[d]
  {
    if a[0] != b[0] then 0
    else
      assert a == [a[0]] + a[1..] && b == [b[0]] + b[1..];
      1 + FirstDifference(a[1..], b[1..])
  }

  /** The launcher pass runs first and also matches inside `{{selection}}`,
      so a field named `selection` is never substituted by this function. */
  lemma BuiltinPassSeesUserToken()
    ensures ReplaceTemplate("{{selection}}", map["selection" := VStr("v")], {"selection"}, Some("S"), None) == "{S}"
  {
    var t := "{{selection}}";
    assert OccursAt(t, "{selection}", 1);
    assert t[0..11][1] == '{';
    assert ReplaceAll(t, "{selection}", "S") == "{S}" by {
      assert ReplaceAllFrom(t, "{selection}", "S", 12) == "}";
      assert ReplaceAllFrom(t, "{selection}", "S", 1) == "S}";
    }
    ReplaceAllNoMatch("{S}", "{clipboard}", "");
    NoBracesUnchanged(Word, "{S}", n => TemplateText(map["selection" := VStr("v")], {"selection"}, n));
  }

  /** Text taken from the selection is scanned by the `{{name}}` pass, since
      that pass runs over the launcher-substituted result. */
  lemma SelectionTextScannedForTokens(values: PromptValues)
    requires values == map["x" := VStr("X")]
    ensures ReplaceTemplate("{selection}", values, {"x"}, Some("{{x}}"), None) == "X"
  {
    ReplaceAllWhole("{selection}", "{{x}}");
    TokenAvoidsBuiltin("x", "{clipboard}");
    ReplaceAllNoMatch("{{x}}", "{clipboard}", "");
    assert "{{x}}" == "{{" + "x" + "}}" + "";
    TokenThenRest(Word, "x", "", n => TemplateText(values, {"x"}, n));
  }

  /** `{{a-b}}` is not a `\w+` token and is left as it is. */
  lemma HyphenatedNameUntouched(values: PromptValues, visible: set<string>)
    ensures ReplaceTemplate("{{a-b}}", values, visible, None, None) == "{{a-b}}"
  {
    assert !Contains("{{a-b}}", "{selection}") && !Contains("{{a-b}}", "{clipboard}");
    ReplaceAllNoMatch("{{a-b}}", "{selection}", "");
    ReplaceAllNoMatch("{{a-b}}", "{clipboard}", "");
    HyphenOnlyInWideGrammar(n => TemplateText(values, visible, n));
  }

  /** Text with none of the three token kinds is returned unchanged. */
  lemma PlainTextUnchanged(content: string, values: PromptValues, visible: set<string>,
                           selection: Option<string>, clipboard: Option<string>)
    requires !Contains(content, "{selection}") && !Contains(content, "{clipboard}")
    requires forall i :: 0 <= i < |content| - 1 ==> !(content[i] == '{' && content[i + 1] == '{')
    ensures ReplaceTemplate(content, values, visible, selection, clipboard) == content
  {
    ReplaceAllNoMatch(content, "{selection}", OrEmpty(selection));
    ReplaceAllNoMatch(content, "{clipboard}", OrEmpty(clipboard));
    NoBracesUnchanged(Word, content, n => TemplateText(values, visible, n));
  }
}
