/** `src/utils/results.ts`: the text a submitted dynamic form copies to the
    clipboard, one "key: value" line per entry. */
module Results {
  import opened Js
  import opened PromptTypes
  import ValueConverter

  /** One line: arrays join with ", ", booleans give "是"/"否", strings as-is. */
  function Line(key: string, v: Value): string
  {
    key + ": " + (match v
      case VList(items) => Join(items, ", ")
      case VBool(b) => if b then "是" else "否"
      case VStr(s) => s)
  }

  /** The value part of a line is template-mode conversion without a field. */
  lemma LineIsTemplateMode(key: string, v: Value)
    ensures Line(key, v) == key + ": " + ValueConverter.ValueToTemplateString(v, None)
  {
  }

  function Lines(values: PromptValues, keys: seq<string>): (r: seq<string>)
    requires forall i :: 0 <= i < |keys| ==> keys[i] in values
    ensures |r| == |keys| && forall i :: 0 <= i < |keys| ==> r[i] == Line(keys[i], values[keys[i]])
  {
    seq(|keys|, i requires 0 <= i < |keys| => Line(keys[i], values[keys[i]]))
  }

  /** `formatFormValues`, entries enumerated in the order `keys`. */
  method FormatFormValues(values: PromptValues, keys: seq<string>) returns (text: string)
    requires EnumeratesKeys(values, keys)
    ensures text == Join(Lines(values, keys), "\n")
  {
    var lines: seq<string> := [];
    var i := 0;
    while i < |keys|
      invariant 0 <= i <= |keys|
      invariant lines == Lines(values, keys[..i])
    {
      lines := lines + [Line(keys[i], values[keys[i]])];
      i := i + 1;
    }
    assert keys[..i] == keys;
    text := Join(lines, "\n");
  }

  /** The text splits back into its lines when no key or value holds a
      line break; an empty form gives "". */
  lemma FormatSplitsIntoLines(values: PromptValues, keys: seq<string>)
    requires EnumeratesKeys(values, keys)
    requires forall i :: 0 <= i < |keys| ==> '\n' !in Line(keys[i], values[keys[i]])
    ensures |keys| > 0 ==> Split(Join(Lines(values, keys), "\n"), '\n') == Lines(values, keys)
    ensures |keys| == 0 ==> Join(Lines(values, keys), "\n") == ""
  {
    if |keys| > 0 {
      assert "\n" == ['\n'];
      SplitJoin(Lines(values, keys), '\n');
    }
  }

  /** `handleFormSubmit`: the text to copy and the result, which is `true`
      iff the clipboard copy (`copyOk`) succeeded. */
  method HandleFormSubmit(values: PromptValues, keys: seq<string>, copyOk: bool)
    returns (copied: string, ok: bool)
    requires EnumeratesKeys(values, keys)
    ensures copied == Join(Lines(values, keys), "\n")
    ensures ok == copyOk
  {
    copied := FormatFormValues(values, keys);
    ok := copyOk;
  }
}
