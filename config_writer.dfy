/** `src/utils/configWriter.ts`: writing an edited prompt definition back to
    its Markdown file. The definition is the record read from the file's
    front matter, so its attributes are dynamic values; the YAML serialiser
    is a parameter and the file write is the value returned. */
module ConfigWriter {
  import opened Js

  // ---------------------------------------------------------------------
  // removeUndefined

  /** `removeUndefined`: `null`, `undefined` and primitives are returned as
      they are, arrays element by element, and objects lose the keys whose
      value is `undefined` while the rest are cleaned in turn. */
  function Clean(v: JsValue): (r: JsValue)
    ensures !v.Arr? && !v.Obj? ==> r == v
    ensures v.Arr? ==> r.Arr? && |r.elems| == |v.elems| && forall i :: 0 <= i < |v.elems| ==> r.elems[i] == Clean(v.elems[i])
    ensures v.Obj? ==> r.Obj? && r.fields == CleanFields(v, |v.fields|)
    decreases v, 1
  {
    match v
    case Arr(elems) => Arr(seq(|elems|, i requires 0 <= i < |elems| => Clean(elems[i])))
    case Obj(fields) => Obj(CleanFields(v, |fields|))
    case _ => v
  }

  /** The loop over the first `n` entries of an object. */
  function CleanFields(parent: JsValue, n: nat): (r: seq<(string, JsValue)>)
    requires parent.Obj? && n <= |parent.fields|
    ensures |r| <= n
    decreases parent, 0, n
  {
    if n == 0 then []
    else
      var (k, x) := parent.fields[n - 1];
      var init := CleanFields(parent, n - 1);
      if x != Undefined then init + [(k, Clean(x))] else init
  }

  /** An entry survives exactly when its value is not `undefined`, and then
      with its value cleaned; no surviving value is `undefined`. */
  lemma {:induction false} CleanFieldsContents(parent: JsValue, n: nat, k: string, y: JsValue)
    requires parent.Obj? && n <= |parent.fields|
    ensures (k, y) in CleanFields(parent, n) <==>
      exists i :: 0 <= i < n && parent.fields[i].0 == k && parent.fields[i].1 != Undefined && y == Clean(parent.fields[i].1)
    ensures forall j :: 0 <= j < |CleanFields(parent, n)| ==> CleanFields(parent, n)[j].1 != Undefined
    decreases n
  {
    if n > 0 {
      CleanFieldsContents(parent, n - 1, k, y);
      var x := parent.fields[n - 1].1;
      if x != Undefined {
        assert Clean(x) != Undefined;
      }
    }
  }

  /** A value with no `undefined` object entry at any depth. */
  predicate Cleaned(v: JsValue)
    decreases v
  {
    match v
    case Arr(elems) => forall i :: 0 <= i < |elems| ==> Cleaned(elems[i])
    case Obj(fields) => forall i :: 0 <= i < |fields| ==> fields[i].1 != Undefined && Cleaned(fields[i].1)
    case _ => true
  }

  /** The result of `removeUndefined` has no `undefined` object entry. */
  lemma {:induction false} CleanIsCleaned(v: JsValue)
    ensures Cleaned(Clean(v))
    decreases v, 1
  {
    match v
    case Arr(elems) =>
      forall i | 0 <= i < |elems| ensures Cleaned(Clean(v).elems[i]) {
        CleanIsCleaned(elems[i]);
      }
    case Obj(fields) =>
      CleanFieldsCleaned(v, |fields|);
    case _ =>
  }

  lemma {:induction false} CleanFieldsCleaned(parent: JsValue, n: nat)
    requires parent.Obj? && n <= |parent.fields|
    ensures forall j :: 0 <= j < |CleanFields(parent, n)| ==>
      (CleanFields(parent, n)[j].1 != Undefined && Cleaned(CleanFields(parent, n)[j].1))
    decreases parent, 0, n
  {
    if n > 0 {
      CleanFieldsCleaned(parent, n - 1);
      var x := parent.fields[n - 1].1;
      if x != Undefined {
        CleanIsCleaned(x);
        assert Clean(x) != Undefined;
      }
    }
  }

  /** A cleaned value is left as it is. */
  lemma {:induction false} CleanFixesCleaned(v: JsValue)
    requires Cleaned(v)
    ensures Clean(v) == v
    decreases v, 1
  {
    match v
    case Arr(elems) =>
      forall i | 0 <= i < |elems| ensures Clean(elems[i]) == elems[i] {
        CleanFixesCleaned(elems[i]);
      }
      assert Clean(v).elems == elems;
    case Obj(fields) =>
      CleanFieldsFixes(v, |fields|);
      assert fields[..|fields|] == fields;
    case _ =>
  }

  lemma {:induction false} CleanFieldsFixes(parent: JsValue, n: nat)
    requires parent.Obj? && n <= |parent.fields| && Cleaned(parent)
    ensures CleanFields(parent, n) == parent.fields[..n]
    decreases parent, 0, n
  {
    if n > 0 {
      CleanFieldsFixes(parent, n - 1);
      var x := parent.fields[n - 1].1;
      CleanFixesCleaned(x);
      assert parent.fields[..n] == parent.fields[..n - 1] + [parent.fields[n - 1]];
    }
  }

  /** `removeUndefined` is idempotent. */
  lemma CleanIdempotent(v: JsValue)
    ensures Clean(Clean(v)) == Clean(v)
  {
    CleanIsCleaned(v);
    CleanFixesCleaned(Clean(v));
  }

  /** The recursive function as the source writes it: a `map` over arrays
      and a loop filling `cleaned` over objects. */
  method RemoveUndefined(v: JsValue) returns (r: JsValue)
    ensures r == Clean(v)
    decreases v
  {
    if v.Undefined? || v.Null? {
      return v;
    }
    if v.Arr? {
      var elems: seq<JsValue> := [];
      var i := 0;
      while i < |v.elems|
        invariant 0 <= i <= |v.elems|
        invariant |elems| == i && forall j :: 0 <= j < i ==> elems[j] == Clean(v.elems[j])
      {
        var e := RemoveUndefined(v.elems[i]);
        elems := elems + [e];
        i := i + 1;
      }
      return Arr(elems);
    }
    if v.Obj? {
      var cleaned: seq<(string, JsValue)> := [];
      var i := 0;
      while i < |v.fields|
        invariant 0 <= i <= |v.fields|
        invariant cleaned == CleanFields(v, i)
      {
        var (k, x) := v.fields[i];
        if x != Undefined {
          var c := RemoveUndefined(x);
          cleaned := cleaned + [(k, c)];
        }
        i := i + 1;
      }
      return Obj(cleaned);
    }
    return v;
  }

  // ---------------------------------------------------------------------
  // savePromptConfig

  /** The prompt definition being saved, attribute by attribute as it was
      read and edited. */
  datatype SavedConfig = SavedConfig(
    title: JsValue,
    formDescription: JsValue,
    execScript: JsValue,
    request: JsValue,
    command: JsValue,
    inputs: JsValue,
    lastUseTime: JsValue,
    content: string,
    filePath: Option<string>)

  /** `!config.filePath`: no path, or the empty one. */
  predicate PathMissing(filePath: Option<string>)
  {
    filePath.None? || filePath.value == ""
  }

  /** The file write `savePromptConfig` performs, or the error it throws. */
  datatype Saved = Write(path: string, text: string) | Failed(message: string)

  /** An entry written only when its value is truthy. */
  function IfTruthy(k: string, v: JsValue, stored: JsValue): (r: seq<(string, JsValue)>)
    ensures HasKey(Obj(r), k) <==> Truthy(v)
    ensures forall k' :: k' != k ==> !HasKey(Obj(r), k')
    ensures Truthy(v) ==> Get(Obj(r), k) == stored
  {
    if Truthy(v) then
      assert [(k, stored)][0].0 == k;
      [(k, stored)]
    else []
  }

  /** The front matter: `title` and the cleaned `inputs` always, then each
      optional attribute that is truthy, `request` and `command` cleaned. */
  function FrontMatter(config: SavedConfig): seq<(string, JsValue)>
  {
    [("title", config.title), ("inputs", Clean(config.inputs))]
    + IfTruthy("formDescription", config.formDescription, config.formDescription)
    + IfTruthy("execScript", config.execScript, config.execScript)
    + IfTruthy("request", config.request, Clean(config.request))
    + IfTruthy("command", config.command, Clean(config.command))
  }

  lemma BaseKeys(title: JsValue, inputs: JsValue, k: string)
    ensures var base := [("title", title), ("inputs", inputs)];
      (HasKey(Obj(base), k) <==> k == "title" || k == "inputs") &&
      Get(Obj(base), "title") == title && Get(Obj(base), "inputs") == inputs
  {
    var base := [("title", title), ("inputs", inputs)];
    assert base[0].0 == "title" && base[1].0 == "inputs";
  }

  /** The front matter has `title` and `inputs`, has each optional attribute
      exactly when it is truthy, and never has `lastUseTime`. */
  lemma FrontMatterKeys(config: SavedConfig, k: string)
    ensures HasKey(Obj(FrontMatter(config)), k) <==>
        k == "title" || k == "inputs" ||
        (k == "formDescription" && Truthy(config.formDescription)) ||
        (k == "execScript" && Truthy(config.execScript)) ||
        (k == "request" && Truthy(config.request)) ||
        (k == "command" && Truthy(config.command))
    ensures !HasKey(Obj(FrontMatter(config)), "lastUseTime")
  {
    FrontMatterHasKey(config, k);
    FrontMatterHasKey(config, "lastUseTime");
    BaseKeys(config.title, Clean(config.inputs), k);
    BaseKeys(config.title, Clean(config.inputs), "lastUseTime");
  }

  /** The front matter has a key exactly when one of its parts has it. */
  lemma FrontMatterHasKey(config: SavedConfig, k: string)
    ensures var base := [("title", config.title), ("inputs", Clean(config.inputs))];
      var o1 := IfTruthy("formDescription", config.formDescription, config.formDescription);
      var o2 := IfTruthy("execScript", config.execScript, config.execScript);
      var o3 := IfTruthy("request", config.request, Clean(config.request));
      var o4 := IfTruthy("command", config.command, Clean(config.command));
      HasKey(Obj(FrontMatter(config)), k) <==>
        HasKey(Obj(base), k) || HasKey(Obj(o1), k) || HasKey(Obj(o2), k) || HasKey(Obj(o3), k) || HasKey(Obj(o4), k)
  {
    var base := [("title", config.title), ("inputs", Clean(config.inputs))];
    var o1 := IfTruthy("formDescription", config.formDescription, config.formDescription);
    var o2 := IfTruthy("execScript", config.execScript, config.execScript);
    var o3 := IfTruthy("request", config.request, Clean(config.request));
    var o4 := IfTruthy("command", config.command, Clean(config.command));
    HasKeyAppend(base, o1, k);
    HasKeyAppend(base + o1, o2, k);
    HasKeyAppend(base + o1 + o2, o3, k);
    HasKeyAppend(base + o1 + o2 + o3, o4, k);
  }

  /** The front matter holds the title as it is and the cleaned inputs,
      request and command. */
  lemma FrontMatterValues(config: SavedConfig)
    ensures Get(Obj(FrontMatter(config)), "title") == config.title
    ensures Get(Obj(FrontMatter(config)), "inputs") == Clean(config.inputs)
    ensures Truthy(config.request) ==> Get(Obj(FrontMatter(config)), "request") == Clean(config.request)
    ensures Truthy(config.command) ==> Get(Obj(FrontMatter(config)), "command") == Clean(config.command)
  {
    FrontMatterBase(config);
    FrontMatterRequest(config);
    FrontMatterCommand(config);
  }

  lemma FrontMatterBase(config: SavedConfig)
    ensures Get(Obj(FrontMatter(config)), "title") == config.title
    ensures Get(Obj(FrontMatter(config)), "inputs") == Clean(config.inputs)
  {
    BaseKeys(config.title, Clean(config.inputs), "title");
    FrontMatterAt(config, "title");
    FrontMatterAt(config, "inputs");
  }

  lemma FrontMatterRequest(config: SavedConfig)
    ensures Truthy(config.request) ==> Get(Obj(FrontMatter(config)), "request") == Clean(config.request)
  {
    BaseKeys(config.title, Clean(config.inputs), "request");
    FrontMatterAt(config, "request");
  }

  lemma FrontMatterCommand(config: SavedConfig)
    ensures Truthy(config.command) ==> Get(Obj(FrontMatter(config)), "command") == Clean(config.command)
  {
    BaseKeys(config.title, Clean(config.inputs), "command");
    FrontMatterAt(config, "command");
  }

  /** A lookup of a key no optional attribute before `request` can have. */
  lemma FrontMatterAt(config: SavedConfig, k: string)
    requires k != "formDescription" && k != "execScript"
    ensures var base := [("title", config.title), ("inputs", Clean(config.inputs))];
      var o3 := IfTruthy("request", config.request, Clean(config.request));
      var o4 := IfTruthy("command", config.command, Clean(config.command));
      Get(Obj(FrontMatter(config)), k) ==
        if HasKey(Obj(base), k) then Get(Obj(base), k)
        else if HasKey(Obj(o3), k) then Get(Obj(o3), k)
        else Get(Obj(o4), k)
  {
    var base := [("title", config.title), ("inputs", Clean(config.inputs))];
    var o1 := IfTruthy("formDescription", config.formDescription, config.formDescription);
    var o2 := IfTruthy("execScript", config.execScript, config.execScript);
    var o3 := IfTruthy("request", config.request, Clean(config.request));
    var o4 := IfTruthy("command", config.command, Clean(config.command));
    BaseKeys(config.title, Clean(config.inputs), k);
    GetAppend(base, o1, k);
    GetAppend(base + o1, o2, k);
    GetAppend(base + o1 + o2, o3, k);
    GetAppend(base + o1 + o2 + o3, o4, k);
    HasKeyAppend(base, o1, k);
    HasKeyAppend(base + o1, o2, k);
    HasKeyAppend(base + o1 + o2, o3, k);
  }


  /** `savePromptConfig` up to the write: without a file path it throws
      before anything is written; otherwise it writes the body under the
      serialised front matter to that path. */
  function Save(config: SavedConfig, stringify: (string, JsValue) -> string): (r: Saved)
    ensures r.Failed? <==> PathMissing(config.filePath)
    ensures r.Failed? ==> r.message == "配置文件路径不存在，无法保存"
    ensures r.Write? ==> r.path == config.filePath.value && r.text == stringify(config.content, Obj(FrontMatter(config)))
  {
    if PathMissing(config.filePath) then Failed("配置文件路径不存在，无法保存")
    else Write(config.filePath.value, stringify(config.content, Obj(FrontMatter(config))))
  }

  /** The front matter built by conditional assignment, as the source does. */
  method BuildFrontMatter(config: SavedConfig) returns (fm: seq<(string, JsValue)>)
    ensures fm == FrontMatter(config)
  {
    var inputs := RemoveUndefined(config.inputs);
    fm := [("title", config.title), ("inputs", inputs)];
    if Truthy(config.formDescription) {
      fm := fm + [("formDescription", config.formDescription)];
    }
    ghost var fm1 := fm;
    if Truthy(config.execScript) {
      fm := fm + [("execScript", config.execScript)];
    }
    ghost var fm2 := fm;
    if Truthy(config.request) {
      var request := RemoveUndefined(config.request);
      fm := fm + [("request", request)];
    }
    ghost var fm3 := fm;
    if Truthy(config.command) {
      var command := RemoveUndefined(config.command);
      fm := fm + [("command", command)];
    }
    assert fm1 == [("title", config.title), ("inputs", Clean(config.inputs))]
      + IfTruthy("formDescription", config.formDescription, config.formDescription);
    assert fm2 == fm1 + IfTruthy("execScript", config.execScript, config.execScript);
    assert fm3 == fm2 + IfTruthy("request", config.request, Clean(config.request));
    assert fm == fm3 + IfTruthy("command", config.command, Clean(config.command));
  }

  /** `savePromptConfig`. */
  method SavePromptConfig(config: SavedConfig, stringify: (string, JsValue) -> string) returns (r: Saved)
    ensures r == Save(config, stringify)
  {
    if PathMissing(config.filePath) {
      return Failed("配置文件路径不存在，无法保存");
    }
    var fm := BuildFrontMatter(config);
    r := Write(config.filePath.value, stringify(config.content, Obj(fm)));
  }
}
