/** What the two process launchers (`src/utils/commandExecutor.ts` and
    `src/utils/execScript.ts`) share: the mangling of a field id into an
    environment-variable name, the loop that turns visible form values into
    environment entries, the merge with the process environment and the
    exit-code text of an error. */
module ExecCommon {
  import opened Js
  import opened PromptTypes
  import Writes

  /** The characters `[A-Z0-9_]` that survive the mangling. */
  predicate IsEnvChar(c: char) {
    ('A' <= c <= 'Z') || ('0' <= c <= '9') || c == '_'
  }

  /** One character of `id.toUpperCase().replace(/[^A-Z0-9_]/g, "_")`. */
  function EnvChar(c: char): (r: char)
    ensures IsEnvChar(r)
    ensures IsEnvChar(c) ==> r == c
    ensures 'a' <= c <= 'z' ==> r as int == c as int - 32
    ensures !IsEnvChar(c) && !('a' <= c <= 'z') ==> r == '_'
  {
    if 'a' <= c <= 'z' then (c as int - 32) as char
    else if IsEnvChar(c) then c
    else '_'
  }

  /** A character outside the Basic Multilingual Plane, which a JavaScript
      string holds as two UTF-16 code units. */
  predicate IsAstral(c: char) {
    c as int >= 0x1_0000
  }

  /** The number of characters of `s` outside the Basic Multilingual Plane. */
  function AstralCount(s: string): nat
  {
    if |s| == 0 then 0 else (if IsAstral(s[0]) then 1 else 0) + AstralCount(s[1..])
  }

  /** What the mangling makes of one character. The pattern carries no `u`
      flag, so it matches code units: a character of two code units is
      replaced twice. */
  function EnvUnits(c: char): (r: string)
    ensures IsAstral(c) ==> r == "__"
    ensures !IsAstral(c) ==> r == [EnvChar(c)]
  {
    if IsAstral(c) then "__" else [EnvChar(c)]
  }

  /** `toEnvVarName`: upper-case letters, digits and `_` are kept, a
      lower-case ASCII letter is upper-cased, anything else becomes `_`,
      once per UTF-16 code unit. */
  function ToEnvVarName(id: string): (r: string)
    ensures |r| == |id| + AstralCount(id)
    ensures forall i :: 0 <= i < |r| ==> IsEnvChar(r[i])
  {
    if |id| == 0 then "" else EnvUnits(id[0]) + ToEnvVarName(id[1..])
  }

  /** On an id that lies within the Basic Multilingual Plane the mangling
      works character by character: `[A-Z0-9_]` is kept, a lower-case ASCII
      letter is upper-cased, and anything else becomes `_`. */
  lemma {:induction false} ToEnvVarNameBmp(id: string)
    requires forall i :: 0 <= i < |id| ==> !IsAstral(id[i])
    ensures |ToEnvVarName(id)| == |id|
    ensures forall i :: 0 <= i < |id| ==> ToEnvVarName(id)[i] == EnvChar(id[i])
  {
    if |id| > 0 {
      ToEnvVarNameBmp(id[1..]);
      assert ToEnvVarName(id) == [EnvChar(id[0])] + ToEnvVarName(id[1..]);
    }
  }

  /** A character outside the Basic Multilingual Plane becomes two
      underscores, so `a😀` is `A__`. */
  lemma AstralIsTwoUnits()
    ensures ToEnvVarName("a\U{1F600}") == "A__"
  {
    assert ToEnvVarName("\U{1F600}") == "__" + ToEnvVarName("");
  }

  /** A name made of `[A-Z0-9_]` is its own environment name. */
  lemma {:induction false} EnvNameFixed(name: string)
    requires forall i :: 0 <= i < |name| ==> IsEnvChar(name[i])
    ensures ToEnvVarName(name) == name
  {
    if |name| > 0 {
      EnvNameFixed(name[1..]);
      assert name == [name[0]] + name[1..];
    }
  }

  /** Mangling twice is mangling once. */
  lemma ToEnvVarNameIdempotent(id: string)
    ensures ToEnvVarName(ToEnvVarName(id)) == ToEnvVarName(id)
  {
    EnvNameFixed(ToEnvVarName(id));
  }

  /** Two ids that differ only in the case of ASCII letters get one name. */
  lemma CaseInsensitiveCollision()
    ensures ToEnvVarName("api-key") == ToEnvVarName("API_KEY") == "API_KEY"
  {
    ToEnvVarNameBmp("api-key");
    ToEnvVarNameBmp("API_KEY");
  }

  /** The loop of `valuesToEnv`, one conditional assignment per entry in the
      enumeration order `keys`: a hidden entry is skipped, a visible one
      writes its rendering under its mangled name. */
  function EnvSteps(values: PromptValues, visible: set<string>, keys: seq<string>,
                    render: (string, Value) -> string): seq<(string, Option<string>)>
    requires forall i :: 0 <= i < |keys| ==> keys[i] in values
  {
    seq(|keys|, i requires 0 <= i < |keys| =>
      (ToEnvVarName(keys[i]), if keys[i] in visible then Some(render(keys[i], values[keys[i]])) else None))
  }

  /** The environment `valuesToEnv` returns. */
  function Env(values: PromptValues, visible: set<string>, keys: seq<string>,
               render: (string, Value) -> string): map<string, string>
    requires forall i :: 0 <= i < |keys| ==> keys[i] in values
  {
    Writes.Apply(map[], EnvSteps(values, visible, keys, render))
  }

  /** The `for (const [id, value] of Object.entries(values))` loop. */
  method FillEnv(values: PromptValues, visible: set<string>, keys: seq<string>,
                 render: (string, Value) -> string) returns (env: map<string, string>)
    requires EnumeratesKeys(values, keys)
    ensures env == Env(values, visible, keys, render)
  {
    ghost var ws := EnvSteps(values, visible, keys, render);
    env := map[];
    var i := 0;
    while i < |keys|
      invariant 0 <= i <= |keys|
      invariant env == Writes.Apply(map[], ws[..i])
    {
      var id := keys[i];
      assert ws[..i + 1][..i] == ws[..i];
      if id in visible {
        env := env[ToEnvVarName(id) := render(id, values[id])];
      }
      i := i + 1;
    }
    assert ws[..|keys|] == ws;
  }

  /** An environment name is set exactly when some visible field mangles to
      it; hidden fields contribute nothing. */
  lemma EnvKeys(values: PromptValues, visible: set<string>, keys: seq<string>,
                render: (string, Value) -> string, name: string)
    requires EnumeratesKeys(values, keys)
    ensures name in Env(values, visible, keys, render) <==>
      exists id :: id in values && id in visible && ToEnvVarName(id) == name
  {
    var ws := EnvSteps(values, visible, keys, render);
    Writes.ApplyKeys(map[], ws, name);
    if exists id :: id in values && id in visible && ToEnvVarName(id) == name {
      var id :| id in values && id in visible && ToEnvVarName(id) == name;
      var j :| 0 <= j < |keys| && keys[j] == id;
      assert Writes.Assigns(ws, name, j);
    }
  }

  /** A visible field whose mangled name no other field shares sets that
      name to its rendering. */
  lemma EnvValue(values: PromptValues, visible: set<string>, keys: seq<string>,
                 render: (string, Value) -> string, id: string)
    requires EnumeratesKeys(values, keys)
    requires id in values && id in visible
    requires forall other :: other in values && other != id ==> ToEnvVarName(other) != ToEnvVarName(id)
    ensures var env := Env(values, visible, keys, render);
      ToEnvVarName(id) in env && env[ToEnvVarName(id)] == render(id, values[id])
  {
    var ws := EnvSteps(values, visible, keys, render);
    var j :| 0 <= j < |keys| && keys[j] == id;
    forall i | j < i < |ws| ensures !Writes.Assigns(ws, ToEnvVarName(id), i) {
      assert keys[i] != id && keys[i] in values;
    }
    assert Writes.IsLastWrite(ws, ToEnvVarName(id), j);
    Writes.ApplyLast(map[], ws, ToEnvVarName(id), j);
  }

  /** When two visible fields share a name, the one enumerated last wins. */
  lemma EnvCollisionLastWins(render: (string, Value) -> string)
    ensures Env(map["a-b" := VStr("1"), "a_b" := VStr("2")], {"a-b", "a_b"}, ["a-b", "a_b"], render)
      == map["A_B" := render("a_b", VStr("2"))]
  {
    var values := map["a-b" := VStr("1"), "a_b" := VStr("2")];
    var ws := EnvSteps(values, {"a-b", "a_b"}, ["a-b", "a_b"], render);
    assert ToEnvVarName("a-b") == "A_B" && ToEnvVarName("a_b") == "A_B";
    assert ws[0] == ("A_B", Some(render("a-b", VStr("1"))));
    assert ws[1] == ("A_B", Some(render("a_b", VStr("2"))));
    assert ws[..1][..0] == [];
    assert Writes.Apply(map[], ws[..1]) == map["A_B" := render("a-b", VStr("1"))];
    assert ws[..2][..1] == ws[..1];
    assert ws[..2] == ws;
    assert Writes.Apply(map[], ws) == map["A_B" := render("a-b", VStr("1"))]["A_B" := render("a_b", VStr("2"))];
  }

  /** What a launcher decides before `execFile`: the process to start, or
      the error it throws instead. */
  datatype Launch =
    | Ready(file: string, argv: seq<string>, env: map<string, string>, cwd: Option<string>, timeout: int)
    | Refused(message: string)

  const LibShDefault := "/Users/terrychen/code/sh/lib.sh"
  const ScriptDirDefault := "/Users/terrychen/code/sh"

  /** `process.env[k] || d`. */
  function ProcessOr(process: map<string, string>, k: string, d: string): (r: string)
    ensures k in process && process[k] != "" ==> r == process[k]
    ensures !(k in process && process[k] != "") ==> r == d
  {
    if k in process && process[k] != "" then process[k] else d
  }

  /** `{...process.env, ...scriptEnv, LIB_SH, SCRIPT_DIR}`: the script
      entries override the process ones, and `LIB_SH`/`SCRIPT_DIR` come from
      the process environment or their defaults, whatever the script
      entries say. */
  function MergeEnv(process: map<string, string>, script: map<string, string>): (r: map<string, string>)
    ensures r.Keys == process.Keys + script.Keys + {"LIB_SH", "SCRIPT_DIR"}
    ensures r["LIB_SH"] == ProcessOr(process, "LIB_SH", LibShDefault)
    ensures r["SCRIPT_DIR"] == ProcessOr(process, "SCRIPT_DIR", ScriptDirDefault)
    ensures forall k :: k in script && k != "LIB_SH" && k != "SCRIPT_DIR" ==> r[k] == script[k]
    ensures forall k :: k in process && k !in script && k != "LIB_SH" && k != "SCRIPT_DIR" ==> r[k] == process[k]
  {
    (process + script)["LIB_SH" := ProcessOr(process, "LIB_SH", LibShDefault)]
      ["SCRIPT_DIR" := ProcessOr(process, "SCRIPT_DIR", ScriptDirDefault)]
  }

  /** `${execError.code || "unknown"}`: a falsy code (absent, 0, "") reads
      "unknown". */
  function ExitCodeText(code: JsValue): (r: string)
    ensures !Truthy(code) ==> r == "unknown"
    ensures Truthy(code) ==> r == ToJsString(code)
  {
    if Truthy(code) then ToJsString(code) else "unknown"
  }
}
