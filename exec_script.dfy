/** `src/utils/execScript.ts`: the older launcher that runs a script file
    with every visible form value exported as an environment variable. It
    renders values without consulting field configurations and reports
    failures with the raw stderr. The file-system probes are parameters. */
module ExecScript {
  import opened Js
  import opened PromptTypes
  import opened ExecCommon
  import ValueConverter
  import CommandExecutor
  import VariableReplacer

  /** The rendering of the loop body: arrays joined with ", ", booleans as
      "true"/"false", strings as they are. */
  function ScriptValueString(v: Value): string
  {
    match v
    case VList(items) => Join(items, ", ")
    case VBool(b) => if b then "true" else "false"
    case VStr(s) => s
  }

  /** That rendering is command-mode conversion without a field
      configuration. */
  lemma ScriptValueIsCommandModeWithoutConfig(v: Value)
    ensures ScriptValueString(v) == ValueConverter.ValueToCommandString(v, None)
  {
  }

  function Render(): (string, Value) -> string
  {
    (id: string, v: Value) => ScriptValueString(v)
  }

  /** `valuesToEnv` of this launcher. */
  method ValuesToEnv(values: PromptValues, visible: set<string>, keys: seq<string>)
    returns (env: map<string, string>)
    requires EnumeratesKeys(values, keys)
    ensures env == Env(values, visible, keys, Render())
  {
    env := FillEnv(values, visible, keys, Render());
  }

  /** A checkbox's `trueValue` reaches a command's environment but not a
      script's: the script sees "true". */
  lemma CheckboxOverrideIgnored(input: PromptInput)
    requires input.kind == Checkbox && input.id == "ok" && input.trueValue == Some("yes")
    ensures Env(map["ok" := VBool(true)], {"ok"}, ["ok"], Render()) == map["OK" := "true"]
    ensures Env(map["ok" := VBool(true)], {"ok"}, ["ok"], CommandExecutor.Render([input])) == map["OK" := "yes"]
  {
    var values := map["ok" := VBool(true)];
    assert ToEnvVarName("ok") == "OK";
    var ws := EnvSteps(values, {"ok"}, ["ok"], Render());
    var wc := EnvSteps(values, {"ok"}, ["ok"], CommandExecutor.Render([input]));
    assert ws[..0] == [] && wc[..0] == [];
    assert ws[..1] == ws && wc[..1] == wc;
    assert VariableReplacer.LastById([input], "ok") == Some(input);
  }

  /** `executeScript` up to the process start: both file checks, then the
      merged environment, no arguments and a fixed 30-second timeout. */
  function PrepareScript(scriptPath: string, values: PromptValues, visible: set<string>, keys: seq<string>,
                         process: map<string, string>, fileExists: string -> bool, executable: string -> bool): (r: Launch)
    requires EnumeratesKeys(values, keys)
    ensures r.Refused? <==> !fileExists(scriptPath) || !executable(scriptPath)
    ensures !fileExists(scriptPath) ==> r == Refused("脚本文件不存在: " + scriptPath)
    ensures r.Ready? ==> (r.file == scriptPath && r.argv == [] && r.cwd.None? && r.timeout == 30000 &&
      r.env == MergeEnv(process, Env(values, visible, keys, Render())))
  {
    if !fileExists(scriptPath) then Refused("脚本文件不存在: " + scriptPath)
    else if !executable(scriptPath) then Refused("脚本文件不可执行: " + scriptPath)
    else Ready(scriptPath, [], MergeEnv(process, Env(values, visible, keys, Render())), None, 30000)
  }

  /** `executeScript` itself, up to `execFile`. */
  method ExecuteScript(scriptPath: string, values: PromptValues, visible: set<string>, keys: seq<string>,
                       process: map<string, string>, fileExists: string -> bool, executable: string -> bool)
    returns (r: Launch)
    requires EnumeratesKeys(values, keys)
    ensures r == PrepareScript(scriptPath, values, visible, keys, process, fileExists, executable)
  {
    if !fileExists(scriptPath) {
      return Refused("脚本文件不存在: " + scriptPath);
    }
    if !executable(scriptPath) {
      return Refused("脚本文件不可执行: " + scriptPath);
    }
    var scriptEnv := ValuesToEnv(values, visible, keys);
    var env := MergeEnv(process, scriptEnv);
    r := Ready(scriptPath, [], env, None, 30000);
  }

  /** The error message: the exit code, then the raw stderr, or the
      original message when stderr is absent or empty. */
  function ScriptErrorText(code: JsValue, stderr: Option<string>, message: string): string
  {
    "脚本执行失败 (exit code " + ExitCodeText(code) + "): " +
    (if stderr.Some? && stderr.value != "" then stderr.value else message)
  }

  /** Unlike `executeCommand`, a blank but non-empty stderr is kept as it
      is and replaces the message, and stdout is never reported. */
  lemma ScriptErrorKeepsBlankStderr(code: JsValue, stdout: Option<string>, message: string)
    ensures ScriptErrorText(code, Some(" "), message) == "脚本执行失败 (exit code " + ExitCodeText(code) + "):  "
    ensures !CommandExecutor.Shows(stdout) ==>
      CommandExecutor.ErrorText(code, stdout, Some(" "), message) == CommandExecutor.Header(code) + "\n\n" + message
  {
    assert !HasText(" ") by {
      assert TrimStart(" ") == "";
    }
    CommandExecutor.ErrorTextShape(code, stdout, Some(" "), message);
  }
}
