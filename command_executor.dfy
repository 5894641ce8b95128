/** `src/utils/commandExecutor.ts`: everything `executeCommand` decides
    before it starts a process — the substituted command line, whether it is
    a shell command, the arguments, the environment (with the PATH merge) and
    the working directory — and the text of the error it raises when the
    process fails. The file-system probes are parameters. */
module CommandExecutor {
  import opened Js
  import opened PromptTypes
  import opened ExecCommon
  import Placeholders
  import VariableReplacer
  import ValueConverter

  /** The command-mode rendering of the entry `id`. */
  function Render(inputs: seq<PromptInput>): (string, Value) -> string
  {
    (id: string, v: Value) => ValueConverter.ValueToCommandString(v, VariableReplacer.LastById(inputs, id))
  }

  /** `valuesToEnv`: the generic loop with the command-mode rendering. */
  method ValuesToEnv(values: PromptValues, visible: set<string>, inputs: seq<PromptInput>, keys: seq<string>)
    returns (env: map<string, string>)
    requires EnumeratesKeys(values, keys)
    ensures env == Env(values, visible, keys, Render(inputs))
  {
    env := FillEnv(values, visible, keys, Render(inputs));
  }

  /** Only visible fields produce entries, each rendered by
      `valueToCommandString` with its field configuration. */
  lemma ValuesToEnvEntries(values: PromptValues, visible: set<string>, inputs: seq<PromptInput>,
                           keys: seq<string>, id: string)
    requires EnumeratesKeys(values, keys)
    requires id in values
    ensures id !in visible && (forall other :: other in values && other != id ==> ToEnvVarName(other) != ToEnvVarName(id))
      ==> ToEnvVarName(id) !in Env(values, visible, keys, Render(inputs))
    ensures id in visible && (forall other :: other in values && other != id ==> ToEnvVarName(other) != ToEnvVarName(id))
      ==> var env := Env(values, visible, keys, Render(inputs));
          ToEnvVarName(id) in env &&
          env[ToEnvVarName(id)] == ValueConverter.ValueToCommandString(values[id], VariableReplacer.LastById(inputs, id))
  {
    EnvKeys(values, visible, keys, Render(inputs), ToEnvVarName(id));
    if id in visible && (forall other :: other in values && other != id ==> ToEnvVarName(other) != ToEnvVarName(id)) {
      EnvValue(values, visible, keys, Render(inputs), id);
    }
  }

  // Shell detection

  /** What `.` in a regular expression does not match. */
  predicate IsLineTerminator(c: char) {
    c == '\n' || c == '\r' || c == '\U{2028}' || c == '\U{2029}'
  }

  /** `/\|(?!\|)/`: a pipe not followed by another pipe. */
  predicate LonePipe(c: string) {
    exists i :: 0 <= i < |c| && c[i] == '|' && (i + 1 == |c| || c[i + 1] != '|')
  }

  predicate SameLine(c: string, i: int, j: int)
    requires 0 <= i <= j <= |c|
  {
    forall k :: i <= k < j ==> !IsLineTerminator(c[k])
  }

  /** `/\[.*\]/`: a `[`, later a `]`, and no line break between them. */
  predicate BracketPair(c: string) {
    exists i, j :: 0 <= i < j < |c| && c[i] == '[' && c[j] == ']' && SameLine(c, i + 1, j)
  }

  /** `isShellCommand`: one of the eleven patterns matches. */
  predicate IsShellCommand(command: string) {
    Contains(command, "&&") || Contains(command, "||") || LonePipe(command) ||
    ';' in command || '`' in command || Contains(command, "$(") ||
    '>' in command || '<' in command || '*' in command || '?' in command ||
    BracketPair(command)
  }

  /** The three pipe patterns together match exactly the texts with a `|`. */
  lemma PipePatterns(c: string)
    ensures (Contains(c, "||") || LonePipe(c)) <==> '|' in c
  {
    if Contains(c, "||") {
      var i :| 0 <= i <= |c| && OccursAt(c, "||", i);
      assert c[i..i + 2][0] == c[i];
    }
    if '|' in c {
      var i :| 0 <= i < |c| && c[i] == '|';
      if i + 1 < |c| && c[i + 1] == '|' {
        assert c[i..i + 2] == "||";
        assert OccursAt(c, "||", i);
      }
    }
  }

  /** A command line is a shell command iff it holds `&&`, `|`, `;`, a
      backtick, `$(`, `>`, `<`, `*`, `?`, or a `[` with a `]` later on the
      same line. */
  lemma ShellCommandIff(c: string)
    ensures IsShellCommand(c) <==>
      Contains(c, "&&") || '|' in c || ';' in c || '`' in c || Contains(c, "$(") ||
      '>' in c || '<' in c || '*' in c || '?' in c || BracketPair(c)
  {
    PipePatterns(c);
  }

  /** A `[` and `]` on different lines is not a pattern; on one line it is. */
  lemma BracketExamples()
    ensures !BracketPair("a[\n]")
    ensures BracketPair("[ -f x ]")
  {
    var s := "a[\n]";
    forall i, j | 0 <= i < j < |s| && s[i] == '[' && s[j] == ']' ensures !SameLine(s, i + 1, j) {
      assert i == 1 && j == 3 && IsLineTerminator(s[2]);
    }
    var t := "[ -f x ]";
    assert t[0] == '[' && t[7] == ']' && SameLine(t, 1, 7);
  }

  /** A plain script path is not a shell command. */
  lemma ScriptPathIsNotShell()
    ensures !IsShellCommand("/bin/backup.sh")
  {
    var p := "/bin/backup.sh";
    FirstCharAbsent(p, "&&");
    FirstCharAbsent(p, "||");
    FirstCharAbsent(p, "$(");
    PipePatterns(p);
    assert !BracketPair(p) by {
      assert '[' !in p;
    }
  }

  // Assembly

  /** The first argument of `executeCommand`. */
  datatype CommandSource = FromConfig(config: CommandConfig) | FromString(path: string)

  /** A string stands for `{ commandLine: s }` and nothing else. */
  function ConfigOf(src: CommandSource): (c: CommandConfig)
    ensures src.FromString? ==> c == CommandConfig(src.path, None, None, None, None)
    ensures src.FromConfig? ==> c == src.config
  {
    match src
    case FromConfig(config) => config
    case FromString(path) => CommandConfig(path, None, None, None, None)
  }

  /** `replaceUserVariables(·, values, visibleInputIds, inputs, valueToCommandString)`. */
  function Subst(values: PromptValues, visible: set<string>, inputs: seq<PromptInput>): string -> string
  {
    s => VariableReplacer.UserVariables(s, values, visible, inputs, ValueConverter.ValueToCommandString)
  }

  /** The substituted arguments, none when `args` is absent. */
  function Args(config: CommandConfig, f: string -> string): (r: seq<string>)
    ensures config.args.None? ==> r == []
    ensures config.args.Some? ==> (|r| == |config.args.value| &&
      forall i :: 0 <= i < |r| ==> r[i] == f(config.args.value[i]))
  {
    if config.args.Some? then seq(|config.args.value|, i requires 0 <= i < |config.args.value| => f(config.args.value[i]))
    else []
  }

  /** The script environment: exactly the configured `envs` keys with
      substituted values, or, without `envs`, `valuesToEnv`. */
  function ScriptEnv(config: CommandConfig, values: PromptValues, visible: set<string>,
                     inputs: seq<PromptInput>, keys: seq<string>): (r: map<string, string>)
    requires EnumeratesKeys(values, keys)
    ensures config.envs.Some? ==> (r.Keys == config.envs.value.Keys &&
      forall k :: k in r ==> r[k] == Subst(values, visible, inputs)(config.envs.value[k]))
    ensures config.envs.None? ==> r == Env(values, visible, keys, Render(inputs))
  {
    if config.envs.Some? then
      map k | k in config.envs.value :: Subst(values, visible, inputs)(config.envs.value[k])
    else Env(values, visible, keys, Render(inputs))
  }

  const PathDirs: seq<string> := ["/opt/homebrew/bin", "/usr/local/bin", "/usr/bin", "/bin", "/usr/sbin", "/sbin"]

  /** `env.PATH || ""`. */
  function CurrentPath(env: map<string, string>): string
  {
    if "PATH" in env then env["PATH"] else ""
  }

  /** `dirs.filter(dir => !parts.includes(dir))`. */
  function Missing(dirs: seq<string>, parts: seq<string>): (r: seq<string>)
    ensures |r| <= |dirs|
    decreases |dirs|
  {
    if |dirs| == 0 then []
    else Missing(dirs[..|dirs| - 1], parts) + (if dirs[|dirs| - 1] in parts then [] else [dirs[|dirs| - 1]])
  }

  lemma {:induction false} MissingIff(dirs: seq<string>, parts: seq<string>, d: string)
    ensures d in Missing(dirs, parts) <==> d in dirs && d !in parts
    decreases |dirs|
  {
    if |dirs| > 0 {
      var init := dirs[..|dirs| - 1];
      MissingIff(init, parts, d);
      assert dirs == init + [dirs[|dirs| - 1]];
    }
  }

  lemma {:induction false} MissingAvoids(dirs: seq<string>, parts: seq<string>, c: char)
    requires forall i :: 0 <= i < |dirs| ==> c !in dirs[i]
    ensures forall i :: 0 <= i < |Missing(dirs, parts)| ==> c !in Missing(dirs, parts)[i]
    decreases |dirs|
  {
    if |dirs| > 0 {
      MissingAvoids(dirs[..|dirs| - 1], parts, c);
    }
  }

  /** The PATH merge: the fixed directories missing from PATH, in list
      order, joined with ":" in front of the current PATH. */
  function WithPath(env: map<string, string>): map<string, string>
  {
    var current := CurrentPath(env);
    var missing := Missing(PathDirs, Split(current, ':'));
    if |missing| == 0 then env
    else env["PATH" := if current != "" then Join(missing, ":") + ":" + current else Join(missing, ":")]
  }

  /** After the merge PATH lists every fixed directory; a non-empty PATH is
      kept whole as the suffix, behind exactly the missing directories; no
      other variable changes. */
  lemma PathMerge(env: map<string, string>)
    ensures var r := WithPath(env);
      "PATH" in r && r.Keys == env.Keys + {"PATH"} &&
      (forall k :: k in env && k != "PATH" ==> r[k] == env[k]) &&
      (forall d :: d in PathDirs ==> d in Split(r["PATH"], ':'))
    ensures var current := CurrentPath(env);
      current != "" ==> (EndsWith(WithPath(env)["PATH"], current) &&
        Split(WithPath(env)["PATH"], ':') == Missing(PathDirs, Split(current, ':')) + Split(current, ':'))
  {
    var current := CurrentPath(env);
    var parts := Split(current, ':');
    PathParts(env);
    forall d | d in PathDirs ensures d in Split(WithPath(env)["PATH"], ':') {
      MissingIff(PathDirs, parts, d);
    }
  }

  /** The merged PATH splits into the missing directories followed by the
      current entries, or into the missing directories alone when PATH was
      unset or empty. */
  lemma PathParts(env: map<string, string>)
    ensures var current := CurrentPath(env);
      var missing := Missing(PathDirs, Split(current, ':'));
      "PATH" in WithPath(env) &&
      Split(WithPath(env)["PATH"], ':') == (if current != "" then missing + Split(current, ':') else missing) &&
      (current != "" ==> EndsWith(WithPath(env)["PATH"], current))
  {
    var current := CurrentPath(env);
    var parts := Split(current, ':');
    var missing := Missing(PathDirs, parts);
    assert forall i :: 0 <= i < |PathDirs| ==> ':' !in PathDirs[i];
    MissingAvoids(PathDirs, parts, ':');
    if current == "" {
      assert parts == [""];
      MissingIff(PathDirs, parts, PathDirs[0]);
      assert PathDirs[0] in missing;
    }
    var r := WithPath(env);
    if |missing| == 0 {
      assert [] + parts == parts;
    } else {
      SplitJoin(missing, ':');
      if current != "" {
        SplitAround(Join(missing, ":"), current, ':');
        assert r["PATH"] == Join(missing, ":") + [':'] + current;
      } else {
        assert r["PATH"] == Join(missing, ":");
      }
    }
  }


  /** `config.cwd ? replaceUserVariables(config.cwd, ...) : undefined`. */
  function Cwd(config: CommandConfig, f: string -> string): (r: Option<string>)
    ensures r.Some? <==> config.cwd.Some? && config.cwd.value != ""
    ensures r.Some? ==> r.value == f(config.cwd.value)
  {
    if config.cwd.Some? && config.cwd.value != "" then Some(f(config.cwd.value)) else None
  }

  /** The environment of the process: process variables, then the script
      environment, then `LIB_SH`/`SCRIPT_DIR`, then the PATH merge. */
  function Environment(config: CommandConfig, values: PromptValues, visible: set<string>,
                       inputs: seq<PromptInput>, keys: seq<string>, process: map<string, string>): map<string, string>
    requires EnumeratesKeys(values, keys)
  {
    WithPath(MergeEnv(process, ScriptEnv(config, values, visible, inputs, keys)))
  }

  /** The last step: the working-directory check, then the process to start
      (a shell command runs as `/bin/sh -c line`, arguments unused). */
  function Launched(line: string, shell: bool, args: seq<string>, env: map<string, string>,
                    cwd: Option<string>, timeout: int, fileExists: string -> bool): (r: Launch)
    ensures r.Refused? <==> cwd.Some? && cwd.value != "" && !fileExists(cwd.value)
    ensures r.Ready? ==> r.env == env && r.cwd == cwd && r.timeout == timeout
    ensures r.Ready? && shell ==> r.file == "/bin/sh" && r.argv == ["-c", line]
    ensures r.Ready? && !shell ==> r.file == line && r.argv == args
  {
    if cwd.Some? && cwd.value != "" && !fileExists(cwd.value) then Refused("工作目录不存在: " + cwd.value)
    else if shell then Ready("/bin/sh", ["-c", line], env, cwd, timeout)
    else Ready(line, args, env, cwd, timeout)
  }

  /** Everything `executeCommand` does before `execFile`; `fileExists` and
      `executable` stand for `fs.existsSync` and the `X_OK` access check,
      `process` for `process.env`. Shell detection looks at the substituted
      line, and only a non-shell line is checked as a file. */
  function Prepare(src: CommandSource, values: PromptValues, visible: set<string>, inputs: seq<PromptInput>,
                   keys: seq<string>, process: map<string, string>,
                   fileExists: string -> bool, executable: string -> bool): Launch
    requires EnumeratesKeys(values, keys)
  {
    var config := ConfigOf(src);
    var f := Subst(values, visible, inputs);
    var line := f(config.commandLine);
    var shell := IsShellCommand(line);
    if !shell && !fileExists(line) then Refused("命令或脚本文件不存在: " + line)
    else if !shell && !executable(line) then Refused("文件不可执行: " + line)
    else Launched(line, shell, Args(config, f), Environment(config, values, visible, inputs, keys, process),
                  Cwd(config, f), EffectiveTimeout(config.timeout), fileExists)
  }

  /** The `args.push` loop. */
  method SubstituteArgs(config: CommandConfig, values: PromptValues, visible: set<string>, inputs: seq<PromptInput>)
    returns (args: seq<string>)
    ensures args == Args(config, Subst(values, visible, inputs))
  {
    args := [];
    if config.args.Some? {
      var source := config.args.value;
      var i := 0;
      while i < |source|
        invariant 0 <= i <= |source|
        invariant args == Args(config, Subst(values, visible, inputs))[..i]
      {
        var arg := VariableReplacer.ReplaceUserVariables(source[i], values, visible, inputs, ValueConverter.ValueToCommandString);
        args := args + [arg];
        i := i + 1;
      }
    }
  }

  /** The `scriptEnv` loop over `config.envs`. */
  method SubstituteEnvs(envs: map<string, string>, values: PromptValues, visible: set<string>, inputs: seq<PromptInput>)
    returns (scriptEnv: map<string, string>)
    ensures scriptEnv == map k | k in envs :: Subst(values, visible, inputs)(envs[k])
  {
    scriptEnv := map[];
    var pending := envs.Keys;
    while pending != {}
      invariant pending <= envs.Keys
      invariant scriptEnv == map k | k in envs.Keys - pending :: Subst(values, visible, inputs)(envs[k])
      decreases pending
    {
      var k :| k in pending;
      var v := VariableReplacer.ReplaceUserVariables(envs[k], values, visible, inputs, ValueConverter.ValueToCommandString);
      scriptEnv := scriptEnv[k := v];
      pending := pending - {k};
    }
  }

  /** The PATH rebuild. */
  method MergePath(env: map<string, string>) returns (env': map<string, string>)
    ensures env' == WithPath(env)
  {
    var current := if "PATH" in env then env["PATH"] else "";
    var parts := Split(current, ':');
    var missing := MissingDirs(PathDirs, parts);
    env' := env;
    if |missing| > 0 {
      env' := env["PATH" := if current != "" then Join(missing, ":") + ":" + current else Join(missing, ":")];
    }
  }

  /** The `filter` over the fixed directories. */
  method MissingDirs(dirs: seq<string>, parts: seq<string>) returns (missing: seq<string>)
    ensures missing == Missing(dirs, parts)
  {
    missing := [];
    var i := 0;
    while i < |dirs|
      invariant 0 <= i <= |dirs|
      invariant missing == Missing(dirs[..i], parts)
    {
      assert dirs[..i + 1][..i] == dirs[..i];
      if dirs[i] !in parts {
        missing := missing + [dirs[i]];
      }
      i := i + 1;
    }
    assert dirs[..i] == dirs;
  }

  /** The `scriptEnv` choice, the spread merge and the PATH rebuild. */
  method BuildEnvironment(config: CommandConfig, values: PromptValues, visible: set<string>,
                          inputs: seq<PromptInput>, keys: seq<string>, process: map<string, string>)
    returns (env: map<string, string>)
    requires EnumeratesKeys(values, keys)
    ensures env == Environment(config, values, visible, inputs, keys, process)
  {
    var scriptEnv: map<string, string>;
    if config.envs.Some? {
      scriptEnv := SubstituteEnvs(config.envs.value, values, visible, inputs);
    } else {
      scriptEnv := ValuesToEnv(values, visible, inputs, keys);
    }
    env := MergeEnv(process, scriptEnv);
    env := MergePath(env);
  }

  /** The substituted working directory, when one is configured. */
  method SubstituteCwd(config: CommandConfig, values: PromptValues, visible: set<string>, inputs: seq<PromptInput>)
    returns (cwd: Option<string>)
    ensures cwd == Cwd(config, Subst(values, visible, inputs))
  {
    cwd := None;
    if config.cwd.Some? && config.cwd.value != "" {
      var c := VariableReplacer.ReplaceUserVariables(config.cwd.value, values, visible, inputs,
                                                    ValueConverter.ValueToCommandString);
      cwd := Some(c);
    }
  }

  /** `executeCommand` up to the process start. */
  method PrepareCommand(src: CommandSource, values: PromptValues, visible: set<string>, inputs: seq<PromptInput>,
                        keys: seq<string>, process: map<string, string>,
                        fileExists: string -> bool, executable: string -> bool) returns (r: Launch)
    requires EnumeratesKeys(values, keys)
    ensures r == Prepare(src, values, visible, inputs, keys, process, fileExists, executable)
  {
    var config := ConfigOf(src);
    var line := VariableReplacer.ReplaceUserVariables(config.commandLine, values, visible, inputs,
                                                     ValueConverter.ValueToCommandString);
    var shell := IsShellCommand(line);
    if !shell {
      if !fileExists(line) {
        return Refused("命令或脚本文件不存在: " + line);
      }
      if !executable(line) {
        return Refused("文件不可执行: " + line);
      }
    }
    var args := SubstituteArgs(config, values, visible, inputs);
    var env := BuildEnvironment(config, values, visible, inputs, keys, process);
    var cwd := SubstituteCwd(config, values, visible, inputs);
    if cwd.Some? && cwd.value != "" && !fileExists(cwd.value) {
      return Refused("工作目录不存在: " + cwd.value);
    }
    var timeout := EffectiveTimeout(config.timeout);
    if shell {
      r := Ready("/bin/sh", ["-c", line], env, cwd, timeout);
    } else {
      r := Ready(line, args, env, cwd, timeout);
    }
  }

  /** The placeholder `{{cmd}}` receives the value of a visible `cmd`, and
      "" when `cmd` is hidden. */
  lemma SingleTokenLine(values: PromptValues)
    requires values == map["cmd" := VStr("ls | wc")]
    ensures Subst(values, {"cmd"}, [])("{{cmd}}") == "ls | wc"
    ensures Subst(values, {}, [])("{{cmd}}") == ""
  {
    assert Placeholders.IsName(Placeholders.WordOrHyphen, "cmd");
    assert "{{cmd}}" == "{{" + "cmd" + "}}" + "";
    VariableReplacer.TokenReplaced("cmd", "", values, {"cmd"}, [], ValueConverter.ValueToCommandString);
    VariableReplacer.TokenReplaced("cmd", "", values, {}, [], ValueConverter.ValueToCommandString);
  }

  lemma ShellExamples()
    ensures !IsShellCommand("{{cmd}}")
    ensures IsShellCommand("ls | wc")
    ensures !IsShellCommand("")
  {
    var c := "{{cmd}}";
    FirstCharAbsent(c, "&&");
    FirstCharAbsent(c, "||");
    FirstCharAbsent(c, "$(");
    PipePatterns(c);
    assert '[' !in c;
    var line := "ls | wc";
    assert line[3] == '|' && line[4] != '|';
    assert LonePipe(line);
  }

  /** Shell detection looks at the substituted line: a command line that is
      a single placeholder, not a shell command itself, runs under the shell
      when the value it receives holds a pipe. */
  lemma ShellDecidedAfterSubstitution(process: map<string, string>, fileExists: string -> bool, executable: string -> bool)
    ensures !IsShellCommand("{{cmd}}")
    ensures var r := Prepare(FromString("{{cmd}}"), map["cmd" := VStr("ls | wc")], {"cmd"}, [], ["cmd"],
                             process, fileExists, executable);
      r.Ready? && r.file == "/bin/sh" && r.argv == ["-c", "ls | wc"]
  {
    var values := map["cmd" := VStr("ls | wc")];
    SingleTokenLine(values);
    ShellExamples();
    var config := ConfigOf(FromString("{{cmd}}"));
    var f := Subst(values, {"cmd"}, []);
    assert f(config.commandLine) == "ls | wc";
    assert Cwd(config, f) == None;
  }

  /** With the field hidden the line is "", which is checked as a file. */
  lemma HiddenFieldLineIsAPath(process: map<string, string>, fileExists: string -> bool, executable: string -> bool)
    ensures !fileExists("") ==>
      Prepare(FromString("{{cmd}}"), map["cmd" := VStr("ls | wc")], {}, [], ["cmd"], process, fileExists, executable)
        == Refused("命令或脚本文件不存在: ")
  {
    var values := map["cmd" := VStr("ls | wc")];
    SingleTokenLine(values);
    ShellExamples();
    if !fileExists("") {
      MissingFileRefused(FromString("{{cmd}}"), values, {}, [], ["cmd"], process, fileExists, executable);
      assert "命令或脚本文件不存在: " + "" == "命令或脚本文件不存在: ";
    }
  }

  /** A substituted line that is no shell command and names no existing
      file is refused with the line in the message. */
  lemma MissingFileRefused(src: CommandSource, values: PromptValues, visible: set<string>, inputs: seq<PromptInput>,
                           keys: seq<string>, process: map<string, string>,
                           fileExists: string -> bool, executable: string -> bool)
    requires EnumeratesKeys(values, keys)
    requires var line := Subst(values, visible, inputs)(ConfigOf(src).commandLine);
      !IsShellCommand(line) && !fileExists(line)
    ensures Prepare(src, values, visible, inputs, keys, process, fileExists, executable)
      == Refused("命令或脚本文件不存在: " + Subst(values, visible, inputs)(ConfigOf(src).commandLine))
  {
  }


  // The error text

  /** `s && s.trim()`: a stream that is present and not blank. */
  predicate Shows(s: Option<string>) {
    s.Some? && HasText(s.value)
  }

  const StderrHeading := "\n\n标准错误输出:\n"
  const StdoutHeading := "\n\n标准输出:\n"

  /** A stream's section: its heading and trimmed text, or nothing. */
  function Section(s: Option<string>, heading: string): string
  {
    if Shows(s) then heading + Trim(s.value) else ""
  }

  function Header(code: JsValue): string
  {
    "命令执行失败 (exit code " + ExitCodeText(code) + ")"
  }

  /** The original message, kept only when neither stream shows text. */
  function Fallback(stdout: Option<string>, stderr: Option<string>, message: string): string
  {
    if !Shows(stderr) && !Shows(stdout) then "\n\n" + message else ""
  }

  /** The message of the enhanced error: the exit-code line, the trimmed
      stderr and stdout sections when they are not blank, and the original
      message only when both are. */
  function ErrorText(code: JsValue, stdout: Option<string>, stderr: Option<string>, message: string): string
  {
    Header(code) + (Section(stderr, StderrHeading) + (Section(stdout, StdoutHeading) + Fallback(stdout, stderr, message)))
  }

  /** The `errorParts.push` sequence, joined with "". */
  method ErrorMessage(code: JsValue, stdout: Option<string>, stderr: Option<string>, message: string)
    returns (text: string)
    ensures text == ErrorText(code, stdout, stderr, message)
  {
    var showErr := stderr.Some? && HasText(stderr.value);
    var showOut := stdout.Some? && HasText(stdout.value);
    var e := if showErr then StderrHeading + Trim(stderr.value) else "";
    var o := if showOut then StdoutHeading + Trim(stdout.value) else "";
    var parts: seq<string> := [Header(code)];
    if showErr {
      parts := parts + [e];
    }
    if showOut {
      parts := parts + [o];
    }
    if !showErr && !showOut {
      parts := parts + ["\n\n" + message];
    }
    text := Join(parts, "");
    JoinParts(Header(code), e, o, "\n\n" + message, showErr, showOut, parts);
  }

  /** The pushed parts joined with "" give the header followed by the
      parts that were pushed. */
  lemma JoinParts(h: string, e: string, o: string, f: string, showErr: bool, showOut: bool, parts: seq<string>)
    requires parts == [h] + (if showErr then [e] else []) + (if showOut then [o] else [])
      + (if !showErr && !showOut then [f] else [])
    requires !showErr ==> e == ""
    requires !showOut ==> o == ""
    ensures Join(parts, "") == h + (e + (o + (if !showErr && !showOut then f else "")))
  {
    assert h + "" == h;
    if showErr && showOut {
      assert parts == [h, e, o] && parts[1..] == [e, o] && parts[1..][1..] == [o];
      assert Join(parts[1..][1..], "") == o;
      assert e + "" == e;
      assert Join(parts[1..], "") == e + o;
      assert o + "" == o;
    } else {
      var last := if showErr then e else if showOut then o else f;
      assert parts == [h, last] && parts[1..] == [last];
      assert e + (o + (if !showErr && !showOut then f else "")) == last;
    }
  }

  /** Where the parts of a header-first text can be found. */
  lemma PartsPlaced(h: string, e: string, o: string, f: string)
    ensures StartsWith(h + (e + (o + f)), h)
    ensures f == "" ==> EndsWith(h + (e + (o + f)), o)
    ensures f == "" && o == "" ==> EndsWith(h + (e + (o + f)), e)
    ensures e == "" && o == "" ==> h + (e + (o + f)) == h + f
  {
    var t := h + (e + (o + f));
    assert t[..|h|] == h;
    if f == "" {
      assert o + f == o;
      assert t[|t| - |o|..] == o;
      if o == "" {
        assert t[|t| - |e|..] == e;
      }
    }
    if e == "" && o == "" {
      assert e + (o + f) == f;
    }
  }

  /** The exit-code line always comes first; with no output the message
      follows it directly; with output the text ends with the last
      non-blank stream, stdout preferred. */
  lemma ErrorTextShape(code: JsValue, stdout: Option<string>, stderr: Option<string>, message: string)
    ensures StartsWith(ErrorText(code, stdout, stderr, message), Header(code))
    ensures !Shows(stderr) && !Shows(stdout) ==> ErrorText(code, stdout, stderr, message) == Header(code) + "\n\n" + message
    ensures Shows(stdout) ==> EndsWith(ErrorText(code, stdout, stderr, message), StdoutHeading + Trim(stdout.value))
    ensures Shows(stderr) && !Shows(stdout) ==>
      EndsWith(ErrorText(code, stdout, stderr, message), StderrHeading + Trim(stderr.value))
    ensures !Truthy(code) ==> Header(code) == "命令执行失败 (exit code unknown)"
  {
    PartsPlaced(Header(code), Section(stderr, StderrHeading), Section(stdout, StdoutHeading),
      Fallback(stdout, stderr, message));
  }
}
