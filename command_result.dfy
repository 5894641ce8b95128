/** `src/components/CommandResult.tsx`: the Markdown report shown after a
    command ran. The report is built by appending one block after another;
    here each block is a `Section`, rendered by `Text`. */
module CommandResult {
  import opened Js

  datatype Props = Props(
    success: bool,
    commandLine: string,
    args: Option<seq<string>>,
    exitCode: Option<int>,
    stdout: Option<string>,
    stderr: Option<string>,
    error: Option<string>)

  /** `fullCommand`: the command line, followed by the arguments joined
      with spaces when there are any. */
  function FullCommand(p: Props): (r: string)
    ensures p.args.None? || |p.args.value| == 0 ==> r == p.commandLine
    ensures p.args.Some? && |p.args.value| > 0 ==>
      r == p.commandLine + " " + Join(p.args.value, " ")
  {
    if p.args.Some? && |p.args.value| > 0 then p.commandLine + " " + Join(p.args.value, " ")
    else p.commandLine
  }

  /** One argument adds exactly one space and the argument. */
  lemma FullCommandOneArg(p: Props, a: string)
    requires p.args == Some([a])
    ensures FullCommand(p) == p.commandLine + " " + a
  {
  }

  /** The blocks of the report. */
  datatype Section =
    | Heading(success: bool)
    | Command(full: string)
    | ExitCode(code: int)
    | Stdout(text: string)
    | NoStdout
    | Stderr(text: string)
    | Error(text: string)

  /** The Markdown of one block. */
  function Text(s: Section): string
  {
    match s
    case Heading(ok) => "# " + (if ok then "✅ 命令执行成功" else "❌ 命令执行失败") + "\n\n"
    case Command(full) => "## 命令\n\n```bash\n" + full + "\n```\n\n"
    case ExitCode(code) => "## 退出码\n\n" + ToJsString(Num(code)) + "\n\n"
    case Stdout(text) => "## 标准输出 (stdout)\n\n```\n" + text + "\n```\n\n"
    case NoStdout => "## 标准输出 (stdout)\n\n*无输出*\n\n"
    case Stderr(text) => "## 标准错误 (stderr)\n\n```\n" + text + "\n```\n\n"
    case Error(text) => "## 错误信息\n\n```\n" + text + "\n```\n\n"
  }

  /** `out && out.trim()` as a condition, then `out.trim()`: the trimmed
      stream when it has a non-space character. */
  function Shown(out: Option<string>): (r: Option<string>)
  {
    if out.Some? && HasText(out.value) then Some(Trim(out.value)) else None
  }

  /** A shown stream is the trimmed one, non-empty; blank streams are not
      shown. */
  lemma ShownIsTrimmed(out: Option<string>)
    ensures Shown(out).Some? <==> out.Some? && Trim(out.value) != ""
    ensures Shown(out).Some? ==> Shown(out).value == Trim(out.value) && Shown(out).value != ""
  {
  }

  /** The opening blocks: heading, command, and the exit code when it is
      known. */
  function Head(p: Props): seq<Section>
  {
    [Heading(p.success), Command(FullCommand(p))] + (if p.exitCode.Some? then [ExitCode(p.exitCode.value)] else [])
  }

  /** The block when the condition holds, or none. */
  function Part(cond: bool, block: Section): seq<Section>
  {
    if cond then [block] else []
  }

  /** The blocks after the opening ones, given the shown streams. */
  function Layout(success: bool, error: Option<string>, out: Option<string>, err: Option<string>): seq<Section>
  {
    if success then
      [if out.Some? then Stdout(out.value) else NoStdout] + Part(err.Some?, Stderr(OrEmpty(err)))
    else
      Part(error.Some? && error.value != "", Error(OrEmpty(error))) + Part(err.Some?, Stderr(OrEmpty(err)))
        + Part(out.Some?, Stdout(OrEmpty(out)))
  }

  /** The blocks in the order the component appends them. */
  function Sections(p: Props): seq<Section>
  {
    SectionsFrom(p, Shown(p.stdout), Shown(p.stderr))
  }

  /** The blocks, given the shown streams. */
  function SectionsFrom(p: Props, out: Option<string>, err: Option<string>): seq<Section>
  {
    Head(p) + Layout(p.success, p.error, out, err)
  }

  /** The blocks' text appended, one `+=` at a time, to `m`. */
  function Emit(m: string, ss: seq<Section>): string
  {
    if |ss| == 0 then m else Emit(m, ss[..|ss| - 1]) + Text(ss[|ss| - 1])
  }

  /** The blocks concatenated. */
  function Concat(ss: seq<Section>): string
  {
    Emit("", ss)
  }

  /** The position a block takes: success lists stdout before stderr,
      failure lists the error, then stderr, then stdout. */
  function Rank(success: bool, s: Section): int
  {
    match s
    case Heading(_) => 0
    case Command(_) => 1
    case ExitCode(_) => 2
    case Stdout(_) => if success then 3 else 5
    case NoStdout => 3
    case Stderr(_) => 4
    case Error(_) => 3
  }

  /** Ranks strictly increase along the blocks. */
  predicate Increasing(success: bool, ss: seq<Section>)
  {
    forall i, j :: 0 <= i < j < |ss| ==> Rank(success, ss[i]) < Rank(success, ss[j])
  }

  /** Every rank lies between `lo` and `hi`. */
  predicate Within(success: bool, ss: seq<Section>, lo: int, hi: int)
  {
    forall i :: 0 <= i < |ss| ==> lo <= Rank(success, ss[i]) <= hi
  }

  lemma WithinConcat(success: bool, x: seq<Section>, y: seq<Section>, lo: int, hi: int)
    requires Within(success, x, lo, hi) && Within(success, y, lo, hi)
    ensures Within(success, x + y, lo, hi)
  {
    var z := x + y;
    forall i | 0 <= i < |z| ensures lo <= Rank(success, z[i]) <= hi {
      if i < |x| {
        assert z[i] == x[i];
      } else {
        assert z[i] == y[i - |x|];
      }
    }
  }

  /** Two increasing runs whose ranks do not overlap make one. */
  lemma IncreasingConcat(success: bool, x: seq<Section>, y: seq<Section>, m: int)
    requires Increasing(success, x) && Increasing(success, y)
    requires Within(success, x, 0, m) && Within(success, y, m + 1, 5)
    ensures Increasing(success, x + y)
  {
    var z := x + y;
    forall i, j | 0 <= i < j < |z| ensures Rank(success, z[i]) < Rank(success, z[j]) {
      if j < |x| {
        assert z[i] == x[i] && z[j] == x[j];
      } else if i >= |x| {
        assert z[i] == y[i - |x|] && z[j] == y[j - |x|];
      } else {
        assert z[i] == x[i] && z[j] == y[j - |x|];
      }
    }
  }

  /** The blocks after the opening ones come in rank order, ranked from
      3 to 5. */
  lemma LayoutOrder(success: bool, error: Option<string>, out: Option<string>, err: Option<string>)
    ensures var l := Layout(success, error, out, err);
      Increasing(success, l) && Within(success, l, 3, 5)
  {
    if success {
      SuccessOrder(out, err);
    } else {
      FailureOrder(error, out, err);
    }
  }

  /** A guarded block is a run of at most one block. */
  lemma PartWithin(success: bool, cond: bool, block: Section, lo: int, hi: int)
    requires lo <= Rank(success, block) <= hi
    ensures Increasing(success, Part(cond, block)) && Within(success, Part(cond, block), lo, hi)
  {
  }

  lemma SuccessOrder(out: Option<string>, err: Option<string>)
    ensures var l := Layout(true, None, out, err);
      Increasing(true, l) && Within(true, l, 3, 5)
  {
    var first := if out.Some? then Stdout(out.value) else NoStdout;
    var stderrPart := Part(err.Some?, Stderr(OrEmpty(err)));
    PartWithin(true, true, first, 0, 3);
    PartWithin(true, true, first, 3, 5);
    PartWithin(true, err.Some?, Stderr(OrEmpty(err)), 4, 5);
    PartWithin(true, err.Some?, Stderr(OrEmpty(err)), 3, 5);
    assert Part(true, first) == [first];
    IncreasingConcat(true, [first], stderrPart, 3);
    WithinConcat(true, [first], stderrPart, 3, 5);
  }

  lemma FailureOrder(error: Option<string>, out: Option<string>, err: Option<string>)
    ensures var l := Layout(false, error, out, err);
      Increasing(false, l) && Within(false, l, 3, 5)
  {
    var front := Part(error.Some? && error.value != "", Error(OrEmpty(error))) + Part(err.Some?, Stderr(OrEmpty(err)));
    FailureFront(error, err);
    PartWithin(false, out.Some?, Stdout(OrEmpty(out)), 5, 5);
    PartWithin(false, out.Some?, Stdout(OrEmpty(out)), 3, 5);
    IncreasingConcat(false, front, Part(out.Some?, Stdout(OrEmpty(out))), 4);
    WithinConcat(false, front, Part(out.Some?, Stdout(OrEmpty(out))), 3, 5);
  }

  lemma FailureFront(error: Option<string>, err: Option<string>)
    ensures var l := Part(error.Some? && error.value != "", Error(OrEmpty(error))) + Part(err.Some?, Stderr(OrEmpty(err)));
      Increasing(false, l) && Within(false, l, 0, 4) && Within(false, l, 3, 5)
  {
    var errorPart := Part(error.Some? && error.value != "", Error(OrEmpty(error)));
    var stderrPart := Part(err.Some?, Stderr(OrEmpty(err)));
    PartWithin(false, error.Some? && error.value != "", Error(OrEmpty(error)), 0, 3);
    PartWithin(false, error.Some? && error.value != "", Error(OrEmpty(error)), 3, 5);
    PartWithin(false, error.Some? && error.value != "", Error(OrEmpty(error)), 0, 4);
    PartWithin(false, err.Some?, Stderr(OrEmpty(err)), 4, 5);
    PartWithin(false, err.Some?, Stderr(OrEmpty(err)), 0, 4);
    PartWithin(false, err.Some?, Stderr(OrEmpty(err)), 3, 5);
    IncreasingConcat(false, errorPart, stderrPart, 3);
    WithinConcat(false, errorPart, stderrPart, 0, 4);
    WithinConcat(false, errorPart, stderrPart, 3, 5);
  }

  /** The report opens with the heading and the command block; the ranks
      strictly increase, so every kind of block appears at most once and
      in the order `Rank` gives. */
  lemma SectionsOrder(p: Props)
    ensures var ss := Sections(p);
      |ss| >= 2 && ss[0] == Heading(p.success) && ss[1] == Command(FullCommand(p)) &&
      Increasing(p.success, ss)
  {
    var h := Head(p);
    assert Increasing(p.success, h) && Within(p.success, h, 0, 2);
    LayoutOrder(p.success, p.error, Shown(p.stdout), Shown(p.stderr));
    IncreasingConcat(p.success, h, Layout(p.success, p.error, Shown(p.stdout), Shown(p.stderr)), 2);
  }

  /** The exit-code block is there exactly when the exit code is known. */
  lemma ExitCodeShown(p: Props)
    ensures p.exitCode.Some? ==> ExitCode(p.exitCode.value) in Sections(p)
    ensures (exists i :: 0 <= i < |Sections(p)| && Sections(p)[i].ExitCode?) ==> p.exitCode.Some?
  {
    var ss := Sections(p);
    var l := Layout(p.success, p.error, Shown(p.stdout), Shown(p.stderr));
    LayoutOrder(p.success, p.error, Shown(p.stdout), Shown(p.stderr));
    if p.exitCode.Some? {
      assert ss[2] == ExitCode(p.exitCode.value);
    } else {
      forall i | 0 <= i < |ss| ensures !ss[i].ExitCode? {
        if i >= 2 {
          assert ss[i] == l[i - 2];
          assert Rank(p.success, l[i - 2]) >= 3;
        }
      }
    }
  }

  /** Which blocks the layout holds, given the shown streams. */
  lemma LayoutContent(success: bool, error: Option<string>, out: Option<string>, err: Option<string>, t: string)
    ensures var l := Layout(success, error, out, err);
      (NoStdout in l <==> success && out.None?) &&
      (Stdout(t) in l <==> out == Some(t)) &&
      (Stderr(t) in l <==> err == Some(t)) &&
      (Error(t) in l <==> !success && error == Some(t) && t != "")
  {
  }

  lemma SectionsFromContent(p: Props, out: Option<string>, err: Option<string>, t: string)
    ensures var ss := SectionsFrom(p, out, err);
      (NoStdout in ss <==> p.success && out.None?) &&
      (Stdout(t) in ss <==> out == Some(t)) &&
      (Stderr(t) in ss <==> err == Some(t)) &&
      (Error(t) in ss <==> !p.success && p.error == Some(t) && t != "")
  {
    var h := Head(p);
    LayoutContent(p.success, p.error, out, err, t);
    assert NoStdout !in h && Stdout(t) !in h && Stderr(t) !in h && Error(t) !in h;
  }

  /** On success stdout always has a block, the placeholder when it is
      blank; the placeholder never appears on failure. Output blocks hold
      the trimmed stream and appear only when it has text; the error block
      holds the error unchanged and appears only on failure with a
      non-empty error. */
  lemma SectionsContent(p: Props, t: string)
    ensures NoStdout in Sections(p) <==> p.success && Shown(p.stdout).None?
    ensures Stdout(t) in Sections(p) <==> Shown(p.stdout) == Some(t)
    ensures Stderr(t) in Sections(p) <==> Shown(p.stderr) == Some(t)
    ensures Error(t) in Sections(p) <==> !p.success && p.error == Some(t) && t != ""
  {
    SectionsFromContent(p, Shown(p.stdout), Shown(p.stderr), t);
  }

  /** Appending two runs of blocks is appending the first, then the
      second. */
  lemma {:induction false} EmitJoin(m: string, x: seq<Section>, y: seq<Section>)
    ensures Emit(m, x + y) == Emit(Emit(m, x), y)
    decreases |y|
  {
    if |y| == 0 {
      assert x + y == x;
    } else {
      assert (x + y)[..|x + y| - 1] == x + y[..|y| - 1];
      EmitJoin(m, x, y[..|y| - 1]);
    }
  }

  /** Appending one block appends its text. */
  lemma EmitOne(m: string, s: Section)
    ensures Emit(m, [s]) == m + Text(s)
  {
    assert [s][..0] == [];
  }

  /** A guarded block is appended exactly when the guard holds. */
  lemma EmitPart(m: string, cond: bool, s: Section)
    ensures Emit(m, Part(cond, s)) == if cond then m + Text(s) else m
  {
    if cond {
      EmitOne(m, s);
    }
  }

  /** The component's `markdown` string. */
  method Markdown(p: Props) returns (markdown: string)
    ensures markdown == Concat(Sections(p))
  {
    var stdout := Shown(p.stdout);
    var stderr := Shown(p.stderr);
    markdown := Append(p, stdout, stderr);
  }

  /** The successive `+=` of the component, given the shown streams. */
  method Append(p: Props, stdout: Option<string>, stderr: Option<string>) returns (markdown: string)
    ensures markdown == Concat(SectionsFrom(p, stdout, stderr))
  {
    var fullCommand := if p.args.Some? && |p.args.value| > 0 then p.commandLine + " " + Join(p.args.value, " ")
      else p.commandLine;
    markdown := Text(Heading(p.success));
    markdown := markdown + Text(Command(fullCommand));
    if p.exitCode.Some? {
      markdown := markdown + Text(ExitCode(p.exitCode.value));
    }
    HeadText(p);
    assert fullCommand == FullCommand(p);
    assert markdown == Emit("", Head(p));
    if p.success {
      assert Layout(true, None, stdout, stderr) == Layout(p.success, p.error, stdout, stderr);
      markdown := AppendSuccess(markdown, stdout, stderr);
    } else {
      markdown := AppendFailure(markdown, p.error, stdout, stderr);
    }
    EmitJoin("", Head(p), Layout(p.success, p.error, stdout, stderr));
  }

  /** The opening blocks' text. */
  lemma HeadText(p: Props)
    ensures Concat(Head(p)) == Text(Heading(p.success)) + Text(Command(FullCommand(p))) +
      (if p.exitCode.Some? then Text(ExitCode(p.exitCode.value)) else "")
  {
    var first := Text(Heading(p.success));
    EmitOne("", Heading(p.success));
    assert "" + first == first;
    EmitJoin("", [Heading(p.success)], [Command(FullCommand(p))]);
    EmitOne(first, Command(FullCommand(p)));
    var h := [Heading(p.success), Command(FullCommand(p))];
    assert [Heading(p.success)] + [Command(FullCommand(p))] == h;
    var e := ExitCode(if p.exitCode.Some? then p.exitCode.value else 0);
    EmitJoin("", h, Part(p.exitCode.Some?, e));
    EmitPart(Emit("", h), p.exitCode.Some?, e);
    assert Head(p) == h + Part(p.exitCode.Some?, e);
  }

  /** The `+=` of the success branch. */
  method AppendSuccess(markdown: string, stdout: Option<string>, stderr: Option<string>) returns (r: string)
    ensures r == Emit(markdown, Layout(true, None, stdout, stderr))
  {
    r := markdown;
    if stdout.Some? {
      r := r + Text(Stdout(stdout.value));
    } else {
      r := r + Text(NoStdout);
    }
    if stderr.Some? {
      r := r + Text(Stderr(stderr.value));
    }
    var first := if stdout.Some? then Stdout(stdout.value) else NoStdout;
    EmitOne(markdown, first);
    EmitJoin(markdown, [first], Part(stderr.Some?, Stderr(OrEmpty(stderr))));
    EmitPart(markdown + Text(first), stderr.Some?, Stderr(OrEmpty(stderr)));
  }

  /** The `+=` of the failure branch. */
  method AppendFailure(markdown: string, error: Option<string>, stdout: Option<string>, stderr: Option<string>)
    returns (r: string)
    ensures r == Emit(markdown, Layout(false, error, stdout, stderr))
  {
    r := markdown;
    if error.Some? && error.value != "" {
      r := r + Text(Error(error.value));
    }
    ghost var r1 := r;
    if stderr.Some? {
      r := r + Text(Stderr(stderr.value));
    }
    ghost var r2 := r;
    if stdout.Some? {
      r := r + Text(Stdout(stdout.value));
    }
    var a := Part(error.Some? && error.value != "", Error(OrEmpty(error)));
    var b := Part(stderr.Some?, Stderr(OrEmpty(stderr)));
    var c := Part(stdout.Some?, Stdout(OrEmpty(stdout)));
    EmitPart(markdown, error.Some? && error.value != "", Error(OrEmpty(error)));
    EmitPart(r1, stderr.Some?, Stderr(OrEmpty(stderr)));
    EmitPart(r2, stdout.Some?, Stdout(OrEmpty(stdout)));
    EmitJoin(markdown, a, b);
    EmitJoin(markdown, a + b, c);
  }
}

