/** Properties of the shell model: dispatch, the read-eval loop, cat, su and echo. */
module ShellFacts {
  import opened Base
  import Decimal
  import opened Text
  import opened Commands

  // ---------------------------------------------------------------- helpers for stating results

  /** What cat prints for `lines` read from stdin, numbering from `n` when `numbered`. */
  function Listing(numbered: bool, n: nat, lines: seq<string>): string
    decreases |lines|
  {
    if lines == [] then ""
    else
      CatLine(numbered, n, lines[0])
      + Listing(numbered, NextNumber(numbered, n), lines[1..])
  }

  /** The stderr complaints cat writes for `files`, one per file, in order. */
  function Complaints(prog: string, files: seq<string>): string
    decreases |files|
  {
    if files == [] then "" else NoSuchFile(prog, files[0]) + Complaints(prog, files[1..])
  }

  function Repeat(s: string, k: nat): string
  {
    if k == 0 then "" else s + Repeat(s, k - 1)
  }

  lemma RepeatStep(t: string, s: string, k: nat)
    ensures t + s + Repeat(s, k) == t + Repeat(s, k + 1)
  {
  }

  /** The status after the lines of a script of `true`, `false` and empty lines. */
  function ScriptStatus(lastStatus: uint32, script: seq<string>): uint32
    decreases |script|
  {
    if script == [] then lastStatus
    else
      var s: uint32 := if script[0] == "true" then 0 else if script[0] == "false" then 1 else lastStatus;
      ScriptStatus(s, script[1..])
  }

  /** The lines a no-op script may hold. */
  predicate IsNoOpLine(line: string)
  {
    line == "" || line == "true" || line == "false"
  }

  function Appended(s: Sink, data: string): Sink
  {
    s.(text := s.text + data)
  }

  /** Whether the sink accepts `n` more writes. */
  predicate HasRoom(s: Sink, n: nat)
  {
    s.room.Unbounded? || s.room.writes >= n
  }

  /** The sink after `n` successful writes that together wrote `data`. */
  function Used(s: Sink, data: string, n: nat): Sink
    requires HasRoom(s, n)
  {
    Sink(s.text + data, if s.room.Unbounded? then Unbounded else Remaining(s.room.writes - n))
  }

  // ---------------------------------------------------------------- executeProgram

  /** An empty argument vector is a no-op with status 0. */
  lemma ExecuteEmptyArgs(ctx: Context, env: Env)
    requires ctx.args == []
    ensures ExecuteSpec(ctx, env) == Outcome(0, None, env)
  {
  }

  /** An unknown name: exactly one "command not found" line on stderr, nothing on stdout, status 127, no error. */
  lemma ExecuteUnknown(ctx: Context, env: Env)
    requires |ctx.args| > 0 && ctx.args[0] !in Registry
    requires CanWrite(env.stderr)
    ensures ExecuteSpec(ctx, env) == Outcome(127, None, env.(stderr := Write(env.stderr, ctx.args[0] + ": command not found\n")))
    ensures ExecuteSpec(ctx, env).env.stderr.text == env.stderr.text + ctx.args[0] + ": command not found\n"
  {
  }

  /** A failing stderr does not change the outcome of an unknown name: still 127 and no error. */
  lemma ExecuteUnknownIgnoresWriteError(ctx: Context, env: Env)
    requires |ctx.args| > 0 && ctx.args[0] !in Registry
    ensures ExecuteSpec(ctx, env).status == 127 && ExecuteSpec(ctx, env).err == None
    ensures ExecuteSpec(ctx, env).env.stdout == env.stdout && ExecuteSpec(ctx, env).env.input == env.input
  {
  }

  /** `true` and `false` write nothing and return 0 and 1. */
  lemma TrueAndFalse(ctx: Context, env: Env)
    requires |ctx.args| > 0 && ctx.args[0] in {"true", "false"}
    ensures ExecuteSpec(ctx, env) == Outcome(if ctx.args[0] == "true" then 0 else 1, None, env)
  {
  }

  /** `su` and `su NAME` run `sh` as root or as NAME, in an otherwise unchanged context,
      and return exactly what that shell returns. */
  lemma SuRunsShell(ctx: Context, env: Env)
    requires |ctx.args| > 0 && ctx.args[0] == "su"
    ensures ExecuteSpec(ctx, env) == ShellSpec(Context(["sh"], ctx.pty, if |ctx.args| > 1 then ctx.args[1] else "root"), env)
  {
    var sh := SuContext(ctx);
    assert sh == Context(["sh"], ctx.pty, if |ctx.args| > 1 then ctx.args[1] else "root");
    assert ExecuteSpec(ctx, env) == SuSpec(ctx, env);
    assert ExecuteSpec(sh, env) == ShellSpec(sh, env);
  }

  // ---------------------------------------------------------------- one turn of the shell loop

  /** A read error ends the loop after the prompt, with the last status and that error. */
  lemma ShellReadError(ctx: Context, prompt: string, last: uint32, env: Env)
    requires env.input == []
    ensures ShellLoop(ctx, prompt, last, env)
      == Outcome(last, Some(ReadErr(env.inputEnd)), env.(stdout := Write(env.stdout, prompt)))
  {
  }

  /** A zero-length line changes nothing but the prompt that preceded it. */
  lemma ShellEmptyLine(ctx: Context, prompt: string, last: uint32, env: Env)
    requires |env.input| > 0 && env.input[0] == ""
    ensures ShellLoop(ctx, prompt, last, env)
      == ShellLoop(ctx, prompt, last, env.(input := env.input[1..], stdout := Write(env.stdout, prompt)))
  {
  }

  /** A nonempty line of whitespace only: the Go code indexes an empty field list and panics. */
  lemma ShellBlankLinePanics(ctx: Context, prompt: string, last: uint32, env: Env)
    requires |env.input| > 0 && env.input[0] != "" && IsBlank(env.input[0])
    ensures ShellLoop(ctx, prompt, last, env)
      == Outcome(last, Some(IndexOutOfRange), env.(input := env.input[1..], stdout := Write(env.stdout, prompt)))
  {
    FieldsEmptyIffBlank(env.input[0]);
  }

  /** `exit [N]` ends the loop with parseExitStatus and no error, after reading just that line. */
  lemma ShellExit(ctx: Context, prompt: string, last: uint32, env: Env)
    requires |env.input| > 0 && Fields(env.input[0]) != [] && Fields(env.input[0])[0] == "exit"
    ensures ShellLoop(ctx, prompt, last, env)
      == Outcome(ParseExitStatus(Fields(env.input[0]), last), None,
                 env.(input := env.input[1..], stdout := Write(env.stdout, prompt)))
  {
  }

  /** Any other line is run through executeProgram with the line's fields as arguments; an error
      from it ends the loop unchanged, otherwise its status becomes the last status. */
  lemma ShellDispatch(ctx: Context, prompt: string, last: uint32, env: Env)
    requires |env.input| > 0 && Fields(env.input[0]) != [] && Fields(env.input[0])[0] != "exit"
    ensures var env2 := env.(input := env.input[1..], stdout := Write(env.stdout, prompt));
            var r := ExecuteSpec(ctx.(args := Fields(env.input[0])), env2);
            ShellLoop(ctx, prompt, last, env) == if r.err.Some? then r else ShellLoop(ctx, prompt, r.status, r.env)
  {
    assert env.input[0] != [];
  }

  lemma FieldsOfWord(w: string)
    requires IsField(w)
    ensures Fields(w) == [w]
  {
    FieldsOfField(w, "");
    assert w + "" == w;
  }

  /** One turn on an empty, `true` or `false` line: one prompt, one line read, the status updated. */
  lemma ShellNoOpTurn(ctx: Context, prompt: string, last: uint32, env: Env)
    requires |env.input| > 0 && IsNoOpLine(env.input[0])
    requires env.stdout.room == Unbounded
    ensures ShellLoop(ctx, prompt, last, env)
      == ShellLoop(ctx, prompt, ScriptStatus(last, [env.input[0]]),
                   env.(input := env.input[1..], stdout := Appended(env.stdout, prompt)))
  {
    var line := env.input[0];
    var env2 := env.(input := env.input[1..], stdout := Appended(env.stdout, prompt));
    if line == "" {
      ShellEmptyLine(ctx, prompt, last, env);
    } else {
      FieldsOfWord(line);
      ShellDispatch(ctx, prompt, last, env);
      TrueAndFalse(ctx.(args := [line]), env2);
    }
  }

  /** A bare `exit` ends the loop with the last status. */
  lemma ShellExitLine(ctx: Context, prompt: string, last: uint32, env: Env)
    requires |env.input| > 0 && env.input[0] == "exit"
    ensures ShellLoop(ctx, prompt, last, env)
      == Outcome(last, None, env.(input := env.input[1..], stdout := Write(env.stdout, prompt)))
  {
    FieldsOfWord("exit");
    ShellExit(ctx, prompt, last, env);
  }

  /** A script of `true`, `false` and empty lines followed by `exit`: one prompt per line read,
      and the loop ends with the status of the last command (the initial status if none ran). */
  lemma {:induction false} ShellRunsScript(ctx: Context, prompt: string, last: uint32, env: Env,
                                            script: seq<string>, rest: seq<string>)
    requires env.input == script + ["exit"] + rest
    requires forall i :: 0 <= i < |script| ==> IsNoOpLine(script[i])
    requires env.stdout.room == Unbounded
    ensures ShellLoop(ctx, prompt, last, env)
      == Outcome(ScriptStatus(last, script), None,
                 env.(input := rest, stdout := Appended(env.stdout, Repeat(prompt, |script| + 1))))
    decreases |script|
  {
    var env2 := env.(input := env.input[1..], stdout := Appended(env.stdout, prompt));
    if script == [] {
      ShellExitLine(ctx, prompt, last, env);
      assert env.input[1..] == rest;
      assert Repeat(prompt, 1) == prompt;
    } else {
      assert env.input[0] == script[0];
      assert env2.input == script[1..] + ["exit"] + rest;
      ShellNoOpTurn(ctx, prompt, last, env);
      ShellRunsScript(ctx, prompt, ScriptStatus(last, [script[0]]), env2, script[1..], rest);
      RepeatStep(env.stdout.text, prompt, |script|);
    }
  }

  lemma TrueThenExit(ctx: Context)
    requires ctx.args == ["sh"]
    ensures var env := Env(["true", "exit"], Eof, Sink("", Unbounded), Sink("", Unbounded), "");
            ShellSpec(ctx, env).status == 0 && ShellSpec(ctx, env).err == None
  {
    var env := Env(["true", "exit"], Eof, Sink("", Unbounded), Sink("", Unbounded), "");
    ShellRunsScript(ctx, GetPrompt(ctx), 0, env, ["true"], []);
  }

  lemma FalseThenExit(ctx: Context)
    requires ctx.args == ["sh"]
    ensures var env := Env(["false", "exit"], Eof, Sink("", Unbounded), Sink("", Unbounded), "");
            ShellSpec(ctx, env).status == 1 && ShellSpec(ctx, env).err == None
  {
    var env := Env(["false", "exit"], Eof, Sink("", Unbounded), Sink("", Unbounded), "");
    ShellRunsScript(ctx, GetPrompt(ctx), 0, env, ["false"], []);
  }

  lemma NumeralIsField(w: string)
    requires Decimal.IsNumeral(w)
    ensures IsField(w)
  {
    assert forall i :: 0 <= i < |w| ==> Decimal.IsDigitChar(w[i]) && !IsSpace(w[i]);
  }

  lemma FieldsOfExitLine(w: string)
    requires IsField(w)
    ensures Fields("exit " + w) == ["exit", w]
  {
    FieldsOfJoin(["exit", w]);
    assert Join(["exit", w], " ") == "exit " + w;
  }

  /** `exit N`, N a decimal uint32: the shell ends with status N and no error. */
  lemma ShellExitCode(ctx: Context, prompt: string, last: uint32, env: Env, n: uint32)
    requires |env.input| > 0 && env.input[0] == "exit " + Decimal.Format(n)
    ensures ShellLoop(ctx, prompt, last, env)
      == Outcome(n, None, env.(input := env.input[1..], stdout := Write(env.stdout, prompt)))
  {
    NumeralIsField(Decimal.Format(n));
    FieldsOfExitLine(Decimal.Format(n));
    ShellExit(ctx, prompt, last, env);
    ExitStatusFormat(n, [], last);
  }

  /** `exit W` for a word W that is not a decimal numeral: the shell ends with status 255. */
  lemma ShellExitBadCode(ctx: Context, prompt: string, last: uint32, env: Env, w: string)
    requires |env.input| > 0 && env.input[0] == "exit " + w
    requires IsField(w) && !Decimal.IsNumeral(w)
    ensures ShellLoop(ctx, prompt, last, env)
      == Outcome(255, None, env.(input := env.input[1..], stdout := Write(env.stdout, prompt)))
  {
    FieldsOfExitLine(w);
    ShellExit(ctx, prompt, last, env);
  }

  lemma ExitNotANumber(ctx: Context, env: Env)
    requires env.input == ["exit notanumber"]
    ensures ShellSpec(ctx, env).status == 255 && ShellSpec(ctx, env).err == None
  {
    var w := "notanumber";
    assert "exit notanumber" == "exit " + w;
    assert !Decimal.IsDigitChar(w[0]) && !IsSpace(w[0]);
    assert IsField(w);
    ShellExitBadCode(ctx, GetPrompt(ctx), 0, env, w);
  }

  // ---------------------------------------------------------------- su

  /** With a pty, `su` gives a root shell (prompt "# ") and `su bob` a user shell (prompt "$ "). */
  lemma SuPrompts(user: string, env: Env)
    requires env.input == [] && env.stdout.room == Unbounded
    ensures SuSpec(Context(["su"], true, user), env)
      == Outcome(0, Some(ReadErr(env.inputEnd)), env.(stdout := Appended(env.stdout, "# ")))
    ensures SuSpec(Context(["su", "bob"], true, user), env)
      == Outcome(0, Some(ReadErr(env.inputEnd)), env.(stdout := Appended(env.stdout, "$ ")))
  {
    var root := Context(["sh"], true, "root");
    var bob := Context(["sh"], true, "bob");
    assert SuSpec(Context(["su"], true, user), env) == ExecuteSpec(root, env);
    assert SuSpec(Context(["su", "bob"], true, user), env) == ExecuteSpec(bob, env);
    assert ExecuteSpec(root, env) == ShellSpec(root, env);
    assert ExecuteSpec(bob, env) == ShellSpec(bob, env);
    ShellReadError(root, "# ", 0, env);
    ShellReadError(bob, "$ ", 0, env);
  }

  // ---------------------------------------------------------------- echo

  /** echo writes its arguments joined by single spaces and a newline; re-splitting that text
      yields the arguments again when they came from splitting a line. */
  lemma EchoWritesArgs(ctx: Context, env: Env)
    requires |ctx.args| > 0 && ctx.args[0] == "echo" && CanWrite(env.stdout)
    requires forall k :: 1 <= k < |ctx.args| ==> IsField(ctx.args[k])
    ensures ExecuteSpec(ctx, env)
      == Outcome(0, None, env.(stdout := Write(env.stdout, Join(ctx.args[1..], " ") + "\n")))
    ensures Fields(Join(ctx.args[1..], " ")) == ctx.args[1..]
  {
    FieldsOfJoin(ctx.args[1..]);
  }

  /** When stdout cannot take the line, echo still returns 0, together with the write error. */
  lemma EchoWriteFails(ctx: Context, env: Env)
    requires |ctx.args| > 0 && ctx.args[0] == "echo" && !CanWrite(env.stdout)
    ensures ExecuteSpec(ctx, env) == Outcome(0, Some(WriteFailure), env)
  {
  }

  lemma EchoABC(ctx: Context, env: Env)
    requires ctx.args == ["echo", "a", "b", "c"] && env.stdout.room == Unbounded
    ensures ExecuteSpec(ctx, env) == Outcome(0, None, env.(stdout := Appended(env.stdout, "a b c\n")))
  {
    assert ctx.args[1..] == ["a", "b", "c"];
    assert Join(["c"], " ") == "c";
    assert Join(["b", "c"], " ") == "b c";
    assert Join(["a", "b", "c"], " ") == "a b c";
  }

  // ---------------------------------------------------------------- ifconfig and uname

  /** ifconfig writes its canned listing and a newline and returns 0; when stdout fails it
      returns 0 with the write error and nothing is written. No input is read. */
  lemma IfconfigWrites(ctx: Context, env: Env)
    requires |ctx.args| > 0 && ctx.args[0] == "ifconfig"
    ensures var o := ExecuteSpec(ctx, env);
      && o.status == 0 && o.env.input == env.input
      && (CanWrite(env.stdout) ==>
            o.err == None && o.env == env.(stdout := Write(env.stdout, IfconfigOutput + "\n")))
      && (!CanWrite(env.stdout) ==> o.err == Some(WriteFailure) && o.env == env)
  {
  }

  /** uname writes the fixed kernel line with the session's clock reading between its two
      parts, and a newline, and returns 0; when stdout fails it returns 0 with the write error
      and nothing is written. No input is read. */
  lemma UnameWrites(ctx: Context, env: Env)
    requires |ctx.args| > 0 && ctx.args[0] == "uname"
    ensures var o := ExecuteSpec(ctx, env);
      && o.status == 0 && o.env.input == env.input
      && (CanWrite(env.stdout) ==>
            o.err == None && o.env == env.(stdout := Write(env.stdout, UnamePrefix + env.now + UnameSuffix + "\n")))
      && (!CanWrite(env.stdout) ==> o.err == Some(WriteFailure) && o.env == env)
  {
  }

  // ---------------------------------------------------------------- cat

  /** However it ends, cat on stdin returns status 0 together with an error: the write error
      when a line could not be copied, otherwise the error that ended the input. */
  lemma {:induction false} CatStdinEndsWithError(numbered: bool, n: nat, env: Env)
    ensures CatStdinSpec(numbered, n, env).status == 0
    ensures CatStdinSpec(numbered, n, env).err in {Some(WriteFailure), Some(ReadErr(env.inputEnd))}
    decreases |env.input|
  {
    if env.input != [] && CanWrite(env.stdout) {
      var env2 := env.(input := env.input[1..], stdout := Write(env.stdout, CatLine(numbered, n, env.input[0])));
      CatStdinStep(numbered, n, env);
      CatStdinEndsWithError(numbered, NextNumber(numbered, n), env2);
    }
  }

  /** The file loop of cat reads no input and returns 0 or 1: 1 exactly when no file was
      /proc/cpuinfo and every complaint was written; its only error is a write error, and it
      comes with status 0. */
  lemma {:induction false} CatFilesStatus(prog: string, files: seq<string>, env: Env)
    ensures var o := CatFilesSpec(prog, files, env);
      && o.env.input == env.input
      && (o.status == 0 || o.status == 1)
      && (o.status == 1 <==> CpuInfoPath !in files && o.err.None?)
      && (o.err.Some? ==> o.err == Some(WriteFailure) && o.status == 0)
    decreases |files|
  {
    if files != [] && files[0] != CpuInfoPath && CanWrite(env.stderr) {
      var env2 := env.(stderr := Write(env.stderr, NoSuchFile(prog, files[0])));
      assert CatFilesSpec(prog, files, env) == CatFilesSpec(prog, files[1..], env2);
      CatFilesStatus(prog, files[1..], env2);
      assert files == [files[0]] + files[1..];
    }
  }

  /** cat on stdin with a working stdout copies every line (numbered when asked) and ends with
      status 0 and the reader's end error. */
  lemma {:induction false} CatStdinCopiesAll(numbered: bool, n: nat, env: Env)
    requires HasRoom(env.stdout, |env.input|)
    ensures CatStdinSpec(numbered, n, env)
      == Outcome(0, Some(ReadErr(env.inputEnd)),
                 env.(input := [], stdout := Used(env.stdout, Listing(numbered, n, env.input), |env.input|)))
    decreases |env.input|
  {
    if env.input != [] {
      var line := env.input[0];
      var text := CatLine(numbered, n, line);
      var env2 := env.(input := env.input[1..], stdout := Write(env.stdout, text));
      CatStdinStep(numbered, n, env);
      CatStdinCopiesAll(numbered, NextNumber(numbered, n), env2);
      assert env.stdout.text + text + Listing(numbered, NextNumber(numbered, n), env.input[1..])
          == env.stdout.text + Listing(numbered, n, env.input);
      assert Used(env2.stdout, Listing(numbered, NextNumber(numbered, n), env2.input), |env2.input|)
          == Used(env.stdout, Listing(numbered, n, env.input), |env.input|);
    }
  }

  lemma CatStdinWriteFails(numbered: bool, n: nat, env: Env)
    requires env.input != [] && env.stdout.room == Remaining(0)
    ensures CatStdinSpec(numbered, n, env) == Outcome(0, Some(WriteFailure), env.(input := env.input[1..]))
  {
  }

  /** A stdout with room for only `k` more writes, fewer than the lines waiting: cat copies the
      first `k` lines, then the write of the next one fails, and cat returns status 0 with the
      write error, that line consumed and the rest still unread. */
  lemma {:induction false} CatStdinStopsAtFailedWrite(numbered: bool, n: nat, env: Env, k: nat)
    requires env.stdout.room == Remaining(k) && k < |env.input|
    ensures CatStdinSpec(numbered, n, env)
      == Outcome(0, Some(WriteFailure),
                 env.(input := env.input[k + 1..],
                      stdout := Sink(env.stdout.text + Listing(numbered, n, env.input[..k]), Remaining(0))))
    decreases k
  {
    if k == 0 {
      CatStdinWriteFails(numbered, n, env);
      assert env.stdout.text + Listing(numbered, n, env.input[..0]) == env.stdout.text;
      assert Sink(env.stdout.text, Remaining(0)) == env.stdout;
    } else {
      var text := CatLine(numbered, n, env.input[0]);
      var m := NextNumber(numbered, n);
      var env2 := env.(input := env.input[1..], stdout := Sink(env.stdout.text + text, Remaining(k - 1)));
      var out := Sink(env.stdout.text + Listing(numbered, n, env.input[..k]), Remaining(0));
      assert Sink(env2.stdout.text + Listing(numbered, m, env2.input[..k - 1]), Remaining(0)) == out by {
        ListingPrefix(numbered, n, env.input, k);
      }
      assert env2.input[k..] == env.input[k + 1..];
      assert env2.(input := env2.input[k..], stdout := out) == env.(input := env.input[k + 1..], stdout := out);
      assert CatStdinSpec(numbered, n, env) == CatStdinSpec(numbered, m, env2) by {
        CatStdinStep(numbered, n, env);
      }
      CatStdinStopsAtFailedWrite(numbered, m, env2, k - 1);
    }
  }

  /** One successful turn of cat's stdin loop: the first line's text is written and the loop
      goes on with the next line number. */
  lemma CatStdinStep(numbered: bool, n: nat, env: Env)
    requires env.input != [] && CanWrite(env.stdout)
    ensures var text := CatLine(numbered, n, env.input[0]);
      CatStdinSpec(numbered, n, env)
      == CatStdinSpec(numbered, NextNumber(numbered, n),
                      env.(input := env.input[1..], stdout := Write(env.stdout, text)))
  {
  }

  /** The listing of the first `k` lines starts with the first line's text. */
  lemma ListingPrefix(numbered: bool, n: nat, lines: seq<string>, k: nat)
    requires 0 < k <= |lines|
    ensures Listing(numbered, n, lines[..k])
      == CatLine(numbered, n, lines[0])
         + Listing(numbered, NextNumber(numbered, n), lines[1..][..k - 1])
  {
    assert lines[..k][0] == lines[0];
    assert lines[..k][1..] == lines[1..][..k - 1];
  }

  /** No /proc/cpuinfo among the files: one complaint per file, in order, and status 1. */
  lemma {:induction false} CatFilesNoneFound(prog: string, files: seq<string>, env: Env)
    requires CpuInfoPath !in files && HasRoom(env.stderr, |files|)
    ensures CatFilesSpec(prog, files, env)
      == Outcome(1, None, env.(stderr := Used(env.stderr, Complaints(prog, files), |files|)))
    decreases |files|
  {
    if files != [] {
      var env2 := env.(stderr := Write(env.stderr, NoSuchFile(prog, files[0])));
      assert CatFilesSpec(prog, files, env) == CatFilesSpec(prog, files[1..], env2);
      CatFilesNoneFound(prog, files[1..], env2);
      assert env.stderr.text + NoSuchFile(prog, files[0]) + Complaints(prog, files[1..])
          == env.stderr.text + Complaints(prog, files);
      assert Used(env2.stderr, Complaints(prog, files[1..]), |files| - 1)
          == Used(env.stderr, Complaints(prog, files), |files|);
    }
  }

  /** A stderr with room for only `k` more complaints, fewer than the files to complain about:
      cat writes the first `k` complaints, the next one fails, and cat returns status 0 with
      the write error instead of status 1. */
  lemma {:induction false} CatFilesComplaintFails(prog: string, files: seq<string>, env: Env, k: nat)
    requires env.stderr.room == Remaining(k) && k < |files| && CpuInfoPath !in files[..k + 1]
    ensures CatFilesSpec(prog, files, env)
      == Outcome(0, Some(WriteFailure),
                 env.(stderr := Sink(env.stderr.text + Complaints(prog, files[..k]), Remaining(0))))
    decreases k
  {
    assert files[0] == files[..k + 1][0];
    if k == 0 {
      assert env.stderr.text + Complaints(prog, files[..0]) == env.stderr.text;
    } else {
      var env2 := env.(stderr := Sink(env.stderr.text + NoSuchFile(prog, files[0]), Remaining(k - 1)));
      assert CatFilesSpec(prog, files, env) == CatFilesSpec(prog, files[1..], env2);
      assert files[1..][..k] == files[..k + 1][1..];
      CatFilesComplaintFails(prog, files[1..], env2, k - 1);
      assert files[..k][1..] == files[1..][..k - 1];
      assert Complaints(prog, files[..k]) == NoSuchFile(prog, files[0]) + Complaints(prog, files[1..][..k - 1]);
    }
  }

  /** The first /proc/cpuinfo ends cat: the files before it are complained about, the listing
      is written, status is 0, and the files after it are never looked at. */
  lemma {:induction false} CatFilesFirstFound(prog: string, before: seq<string>, after: seq<string>, env: Env)
    requires CpuInfoPath !in before && HasRoom(env.stderr, |before|)
    ensures CatFilesSpec(prog, before + [CpuInfoPath] + after, env)
      == Outcome(0, WriteError(CanWrite(env.stdout)),
                 env.(stdout := Write(env.stdout, CpuInfo), stderr := Used(env.stderr, Complaints(prog, before), |before|)))
    decreases |before|
  {
    var files := before + [CpuInfoPath] + after;
    if before == [] {
      assert files[0] == CpuInfoPath;
    } else {
      assert files[0] == before[0] && files[1..] == before[1..] + [CpuInfoPath] + after;
      var env2 := env.(stderr := Write(env.stderr, NoSuchFile(prog, before[0])));
      assert PutErr(env, NoSuchFile(prog, before[0])) == Put(true, env2);
      assert CatFilesSpec(prog, files, env) == CatFilesSpec(prog, files[1..], env2);
      CatFilesFirstFound(prog, before[1..], after, env2);
      assert Complaints(prog, before) == NoSuchFile(prog, before[0]) + Complaints(prog, before[1..]);
      assert Used(env2.stderr, Complaints(prog, before[1..]), |before| - 1)
          == Used(env.stderr, Complaints(prog, before), |before|);
    }
  }

  /** `-n` anywhere among the arguments turns numbering on and is never taken for a file. */
  lemma CatDashN(args: seq<string>)
    ensures "-n" !in FileArgs(args)
    ensures forall f :: f in args && f != "-n" ==> f in FileArgs(args)
  {
  }

  lemma CatNumbersStdin(ctx: Context, env: Env)
    requires ctx.args == ["cat", "-n"] && env.input == ["x", "y"] && env.stdout.room == Unbounded
    ensures ExecuteSpec(ctx, env)
      == Outcome(0, Some(ReadErr(env.inputEnd)), env.(input := [], stdout := Appended(env.stdout, "     1  x\n     2  y\n")))
  {
    assert ExecuteSpec(ctx, env) == CatStdinSpec(true, 1, env) by {
      assert ctx.args[1..] == ["-n"] && FileArgs(["-n"]) == [];
    }
    assert Listing(true, 1, env.input) == "     1  x\n     2  y\n" by {
      NumberedListing();
    }
    CatStdinCopiesAll(true, 1, env);
  }

  lemma NumberedListing()
    ensures Listing(true, 1, ["x", "y"]) == "     1  x\n     2  y\n"
  {
    assert ["x", "y"][1..] == ["y"] && ["y"][1..] == [];
    assert Listing(true, 2, ["y"]) == CatLine(true, 2, "y") + Listing(true, 3, []);
    assert Listing(true, 1, ["x", "y"]) == CatLine(true, 1, "x") + Listing(true, 2, ["y"]);
    NumberedSmall("x", "y");
  }

  lemma NumberedSmall(x: string, y: string)
    ensures NumberedLine(1, x) == "     1  " + x + "\n"
    ensures NumberedLine(2, y) == "     2  " + y + "\n"
  {
    assert Decimal.Digits(1) == [1] && Decimal.Digits(2) == [2];
    assert Decimal.Format(1) == "1" && Decimal.Format(2) == "2";
    assert Spaces(5) == "     ";
  }

  lemma CatCpuInfo(ctx: Context, env: Env)
    requires ctx.args == ["cat", CpuInfoPath] && CanWrite(env.stdout)
    ensures ExecuteSpec(ctx, env) == Outcome(0, None, env.(stdout := Write(env.stdout, CpuInfo)))
  {
    assert FileArgs(ctx.args[1..]) == [CpuInfoPath];
  }

  lemma CatMissingFile(ctx: Context, env: Env)
    requires ctx.args == ["cat", "/nope"] && env.stderr.room == Unbounded
    ensures ExecuteSpec(ctx, env)
      == Outcome(1, None, env.(stderr := Appended(env.stderr, NoSuchFile("cat", "/nope"))))
  {
    assert ctx.args[1..] == ["/nope"] && FileArgs(["/nope"]) == ["/nope"];
    assert ExecuteSpec(ctx, env) == CatFilesSpec("cat", ["/nope"], env);
    CatFilesNoneFound("cat", ["/nope"], env);
    assert Complaints("cat", ["/nope"]) == NoSuchFile("cat", "/nope") + Complaints("cat", []);
  }
}
