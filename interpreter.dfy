/**
 * The shell as the Go code runs it: executeProgram, the read-eval loop of cmdShell, cat's
 * argument scan, file loop and stdin loop, and su's re-entry. Each method is proved to compute
 * exactly what the corresponding function of module Commands specifies.
 */
module Interpreter {
  import opened Base
  import opened Text
  import opened Commands

  /** executeProgram: no-op on empty args, "command not found" for unknown names, else dispatch. */
  method ExecuteProgram(ctx: Context, env: Env) returns (o: Outcome)
    ensures o == ExecuteSpec(ctx, env)
    decreases |env.input|, ExecRank(ctx.args)
  {
    if |ctx.args| == 0 {
      return Outcome(0, None, env);
    }
    if ctx.args[0] !in Registry {
      var p := PutErr(env, NotFound(ctx.args[0]));  // a failed write is not reported
      return Outcome(127, None, p.env);
    }
    match Registry[ctx.args[0]]
    case Shell => o := RunShell(ctx, env);
    case True => o := Outcome(0, None, env);
    case False => o := Outcome(1, None, env);
    case Echo => o := EchoSpec(ctx, env);
    case Cat => o := RunCat(ctx, env);
    case Su => o := RunSu(ctx, env);
    case Ifconfig => o := IfconfigSpec(env);
    case Uname => o := UnameSpec(env);
  }

  /** cmdSu.execute: copy the context, switch user and args, and run it. */
  method RunSu(ctx: Context, env: Env) returns (o: Outcome)
    ensures o == SuSpec(ctx, env)
    decreases |env.input|, 3
  {
    var newContext := ctx.(user := "root");
    if |ctx.args| > 1 {
      newContext := newContext.(user := ctx.args[1]);
    }
    newContext := newContext.(args := ShellProgram);
    o := ExecuteProgram(newContext, env);
  }

  /** cmdShell.execute: prompt, read, skip empty lines, split, handle exit, dispatch. */
  method RunShell(ctx: Context, env0: Env) returns (o: Outcome)
    ensures o == ShellSpec(ctx, env0)
    decreases |env0.input|, 1
  {
    var prompt := GetPrompt(ctx);
    var lastStatus: uint32 := 0;
    var env := env0;
    while true
      invariant |env.input| <= |env0.input|
      invariant ShellLoop(ctx, prompt, lastStatus, env) == ShellSpec(ctx, env0)
      decreases |env.input|
    {
      env := PutOut(env, prompt).env;  // the prompt's write error is ignored
      var r := ReadLine(env);
      if r.Failed? {
        return Outcome(lastStatus, Some(ReadErr(r.cause)), env);
      }
      var line := r.line;
      env := r.rest;
      if |line| == 0 {
        continue;
      }
      var args := Fields(line);
      if |args| == 0 {
        return Outcome(lastStatus, Some(IndexOutOfRange), env);
      }
      if args[0] == "exit" {
        return Outcome(ParseExitStatus(args, lastStatus), None, env);
      }
      var res := ExecuteProgram(ctx.(args := args), env);
      lastStatus, env := res.status, res.env;
      if res.err.Some? {
        return res;
      }
    }
  }

  /** The argument scan of cmdCat: note any `-n`, collect everything else as a file. */
  method CollectFiles(args: seq<string>) returns (numberLine: bool, files: seq<string>)
    ensures numberLine == ("-n" in args)
    ensures files == FileArgs(args)
  {
    numberLine := false;
    files := [];
    for i := 0 to |args|
      invariant numberLine == ("-n" in args[..i])
      invariant files == FileArgs(args[..i])
    {
      assert args[..i + 1] == args[..i] + [args[i]];
      FileArgsSnoc(args[..i], args[i]);
      if args[i] == "-n" {
        numberLine := true;
      } else {
        files := files + [args[i]];
      }
    }
    assert args[..|args|] == args;
  }

  /** The file loop of cmdCat. */
  method CatFiles(prog: string, files: seq<string>, env0: Env) returns (o: Outcome)
    ensures o == CatFilesSpec(prog, files, env0)
  {
    var env := env0;
    for i := 0 to |files|
      invariant CatFilesSpec(prog, files[i..], env) == CatFilesSpec(prog, files, env0)
    {
      assert files[i..][1..] == files[i + 1..];
      if files[i] == CpuInfoPath {
        var p := PutOut(env, CpuInfo);
        return Outcome(0, WriteError(p.ok), p.env);
      }
      var p := PutErr(env, NoSuchFile(prog, files[i]));
      if !p.ok {
        return Outcome(0, Some(WriteFailure), p.env);
      }
      env := p.env;
    }
    return Outcome(1, None, env);
  }

  /** The stdin loop of cmdCat: `for err == nil`. */
  method CatStdin(numberLine: bool, env0: Env) returns (o: Outcome)
    ensures o == CatStdinSpec(numberLine, 1, env0)
  {
    var env := env0;
    var err: Option<Error> := None;
    var lineNumber: nat := 1;
    while err == None
      invariant err == None ==> CatStdinSpec(numberLine, lineNumber, env) == CatStdinSpec(numberLine, 1, env0)
      invariant err != None ==> Outcome(0, err, env) == CatStdinSpec(numberLine, 1, env0)
      decreases |env.input|, if err == None then 1 else 0
    {
      var r := ReadLine(env);
      if r.Failed? {
        err := Some(ReadErr(r.cause));
      } else {
        var p;
        if numberLine {
          p := PutOut(r.rest, NumberedLine(lineNumber, r.line));
          lineNumber := lineNumber + 1;
        } else {
          p := PutOut(r.rest, r.line + "\n");
        }
        env := p.env;
        err := WriteError(p.ok);
      }
    }
    return Outcome(0, err, env);
  }

  /** cmdCat.execute. */
  method RunCat(ctx: Context, env: Env) returns (o: Outcome)
    requires |ctx.args| >= 1
    ensures o == CatSpec(ctx, env)
  {
    var numberLine, files := CollectFiles(ctx.args[1..]);
    if |files| > 0 {
      o := CatFiles(ctx.args[0], files, env);
    } else {
      o := CatStdin(numberLine, env);
    }
  }
}
