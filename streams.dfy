/**
 * Every command only consumes input from the front and only appends to stdout and stderr:
 * nothing a command writes is ever reordered or taken back, also across nested su/sh shells.
 * The two halves are proved separately, each by one mutual induction over the shell.
 */
module StreamFacts {
  import opened Base
  import opened Text
  import opened Commands
  import ShellFacts

  // ---------------------------------------------------------------- input is consumed from the front

  lemma {:induction false} CatFilesConsumes(prog: string, files: seq<string>, env: Env)
    ensures Consumes(env, CatFilesSpec(prog, files, env).env)
    decreases |files|
  {
    PutSteps(env, CpuInfo);
    if files != [] {
      var p := PutErr(env, NoSuchFile(prog, files[0]));
      PutSteps(env, NoSuchFile(prog, files[0]));
      if files[0] != CpuInfoPath && p.ok {
        CatFilesConsumes(prog, files[1..], p.env);
        ConsumesTrans(env, p.env, CatFilesSpec(prog, files[1..], p.env).env);
      }
    }
  }

  lemma {:induction false} CatStdinConsumes(numbered: bool, n: nat, env: Env)
    ensures Consumes(env, CatStdinSpec(numbered, n, env).env)
    decreases |env.input|
  {
    if env.input == [] {
      assert env.input[|env.input| - |env.input|..] == env.input;
    } else {
      var env1 := ReadLine(env).rest;
      var text := CatLine(numbered, n, env.input[0]);
      var p := PutOut(env1, text);
      ReadSteps(env);
      PutSteps(env1, text);
      ConsumesTrans(env, env1, p.env);
      if p.ok {
        var m := NextNumber(numbered, n);
        CatStdinConsumes(numbered, m, p.env);
        ConsumesTrans(env, p.env, CatStdinSpec(numbered, m, p.env).env);
      }
    }
  }

  /** executeProgram only consumes input from the front. */
  lemma {:induction false} ExecuteConsumes(ctx: Context, env: Env)
    ensures Consumes(env, ExecuteSpec(ctx, env).env)
    decreases |env.input|, ExecRank(ctx.args)
  {
    assert env.input[|env.input| - |env.input|..] == env.input;
    if |ctx.args| > 0 && ctx.args[0] !in Registry {
      PutSteps(env, NotFound(ctx.args[0]));
    } else if |ctx.args| > 0 {
      match Registry[ctx.args[0]]
      case Shell => ShellConsumes(ctx, env);
      case True =>
      case False =>
      case Echo => PutSteps(env, Join(ctx.args[1..], " ") + "\n");
      case Cat =>
        var files := FileArgs(ctx.args[1..]);
        if |files| > 0 {
          CatFilesConsumes(ctx.args[0], files, env);
        } else {
          CatStdinConsumes("-n" in ctx.args[1..], 1, env);
        }
      case Su => SuConsumes(ctx, env);
      case Ifconfig => PutSteps(env, IfconfigOutput + "\n");
      case Uname => PutSteps(env, UnamePrefix + env.now + UnameSuffix + "\n");
    }
  }

  lemma {:induction false} SuConsumes(ctx: Context, env: Env)
    ensures Consumes(env, SuSpec(ctx, env).env)
    decreases |env.input|, 3
  {
    ExecuteConsumes(SuContext(ctx), env);
  }

  lemma {:induction false} ShellConsumes(ctx: Context, env: Env)
    ensures Consumes(env, ShellSpec(ctx, env).env)
    decreases |env.input|, 1
  {
    ShellLoopConsumes(ctx, GetPrompt(ctx), 0, env);
  }

  lemma {:induction false} ShellLoopConsumes(ctx: Context, prompt: string, last: uint32, env: Env)
    ensures Consumes(env, ShellLoop(ctx, prompt, last, env).env)
    decreases |env.input|, 0
  {
    var env1 := PutOut(env, prompt).env;
    PutSteps(env, prompt);
    if env1.input != [] {
      var line := env1.input[0];
      var env2 := ReadLine(env1).rest;
      ReadSteps(env1);
      ConsumesTrans(env, env1, env2);
      assert env2 == env.(input := env.input[1..], stdout := Write(env.stdout, prompt));
      if |line| == 0 {
        ShellFacts.ShellEmptyLine(ctx, prompt, last, env);
        ShellLoopConsumes(ctx, prompt, last, env2);
        ConsumesTrans(env, env2, ShellLoop(ctx, prompt, last, env2).env);
      } else {
        var args := Fields(line);
        if |args| > 0 && args[0] != "exit" {
          ShellFacts.ShellDispatch(ctx, prompt, last, env);
          var r := ExecuteSpec(ctx.(args := args), env2);
          ExecuteConsumes(ctx.(args := args), env2);
          ConsumesTrans(env, env2, r.env);
          if r.err.None? {
            ShellLoopConsumes(ctx, prompt, r.status, r.env);
            ConsumesTrans(env, r.env, ShellLoop(ctx, prompt, r.status, r.env).env);
          }
        }
      }
    }
  }

  // ---------------------------------------------------------------- output is only appended

  lemma {:induction false} CatFilesAppends(prog: string, files: seq<string>, env: Env)
    ensures Appends(env, CatFilesSpec(prog, files, env).env)
    decreases |files|
  {
    PutSteps(env, CpuInfo);
    if files != [] {
      var p := PutErr(env, NoSuchFile(prog, files[0]));
      PutSteps(env, NoSuchFile(prog, files[0]));
      if files[0] != CpuInfoPath && p.ok {
        CatFilesAppends(prog, files[1..], p.env);
        AppendsTrans(env, p.env, CatFilesSpec(prog, files[1..], p.env).env);
      }
    }
  }

  lemma {:induction false} CatStdinAppends(numbered: bool, n: nat, env: Env)
    ensures Appends(env, CatStdinSpec(numbered, n, env).env)
    decreases |env.input|
  {
    if env.input != [] {
      var env1 := ReadLine(env).rest;
      var text := CatLine(numbered, n, env.input[0]);
      var p := PutOut(env1, text);
      ReadSteps(env);
      PutSteps(env1, text);
      AppendsTrans(env, env1, p.env);
      if p.ok {
        var m := NextNumber(numbered, n);
        CatStdinAppends(numbered, m, p.env);
        AppendsTrans(env, p.env, CatStdinSpec(numbered, m, p.env).env);
      }
    }
  }

  /** executeProgram never rewrites output that was already written. */
  lemma {:induction false} ExecuteAppends(ctx: Context, env: Env)
    ensures Appends(env, ExecuteSpec(ctx, env).env)
    decreases |env.input|, ExecRank(ctx.args)
  {
    if |ctx.args| > 0 && ctx.args[0] !in Registry {
      PutSteps(env, NotFound(ctx.args[0]));
    } else if |ctx.args| > 0 {
      match Registry[ctx.args[0]]
      case Shell => ShellAppends(ctx, env);
      case True =>
      case False =>
      case Echo => PutSteps(env, Join(ctx.args[1..], " ") + "\n");
      case Cat =>
        var files := FileArgs(ctx.args[1..]);
        if |files| > 0 {
          CatFilesAppends(ctx.args[0], files, env);
        } else {
          CatStdinAppends("-n" in ctx.args[1..], 1, env);
        }
      case Su => SuAppends(ctx, env);
      case Ifconfig => PutSteps(env, IfconfigOutput + "\n");
      case Uname => PutSteps(env, UnamePrefix + env.now + UnameSuffix + "\n");
    }
  }

  lemma {:induction false} SuAppends(ctx: Context, env: Env)
    ensures Appends(env, SuSpec(ctx, env).env)
    decreases |env.input|, 3
  {
    ExecuteAppends(SuContext(ctx), env);
  }

  lemma {:induction false} ShellAppends(ctx: Context, env: Env)
    ensures Appends(env, ShellSpec(ctx, env).env)
    decreases |env.input|, 1
  {
    ShellLoopAppends(ctx, GetPrompt(ctx), 0, env);
  }

  lemma {:induction false} ShellLoopAppends(ctx: Context, prompt: string, last: uint32, env: Env)
    ensures Appends(env, ShellLoop(ctx, prompt, last, env).env)
    decreases |env.input|, 0
  {
    var env1 := PutOut(env, prompt).env;
    PutSteps(env, prompt);
    if env1.input != [] {
      var line := env1.input[0];
      var env2 := ReadLine(env1).rest;
      ReadSteps(env1);
      AppendsTrans(env, env1, env2);
      assert env2 == env.(input := env.input[1..], stdout := Write(env.stdout, prompt));
      if |line| == 0 {
        ShellFacts.ShellEmptyLine(ctx, prompt, last, env);
        ShellLoopAppends(ctx, prompt, last, env2);
        AppendsTrans(env, env2, ShellLoop(ctx, prompt, last, env2).env);
      } else {
        var args := Fields(line);
        if |args| > 0 && args[0] != "exit" {
          ShellFacts.ShellDispatch(ctx, prompt, last, env);
          var r := ExecuteSpec(ctx.(args := args), env2);
          ExecuteAppends(ctx.(args := args), env2);
          AppendsTrans(env, env2, r.env);
          if r.err.None? {
            ShellLoopAppends(ctx, prompt, r.status, r.env);
            AppendsTrans(env, r.env, ShellLoop(ctx, prompt, r.status, r.env).env);
          }
        }
      }
    }
  }
}
