/**
 * The fake shell: the command registry, program execution, the interactive read-eval loop
 * and the builtin commands, written as functions over an explicit I/O environment.
 * The methods of module Interpreter run the same algorithms with loops and are proved equal
 * to these functions.
 */
module Commands {
  import opened Base
  import Decimal
  import opened Text

  // ---------------------------------------------------------------- I/O environment

  /** What a line reader returns once its lines are used up: io.EOF or a transport failure. */
  datatype ReadError = Eof | ReadFailure

  /** The errors a command can hand back to its caller. `IndexOutOfRange` stands for the Go
      runtime panic of indexing an empty field list; it travels up like any other error. */
  datatype Error = ReadErr(cause: ReadError) | WriteFailure | IndexOutOfRange

  /** How many more writes an output sink accepts before every write fails. */
  datatype Capacity = Unbounded | Remaining(writes: nat)

  /** An append-only output sink (stdout or stderr): everything written so far, and its capacity. */
  datatype Sink = Sink(text: string, room: Capacity)

  /** The session's streams: the lines not yet read, the error that follows them, the two
      sinks, and the wall-clock reading `uname` prints (already formatted). */
  datatype Env = Env(input: seq<string>, inputEnd: ReadError, stdout: Sink, stderr: Sink, now: string)

  predicate CanWrite(s: Sink)
  {
    s.room != Remaining(0)
  }

  /** One write: it succeeds and appends `data` while the sink has room, and otherwise changes nothing. */
  function Write(s: Sink, data: string): (r: Sink)
    ensures CanWrite(s) ==> r.text == s.text + data
    ensures !CanWrite(s) ==> r == s
  {
    match s.room
    case Unbounded => s.(text := s.text + data)
    case Remaining(n) => if n == 0 then s else Sink(s.text + data, Remaining(n - 1))
  }

  /** The result of a write on the environment: whether it succeeded and the new environment. */
  datatype Put = Put(ok: bool, env: Env)

  // PutOut and PutErr restate their bodies in their ensures only to help the solver with the
  // loop proofs; PutWrites below is what a caller may rely on.
  function PutOut(env: Env, data: string): (p: Put)
    ensures p.ok == CanWrite(env.stdout) && p.env == env.(stdout := Write(env.stdout, data))
  {
    Put(CanWrite(env.stdout), env.(stdout := Write(env.stdout, data)))
  }

  function PutErr(env: Env, data: string): (p: Put)
    ensures p.ok == CanWrite(env.stderr) && p.env == env.(stderr := Write(env.stderr, data))
  {
    Put(CanWrite(env.stderr), env.(stderr := Write(env.stderr, data)))
  }

  function WriteError(ok: bool): Option<Error>
  {
    if ok then None else Some(WriteFailure)
  }

  /** The result of readLiner.ReadLine. */
  datatype Read = Line(line: string, rest: Env) | Failed(cause: ReadError)

  function ReadLine(env: Env): Read
  {
    if env.input == [] then Failed(env.inputEnd) else Line(env.input[0], env.(input := env.input[1..]))
  }

  predicate RoomWithin(now: Capacity, before: Capacity)
  {
    match before
    case Unbounded => now == Unbounded
    case Remaining(n) => now.Remaining? && now.writes <= n
  }

  /** `t` is a later state of the sink `s`: text is only appended, and capacity only shrinks. */
  predicate SinkExtends(s: Sink, t: Sink)
  {
    s.text <= t.text && RoomWithin(t.room, s.room)
  }

  /** `f` is a later state of the input of `e`: lines are only consumed from the front, and what
      ends the input and the clock reading stay as they were. */
  predicate Consumes(e: Env, f: Env)
  {
    && |f.input| <= |e.input| && f.input == e.input[|e.input| - |f.input|..]
    && f.inputEnd == e.inputEnd && f.now == e.now
  }

  /** `f` is a later state of the sinks of `e`: output is only appended, never rewritten. */
  predicate Appends(e: Env, f: Env)
  {
    SinkExtends(e.stdout, f.stdout) && SinkExtends(e.stderr, f.stderr)
  }

  lemma ConsumesTrans(a: Env, b: Env, c: Env)
    requires Consumes(a, b) && Consumes(b, c)
    ensures Consumes(a, c)
  {
    assert c.input == a.input[|a.input| - |b.input|..][|b.input| - |c.input|..];
  }

  lemma AppendsTrans(a: Env, b: Env, c: Env)
    requires Appends(a, b) && Appends(b, c)
    ensures Appends(a, c)
  {
  }

  /** A write appends to one sink and leaves the input alone. */
  lemma PutSteps(env: Env, data: string)
    ensures Appends(env, PutOut(env, data).env) && Appends(env, PutErr(env, data).env)
    ensures Consumes(env, PutOut(env, data).env) && Consumes(env, PutErr(env, data).env)
  {
    assert env.input[|env.input| - |env.input|..] == env.input;
  }

  /** What a write means to its caller: it reports whether the sink had room, appends exactly
      `data` when it did, changes nothing when it did not, and never touches the other sink,
      the input or the clock. */
  lemma PutWrites(env: Env, data: string)
    ensures var p := PutOut(env, data);
      && p.ok == CanWrite(env.stdout)
      && p.env.(stdout := env.stdout) == env
      && (p.ok ==> p.env.stdout.text == env.stdout.text + data)
      && (!p.ok ==> p.env == env)
    ensures var p := PutErr(env, data);
      && p.ok == CanWrite(env.stderr)
      && p.env.(stderr := env.stderr) == env
      && (p.ok ==> p.env.stderr.text == env.stderr.text + data)
      && (!p.ok ==> p.env == env)
  {
  }

  /** A read fails, with what ends the input, exactly when no line is left; otherwise the line
      it hands out, put back in front of what remains, is the input it was read from, and
      nothing but the input changes. */
  lemma ReadLineSplits(env: Env)
    ensures ReadLine(env).Failed? <==> env.input == []
    ensures ReadLine(env).Failed? ==> ReadLine(env).cause == env.inputEnd
    ensures ReadLine(env).Line? ==>
      [ReadLine(env).line] + ReadLine(env).rest.input == env.input
      && ReadLine(env).rest == env.(input := ReadLine(env).rest.input)
  {
  }

  /** A read consumes the first line and leaves the sinks alone. */
  lemma ReadSteps(env: Env)
    requires env.input != []
    ensures Consumes(env, ReadLine(env).rest) && Appends(env, ReadLine(env).rest)
  {
  }

  // ---------------------------------------------------------------- contexts and results

  /** commandContext without its streams (they live in Env and are shared by every copy). */
  datatype Context = Context(args: seq<string>, pty: bool, user: string)

  /** What command.execute returns, together with the streams afterwards. */
  datatype Outcome = Outcome(status: uint32, err: Option<Error>, env: Env)

  // ---------------------------------------------------------------- the registry

  datatype Command = Shell | True | False | Echo | Cat | Su | Ifconfig | Uname

  /** The `commands` map as registerCommands and the second init fill it. */
  const Registry: map<string, Command> :=
    map["sh" := Shell, "true" := True, "false" := False, "echo" := Echo, "cat" := Cat,
        "su" := Su, "ifconfig" := Ifconfig, "uname" := Uname]

  /** The argument vector `su` starts its shell with. */
  const ShellProgram: seq<string> := ["sh"]

  /** The one synthetic file `cat` can show. */
  const CpuInfoPath: string := "/proc/cpuinfo"

  /** The canned listings of data.go, cut to their first lines; only their being fixed text matters here. */
  const CpuInfo: string := "processor   : 0\nvendor_id   : GenuineIntel\n"
  const IfconfigOutput: string := "lo: flags=73<UP,LOOPBACK,RUNNING>  mtu 65536"

  const UnamePrefix: string := "Linux Server 6.8.0-31-generic #31-Ubuntu SMP PREEMPT_DYNAMIC "
  const UnameSuffix: string := " x86_64 x86_64 x86_64 GNU/Linux"

  /** The name each command is registered under. */
  function CommandName(c: Command): string
  {
    match c
    case Shell => "sh"
    case True => "true"
    case False => "false"
    case Echo => "echo"
    case Cat => "cat"
    case Su => "su"
    case Ifconfig => "ifconfig"
    case Uname => "uname"
  }

  /** The registry holds the eight names, each bound to its own command; `exit` is not one of them. */
  lemma RegistryKeys()
    ensures Registry.Keys == {"sh", "true", "false", "echo", "cat", "su", "ifconfig", "uname"}
    ensures "exit" !in Registry
    ensures forall a :: a in Registry ==> CommandName(Registry[a]) == a
  {
  }

  function NotFound(name: string): string
  {
    name + ": command not found\n"
  }

  function NoSuchFile(prog: string, file: string): string
  {
    prog + ": " + file + ": No such file or directory\n"
  }

  /** `%6d  %s\n`: the line number right-aligned in six columns, two spaces, the line. */
  function NumberedLine(n: nat, line: string): string
  {
    PadLeft(Decimal.Format(n), 6) + "  " + line + "\n"
  }

  /** A numbered line is a number field of at least six columns that ends with the decimal
      numeral of `n` after nothing but blanks, then two spaces, the line and a newline. */
  lemma NumberedLineShape(n: nat, line: string)
    ensures var r := NumberedLine(n, line); var d := Decimal.Format(n); var w := |r| - |line| - 3;
      && w >= 6 && w >= |d|
      && r[w..] == "  " + line + "\n"
      && r[w - |d|..w] == d
      && IsBlank(r[..w - |d|])
  {
    var d := Decimal.Format(n);
    var pad := PadLeft(d, 6);
    PadLeftShape(d, 6);
    var r := NumberedLine(n, line);
    assert r == pad + ("  " + line + "\n");
    assert r[..|pad|] == pad;
  }

  // ---------------------------------------------------------------- prompt and exit status

  /** The prompt the shell writes before every read. */
  function GetPrompt(ctx: Context): (p: string)
    ensures p == "# " <==> ctx.pty && ctx.user == "root"
    ensures p == "$ " <==> ctx.pty && ctx.user != "root"
    ensures p == "" <==> !ctx.pty
  {
    if ctx.pty then (if ctx.user == "root" then "# " else "$ ") else ""
  }

  /** strconv.ParseUint(s, 10, 32) on success; None for every input it rejects. */
  function ParseUint32(s: string): (r: Option<uint32>)
    ensures r.Some? <==> Decimal.IsNumeral(s) && Decimal.Value(Decimal.DigitValues(s)) < TWO_32
    ensures r.Some? ==> r.value == Decimal.Value(Decimal.DigitValues(s))
  {
    match Decimal.Parse(s)
    case None => None
    case Some(v) => if v < TWO_32 then Some(v) else None
  }

  /** The status `exit` ends the shell with. The Go code never returns an error here. */
  function ParseExitStatus(args: seq<string>, lastStatus: uint32): (s: uint32)
    ensures |args| <= 1 ==> s == lastStatus
    ensures |args| > 1 && Decimal.IsNumeral(args[1]) && Decimal.Value(Decimal.DigitValues(args[1])) < TWO_32
      ==> s == Decimal.Value(Decimal.DigitValues(args[1]))
    ensures |args| > 1 && !(Decimal.IsNumeral(args[1]) && Decimal.Value(Decimal.DigitValues(args[1])) < TWO_32)
      ==> s == 255
  {
    if |args| > 1 then
      match ParseUint32(args[1])
      case None => 255
      case Some(v) => v
    else lastStatus
  }

  /** `exit N` with N printed in decimal ends the shell with exactly N. */
  lemma ExitStatusFormat(n: uint32, rest: seq<string>, lastStatus: uint32)
    ensures ParseExitStatus(["exit", Decimal.Format(n)] + rest, lastStatus) == n
  {
    Decimal.FormatValue(n);
  }

  // ---------------------------------------------------------------- builtins without loops

  function EchoSpec(ctx: Context, env: Env): (o: Outcome)
    requires |ctx.args| >= 1
    ensures |o.env.input| <= |env.input|
  {
    var p := PutOut(env, Join(ctx.args[1..], " ") + "\n");
    Outcome(0, WriteError(p.ok), p.env)
  }

  function IfconfigSpec(env: Env): (o: Outcome)
    ensures |o.env.input| <= |env.input|
  {
    var p := PutOut(env, IfconfigOutput + "\n");
    Outcome(0, WriteError(p.ok), p.env)
  }

  /** uname with the formatted clock reading taken from the environment. */
  function UnameSpec(env: Env): (o: Outcome)
    ensures |o.env.input| <= |env.input|
  {
    var p := PutOut(env, UnamePrefix + env.now + UnameSuffix + "\n");
    Outcome(0, WriteError(p.ok), p.env)
  }

  /** The context su runs `sh` in: same streams and pty, the new user, and argument vector ["sh"]. */
  function SuContext(ctx: Context): (c: Context)
    ensures c.args == ShellProgram && c.pty == ctx.pty
    ensures c.user == if |ctx.args| > 1 then ctx.args[1] else "root"
  {
    ctx.(args := ShellProgram, user := if |ctx.args| > 1 then ctx.args[1] else "root")
  }

  // ---------------------------------------------------------------- cat

  /** The file operands of cat: its arguments with every `-n` taken out, order kept. */
  function FileArgs(args: seq<string>): (files: seq<string>)
    ensures forall f :: f in files <==> f in args && f != "-n"
    ensures |files| <= |args|
  {
    if args == [] then []
    else (if args[0] == "-n" then [] else [args[0]]) + FileArgs(args[1..])
  }

  lemma {:induction false} FileArgsSnoc(args: seq<string>, a: string)
    ensures FileArgs(args + [a]) == FileArgs(args) + (if a == "-n" then [] else [a])
    decreases |args|
  {
    if args == [] {
      assert [] + [a] == [a];
    } else {
      assert (args + [a])[1..] == args[1..] + [a];
      FileArgsSnoc(args[1..], a);
    }
  }

  /** The file loop of cat: stop at the first /proc/cpuinfo, report every other file on stderr. */
  function CatFilesSpec(prog: string, files: seq<string>, env: Env): (o: Outcome)
    ensures |o.env.input| <= |env.input|
    decreases |files|
  {
    if files == [] then Outcome(1, None, env)
    else if files[0] == CpuInfoPath then
      var p := PutOut(env, CpuInfo);
      Outcome(0, WriteError(p.ok), p.env)
    else
      var p := PutErr(env, NoSuchFile(prog, files[0]));
      if !p.ok then Outcome(0, Some(WriteFailure), p.env)
      else
        var o := CatFilesSpec(prog, files[1..], p.env);
        o
  }

  /** What cat writes for one line read from stdin: numbered with `n`, or the line as it is. */
  function CatLine(numbered: bool, n: nat, line: string): string
  {
    if numbered then NumberedLine(n, line) else line + "\n"
  }

  /** The number of the line after one numbered with `n`; numbering advances only under -n. */
  function NextNumber(numbered: bool, n: nat): nat
  {
    if numbered then n + 1 else n
  }

  /** The stdin loop of cat: copy every line, numbered from `n` when `numbered`, until a read or write fails. */
  function CatStdinSpec(numbered: bool, n: nat, env: Env): (o: Outcome)
    ensures |o.env.input| <= |env.input|
    decreases |env.input|
  {
    match ReadLine(env)
    case Failed(e) => Outcome(0, Some(ReadErr(e)), env)
    case Line(line, env1) =>
      var p := PutOut(env1, CatLine(numbered, n, line));
      if !p.ok then Outcome(0, Some(WriteFailure), p.env)
      else
        var o := CatStdinSpec(numbered, NextNumber(numbered, n), p.env);
        o
  }

  function CatSpec(ctx: Context, env: Env): (o: Outcome)
    requires |ctx.args| >= 1
    ensures |o.env.input| <= |env.input|
  {
    var files := FileArgs(ctx.args[1..]);
    if |files| > 0 then CatFilesSpec(ctx.args[0], files, env)
    else CatStdinSpec("-n" in ctx.args[1..], 1, env)
  }

  // ---------------------------------------------------------------- execution and the shell

  /** Ranks that order the calls executeProgram -> su -> executeProgram(sh) -> sh -> loop
      among themselves while no input is consumed. */
  function ExecRank(args: seq<string>): nat
  {
    if |args| > 0 && args[0] in Registry && Registry[args[0]] == Su then 4 else 2
  }

  /** executeProgram. */
  function ExecuteSpec(ctx: Context, env: Env): (o: Outcome)
    ensures |o.env.input| <= |env.input|
    decreases |env.input|, ExecRank(ctx.args)
  {
    if |ctx.args| == 0 then Outcome(0, None, env)
    else if ctx.args[0] !in Registry then
      Outcome(127, None, PutErr(env, NotFound(ctx.args[0])).env)
    else
      match Registry[ctx.args[0]]
      case Shell => ShellSpec(ctx, env)
      case True => Outcome(0, None, env)
      case False => Outcome(1, None, env)
      case Echo => EchoSpec(ctx, env)
      case Cat => CatSpec(ctx, env)
      case Su => SuSpec(ctx, env)
      case Ifconfig => IfconfigSpec(env)
      case Uname => UnameSpec(env)
  }

  /** cmdSu.execute. */
  function SuSpec(ctx: Context, env: Env): (o: Outcome)
    ensures |o.env.input| <= |env.input|
    decreases |env.input|, 3
  {
    ExecuteSpec(SuContext(ctx), env)
  }

  /** cmdShell.execute: the prompt is fixed once, and the loop starts with status 0. */
  function ShellSpec(ctx: Context, env: Env): (o: Outcome)
    ensures |o.env.input| <= |env.input|
    decreases |env.input|, 1
  {
    ShellLoop(ctx, GetPrompt(ctx), 0, env)
  }

  /** One or more turns of the read-eval loop, from the writing of the prompt on. */
  function ShellLoop(ctx: Context, prompt: string, lastStatus: uint32, env: Env): (o: Outcome)
    ensures |o.env.input| <= |env.input|
    decreases |env.input|, 0
  {
    var env1 := PutOut(env, prompt).env;
    match ReadLine(env1)
    case Failed(e) => Outcome(lastStatus, Some(ReadErr(e)), env1)
    case Line(line, env2) =>
      if |line| == 0 then
        var o := ShellLoop(ctx, prompt, lastStatus, env2);
        o
      else
        var args := Fields(line);
        if |args| == 0 then Outcome(lastStatus, Some(IndexOutOfRange), env2)
        else if args[0] == "exit" then Outcome(ParseExitStatus(args, lastStatus), None, env2)
        else
          var r := ExecuteSpec(ctx.(args := args), env2);
          if r.err.Some? then r
          else
            var o := ShellLoop(ctx, prompt, r.status, r.env);
            o
  }
}
