# SSH honeypot deception core, in Dafny

This project models the two parts of the honeypot's deception layer that hold its logic, and proves properties about them.

**The fake shell (`commands.go`).**
- `executeProgram` looks the first argument up in the command registry.
- `sh` runs the read–eval loop: print the prompt, read a line, split it into fields, handle `exit`, then dispatch.
- The built-ins are `true`, `false`, `echo`, `cat` (with `-n`, the synthetic `/proc/cpuinfo`, and stdin copying), `su`, `uname` and `ifconfig`.

**The global-request dispatcher (`request.go`).**
- `handleGlobalRequest` counts each request under a label and decodes its payload with the parser registered for its type.
- It sets the connection's `noMoreSessions` flag, replies when asked, and logs the event.
- The payload variants are `tcpip-forward`, `cancel-tcpip-forward` and `no-more-sessions@openssh.com`, from section 7.1 of RFC 4254 and the OpenSSH protocol extensions.
- `marshalBytes` produces the length-prefixed `string` encoding of section 5 of RFC 4251.

## How the model is organised

The source's shell code is imperative: loops over a line reader, writes to `io.Writer`s, and early returns. Each such operation is modelled twice.
- A specification function gives a value for every input. There are several: `Commands.ShellLoop`, `Commands.ExecuteSpec`, `Commands.CatStdinSpec`, and so on.
- A method in `Interpreter` has the source's loops and branches, and its `ensures` clause says it returns exactly what the specification function does.

The properties of the shell are lemmas about the specification functions, in `ShellFacts` and `StreamFacts`.

The session's I/O is an explicit value, `Commands.Env`:
- the input lines still to be read;
- what ends the input (`Eof`, i.e. `io.EOF`, or another read failure);
- the stdout and stderr sinks;
- the wall-clock string that `uname` prints.

A sink is its text so far plus a capacity. The capacity is `Unbounded`, or a number of writes left before writes start to fail. This lets the write-error paths of every built-in be stated.

The dispatcher is modelled in two layers:
- `GlobalRequests.Dispatch` is a pure transition on the connection state and the counters.
- `GlobalRequests.HandleGlobalRequest` is the imperative method. It updates a `Connection` object and a `GlobalRequestsMetric` object, and is proved to perform exactly that transition.

The connection records what its peer and its log observe as one ordered trace of `ReplySent` and `Logged` events. This makes the order "reply, then log" part of the state.

Modules:
- `Base`: `Option`, `uint32`, `byte`.
- `Decimal`: decimal numerals for `strconv`/`fmt`.
- `Text`: `unicode.IsSpace`, `strings.Fields`, `strings.Join`, `%6d` padding.
- `Commands`: the shell's specification.
- `Interpreter`: the shell's methods.
- `ShellFacts` and `StreamFacts`: shell properties.
- `Wire`: the RFC 4251 encodings and `marshalBytes`.
- `GlobalRequests`: payloads, parsers, dispatch, and the classes.
- `RequestFacts`: dispatcher properties.

### Behaviour of the code worth noting

- **End of input is an error.** The shell loop and `cat` on stdin stop when `ReadLine` fails, and return that failure as their error. At end of input `ReadLine` returns `io.EOF`, so `cat` returns `(0, io.EOF)` (commands.go:159-170) and `sh` returns `(lastStatus, io.EOF)` (commands.go:65-69). The model does the same (`ShellFacts.CatStdinCopiesAll`, `ShellFacts.ShellReadError`).
- **Only zero-length lines are skipped.** The loop skips a line only when its length is zero. A line of whitespace gives an empty `strings.Fields` result, and indexing it panics (commands.go:71-75). The model turns that panic into the error `IndexOutOfRange`, with the last status (`ShellFacts.ShellBlankLinePanics`).
- **A complaint that cannot be written.** When `cat` cannot write its "No such file or directory" complaint, it returns status 0 with the write error, not status 1 (commands.go:148-149).

## Model

| member | source | states |
|---|---|---|
| Decimal.Digits | commands.go:163 | the decimal digits of n: at least one digit, no leading zero, and their value is n |
| Decimal.Format | request.go:34 | strconv.Itoa of a non-negative number is a decimal numeral (digits only, at least one) in canonical form: no leading zero unless the number is 0 |
| Decimal.FormatValue | request.go:34 | the numeral strconv.Itoa writes for n denotes n |
| Decimal.FormatBytes | request.go:34 | the bytes of the numeral for n are its characters' codes |
| Decimal.DigitValues | commands.go:100 | the digit values of a numeral, one per character |
| Decimal.Parse | commands.go:100 | base-10 parsing succeeds exactly on nonempty all-digit strings and yields their value |
| Decimal.ParseFormat | commands.go:100 | parsing the numeral of n gives back n |
| Decimal.LeadingZero | commands.go:100 | leading zeros are accepted and do not change the value a numeral denotes |
| Text.TokenLength | commands.go:74 | a leading run of non-space characters is maximal: it is space-free and is followed by a space or the end |
| Text.Fields | commands.go:74 | strings.Fields yields only nonempty, space-free fields |
| Text.FieldsEmptyIffBlank | commands.go:74 | strings.Fields is empty exactly when the line has no non-space character |
| Text.FieldsKeepText | commands.go:74 | the fields, concatenated, are exactly the line's non-space characters in order |
| Text.FieldsOfJoin | commands.go:124 | splitting the space-joined fields gives back the same fields |
| Text.FieldsOfField | commands.go:74 | a field followed by a space-led tail splits into that field and the tail's fields |
| Text.TokenLengthOfField | commands.go:74 | the token before a space-led tail is exactly the field |
| Text.IsSpace | commands.go:74 | among ASCII characters, unicode.IsSpace holds exactly for space, tab, newline, vertical tab, form feed and carriage return, and it never holds above U+3000 |
| Text.Join | commands.go:124 | strings.Join keeps every element, in order, with the separator between each two: its length is the elements' total plus one separator per gap, it starts with the first element, and the first separator follows it |
| Text.PadLeft | commands.go:163 | padding to width w gives max(w, length) characters and keeps the text as the suffix |
| Text.PadLeftShape | commands.go:163 | %6d pads on the left with spaces to width 6 and never truncates, keeping the digits as the suffix |
| Commands.Write | commands.go:66 | a write to a working sink appends exactly the data; a failing sink is left unchanged |
| Commands.PutWrites | commands.go:54 | a write to stdout or stderr reports success exactly when that sink has room; it then appends exactly the data, and otherwise changes nothing; the other sink, the input and the clock are never touched |
| Commands.ReadLineSplits | commands.go:66-67 | ReadLine fails exactly when no line is left, with what ends the input; otherwise the line it returns, put back in front of the remaining input, is the input it read from, and nothing else changes |
| Commands.PutSteps | commands.go:66 | a write only appends to a sink, uses up its capacity, and leaves the input alone |
| Commands.ReadSteps | commands.go:67 | a read only removes the first line of the input and leaves the sinks alone |
| Commands.ConsumesTrans | commands.go:62-85 | proof helper for the loop lemmas: "input only consumed from the front" composes over successive steps |
| Commands.AppendsTrans | commands.go:62-85 | proof helper for the loop lemmas: "output only appended" composes over successive steps |
| Commands.NumberedLineShape | commands.go:163 | a `%6d  %s\n` line is the decimal line number right-aligned after blanks in at least six columns, two spaces, the line and a newline |
| Commands.RegistryKeys | commands.go:37-46 | the constant `Commands.Registry` holds exactly the eight names registerCommands adds, each bound to its own command, and `exit` is not a command |
| Commands.GetPrompt | commands.go:88-96 | prompt `# ` iff a pty and user root, `$ ` iff a pty and another user, empty iff no pty |
| Commands.ParseUint32 | commands.go:100 | ParseUint(s, 10, 32) succeeds exactly on numerals whose value is below 2^32 |
| Commands.ParseExitStatus | commands.go:98-107 | no code gives lastStatus; a decimal code below 2^32 gives that code; anything else gives 255 |
| Commands.ExitStatusFormat | commands.go:98-107 | `exit` followed by the decimal form of any uint32 n gives status n |
| Commands.SuContext | commands.go:176-182 | su's context runs `sh`, as args[1] when given and root otherwise, keeping the pty flag |
| Commands.FileArgs | commands.go:134-140 | the files are exactly the arguments other than `-n`, and never more than the arguments |
| Commands.FileArgsSnoc | commands.go:134-140 | scanning one more argument appends it to the files unless it is `-n` |
| Commands.EchoSpec | commands.go:123-126 | echo consumes at most the input it was given; its output and result are stated by EchoWritesArgs and EchoWriteFails |
| Commands.IfconfigSpec | commands.go:201-205 | ifconfig consumes at most the input it was given; its output and result are stated by IfconfigWrites |
| Commands.UnameSpec | commands.go:188-193 | uname consumes at most the input it was given; its output and result are stated by UnameWrites |
| Commands.CatFilesSpec | commands.go:142-154 | the file loop consumes at most the input it was given; CatFilesStatus states that it reads none |
| Commands.CatStdinSpec | commands.go:156-170 | the stdin loop consumes at most the input it was given |
| Commands.CatSpec | commands.go:130-171 | cat consumes at most the input it was given |
| Commands.ExecuteSpec | commands.go:48-58 | executeProgram consumes at most the input it was given; its cases are stated by the ShellFacts lemmas |
| Commands.SuSpec | commands.go:176-184 | su consumes at most the input it was given |
| Commands.ShellSpec | commands.go:62-85 | the shell consumes at most the input it was given |
| Commands.ShellLoop | commands.go:65-84 | each turn of the loop consumes at most the input it was given |
| ShellFacts.ExecuteEmptyArgs | commands.go:49-51 | an empty argument vector returns status 0, no error, and touches nothing |
| ShellFacts.ExecuteUnknown | commands.go:52-56 | an unknown name writes exactly "NAME: command not found\n" to stderr and returns 127 with no error |
| ShellFacts.ExecuteUnknownIgnoresWriteError | commands.go:54-55 | even when stderr fails, an unknown name returns 127, no error, and leaves stdout and the input alone |
| ShellFacts.TrueAndFalse | commands.go:111-119 | true and false return 0 and 1 with no output and no error |
| ShellFacts.SuRunsShell | commands.go:176-184 | su is exactly the shell run with args `sh`, user args[1] or root, and the same pty flag |
| ShellFacts.ShellReadError | commands.go:66-70 | a failed read ends the loop after the prompt with the last status and that read error |
| ShellFacts.ShellEmptyLine | commands.go:71-73 | a zero-length line costs one prompt and one line and leaves the status alone |
| ShellFacts.ShellBlankLinePanics | commands.go:74-75 | a nonempty whitespace-only line ends the loop with the index-out-of-range failure |
| ShellFacts.ShellExit | commands.go:75-77 | a line whose first field is `exit` ends the loop with parseExitStatus of its fields and no error |
| ShellFacts.ShellDispatch | commands.go:78-83 | any other line runs executeProgram on its fields; an error ends the loop with it, otherwise the loop goes on with the new status |
| ShellFacts.ShellNoOpTurn | commands.go:71-83 | an empty, `true` or `false` line costs one prompt and sets the status to 0 or 1 as that line says |
| ShellFacts.ShellExitLine | commands.go:75-77 | a bare `exit` ends the loop with the last status and no error |
| ShellFacts.ShellRunsScript | commands.go:62-85 | a script of empty, `true` and `false` lines then `exit` ends with the status the last command set, one prompt per line read, and the rest of the input untouched |
| ShellFacts.FieldsOfExitLine | commands.go:74-76 | `exit W` splits into `exit` and W |
| ShellFacts.ShellExitCode | commands.go:75-76 | `exit N` for a uint32 N ends the shell with status N and no error |
| ShellFacts.ShellExitBadCode | commands.go:99-102 | `exit W` for a word W that is not a numeral ends the shell with status 255 |
| ShellFacts.ExitNotANumber | commands.go:99-102 | a session whose only line is `exit notanumber` ends with status 255 and no error |
| ShellFacts.TrueThenExit | commands.go:62-85 | `true` then `exit` ends the shell with status 0 |
| ShellFacts.FalseThenExit | commands.go:62-85 | `false` then `exit` ends the shell with status 1 |
| ShellFacts.SuPrompts | commands.go:88-96 | with a pty, `su` gives the root prompt `# ` and `su bob` gives `$ ` |
| ShellFacts.EchoWritesArgs | commands.go:123-126 | echo writes exactly its arguments joined by single spaces and a newline, and re-splitting that text gives back the arguments |
| ShellFacts.EchoWriteFails | commands.go:123-126 | when stdout fails, echo returns 0 with the write error and changes nothing |
| ShellFacts.IfconfigWrites | commands.go:201-205 | ifconfig writes exactly the canned listing and a newline and returns 0; when stdout fails it returns 0 with the write error and writes nothing; it reads no input |
| ShellFacts.UnameWrites | commands.go:188-193 | uname writes exactly the kernel line with the clock reading between its fixed parts and a newline, and returns 0; when stdout fails it returns 0 with the write error and writes nothing; it reads no input |
| ShellFacts.EchoABC | commands.go:123-126 | `echo a b c` writes `a b c\n` and returns 0 |
| ShellFacts.CatStdinCopiesAll | commands.go:156-170 | with a stdout that has room for every line (unbounded, or enough writes left), cat copies every input line in order (numbered from n when asked), consumes all input, and returns 0 with the end-of-input error |
| ShellFacts.CatStdinWriteFails | commands.go:162-170 | a failed stdout write ends cat's stdin loop after that one line with status 0 and the write error |
| ShellFacts.CatStdinStep | commands.go:159-168 | one turn of cat's stdin loop writes the line's text, advances the number when numbering, and goes on with the next line |
| ShellFacts.CatStdinEndsWithError | commands.go:156-170 | however its loop ends, cat on stdin returns status 0 with an error: the write error or what ended the input |
| ShellFacts.CatStdinStopsAtFailedWrite | commands.go:159-170 | with room for only k writes and more than k lines, cat copies the first k lines, consumes one more, and returns 0 with the write error |
| ShellFacts.CatFilesStatus | commands.go:142-154 | the file loop reads no input and returns 0 or 1; 1 exactly when no file was /proc/cpuinfo and every complaint was written; its only error is a write error, with status 0 |
| ShellFacts.CatFilesComplaintFails | commands.go:148-150 | when stderr has room for only k complaints and more files precede any /proc/cpuinfo, cat writes k complaints and returns 0 with the write error instead of 1 |
| ShellFacts.CatFilesNoneFound | commands.go:142-153 | with no /proc/cpuinfo among the files and a stderr with room for every complaint, cat writes one complaint per file in order and returns 1 |
| ShellFacts.CatFilesFirstFound | commands.go:143-150 | the first /proc/cpuinfo ends cat: with a stderr with room for their complaints, the files before it get complaints, the listing is written, status is 0, and the later files are ignored |
| ShellFacts.CatDashN | commands.go:134-140 | `-n` is never taken as a file, and every other argument is |
| ShellFacts.CatNumbersStdin | commands.go:156-170 | `cat -n` on lines x, y writes "     1  x\n     2  y\n" |
| ShellFacts.CatCpuInfo | commands.go:144-146 | `cat /proc/cpuinfo` writes the canned listing and returns 0 |
| ShellFacts.CatMissingFile | commands.go:148-153 | `cat /nope` writes "cat: /nope: No such file or directory\n" to stderr and returns 1 |
| Interpreter.ExecuteProgram | commands.go:48-58 | the method returns exactly what executeProgram's specification gives |
| Interpreter.RunSu | commands.go:176-184 | the method returns exactly what su's specification gives |
| Interpreter.RunShell | commands.go:62-85 | the loop returns exactly what the shell's specification gives |
| Interpreter.CollectFiles | commands.go:131-140 | the scan sets numberLine iff `-n` is an argument, and collects exactly the other arguments |
| Interpreter.CatFiles | commands.go:142-154 | the loop returns exactly what the file loop's specification gives |
| Interpreter.CatStdin | commands.go:156-170 | the loop returns exactly what the stdin loop's specification gives, numbering from 1 |
| Interpreter.RunCat | commands.go:130-171 | the method returns exactly what cat's specification gives |
| StreamFacts.CatFilesConsumes | commands.go:142-154 | cat's file loop leaves the input as it was or consumes it from the front only |
| StreamFacts.CatStdinConsumes | commands.go:156-170 | cat's stdin loop only consumes input from the front |
| StreamFacts.ExecuteConsumes | commands.go:48-58 | executeProgram only consumes input from the front, and keeps what ends the input |
| StreamFacts.SuConsumes | commands.go:176-184 | su only consumes input from the front |
| StreamFacts.ShellConsumes | commands.go:62-85 | the shell only consumes input from the front |
| StreamFacts.ShellLoopConsumes | commands.go:65-84 | the loop only consumes input from the front, across nested shells |
| StreamFacts.CatFilesAppends | commands.go:142-154 | cat's file loop only appends to stdout and stderr |
| StreamFacts.CatStdinAppends | commands.go:156-170 | cat's stdin loop only appends to stdout and stderr |
| StreamFacts.ExecuteAppends | commands.go:48-58 | executeProgram never rewrites output that was already written |
| StreamFacts.SuAppends | commands.go:176-184 | su never rewrites output |
| StreamFacts.ShellAppends | commands.go:62-85 | the shell never rewrites output |
| StreamFacts.ShellLoopAppends | commands.go:65-84 | no turn of the loop rewrites output, across nested shells |
| Wire.Uint32Bytes | request.go:30 | a uint32 is marshalled as exactly four bytes |
| Wire.Uint32RoundTrip | request.go:30 | reading the four bytes gives back the uint32 |
| Wire.Uint32Determined | request.go:30 | any four bytes are the encoding of the uint32 they are read as |
| Wire.MarshalString | request.go:125 | a string is marshalled as four length bytes followed by its bytes |
| Wire.ParseUint32 | request.go:65 | decoding a uint32 succeeds exactly when four bytes remain, and splits off their encoding |
| Wire.ParseString | request.go:65 | decoding a string succeeds exactly when the length prefix fits the remaining bytes, and splits off an encoding |
| Wire.ParseMarshalString | request.go:65 | a string's encoding decodes to that string, whatever follows it |
| Wire.ParseMarshalUint32 | request.go:65 | a uint32's encoding decodes to that number, whatever follows it |
| Wire.MarshaledSnoc | request.go:124-125 | one more element appends exactly its string encoding |
| Wire.Marshaled | request.go:122-128 | the output of marshalBytes has length Σ(4 + len(b)), proved through the recursion |
| Wire.MarshaledRoundTrip | request.go:122-128 | decoding the output of marshalBytes recovers the list |
| Wire.MarshalBytes | request.go:122-128 | the loop returns the string encodings of the elements concatenated in order |
| GlobalRequests.ParseAddressPort | request.go:63-76 | decoding an address and a port succeeds only on exactly their encoding with no byte left over |
| GlobalRequests.Parse | request.go:62-83 | the no-more-sessions parser accepts exactly the empty payload; the forward parsers yield their own variant and accept only well-formed encodings, failing with the unmarshal error otherwise |
| GlobalRequests.ParseForwardRoundTrip | request.go:63-76 | every encoded address and port decodes, under both forward types, to that address and port |
| GlobalRequests.Reply | request.go:26-31 | a port-0 forward replies with four bytes holding a port in [1024, 65536); every other payload replies with nothing |
| GlobalRequests.LoggedAddressSplits | request.go:32-36 | the logged host:port address splits back into the host and the decimal port, brackets added for IPv6 removed |
| GlobalRequests.JoinHostPortShape | request.go:34 | net.JoinHostPort gives the host, bracketed exactly when it holds a colon, then a colon, then the port |
| GlobalRequests.LogEntryOf | request.go:32-36 | each payload logs the entry of its own kind: forward, cancel, or no-more-sessions (the addresses are stated by ForwardLogsHostPort and CancelLogsHostPort) |
| GlobalRequests.LastIndexOf | request.go:34 | proof helper of the reference splitter SplitHostPort (JoinHostPort itself tests for any colon): finds the last occurrence of a byte, or reports that there is none |
| GlobalRequests.CounterLabel | request.go:93-104 | a request is counted under its own type when that type has a parser, and under "unknown" otherwise |
| GlobalRequests.Dispatch | request.go:92-120 | one request bumps exactly its label's counter and never clears the no-more-sessions flag; the remaining cases are the RequestFacts lemmas |
| GlobalRequests.Connection.constructor | request.go:111 | a fresh connection has the flag cleared and an empty trace |
| GlobalRequests.Bump | request.go:95 | incrementing a label adds one to it and leaves every other label alone |
| GlobalRequests.GlobalRequestsMetric.constructor | request.go:85-90 | the counter vector starts with every label at zero |
| GlobalRequests.GlobalRequestsMetric.Inc | request.go:95 | the method increments its label's count |
| GlobalRequests.Connection.Reply | request.go:98 | a reply that goes through is appended to the peer's trace |
| GlobalRequests.Connection.LogEvent | request.go:118 | a log entry is appended to the trace |
| GlobalRequests.HandleGlobalRequest | request.go:92-120 | the method's new connection state, counters and error are exactly the dispatch transition's, for the random draw it made and the reply outcome |
| RequestFacts.DispatchUnknown | request.go:93-103 | an unknown type bumps "unknown", logs nothing, leaves the flag alone, replies (false, empty) when asked, and fails only if that reply fails |
| RequestFacts.DispatchDecodeError | request.go:104-108 | a payload that does not decode bumps its type's counter and returns the parser's error, with no reply, no log and no flag change |
| RequestFacts.DispatchDecoded | request.go:109-119 | a decoded request replies (true, payload reply) when asked, then logs, unless the reply fails, in which case it returns that error and skips logging |
| RequestFacts.DispatchCountsOnce | request.go:93-104 | every request bumps exactly one counter, its type's or "unknown" |
| RequestFacts.DispatchFlag | request.go:109-112 | afterwards the flag is set exactly when it was set before or the request was a well-formed no-more-sessions request; a failed reply does not undo it |
| RequestFacts.DispatchError | request.go:92-120 | an error is returned exactly when a known type's payload fails to decode or a requested reply fails |
| RequestFacts.DispatchEvents | request.go:113-119 | events are only appended, at most two; a log entry is added exactly when the request decodes and no reply failed, and it comes last |
| RequestFacts.ForwardPortZeroReply | request.go:26-31 | a port-0 tcpip-forward asking for a reply gets an accepted reply with a 4-byte port in [1024, 65536), then its log entry |
| RequestFacts.OtherRepliesEmpty | request.go:43-45 | nonzero-port forwards, cancels and no-more-sessions requests are accepted with an empty reply payload |
| RequestFacts.ForwardLogsHostPort | request.go:32-36 | a forward request logs an address that splits back into its host and its port in decimal |
| RequestFacts.CancelLogsHostPort | request.go:46-50 | a cancel-tcpip-forward request logs a cancel entry whose address splits back into its host and its port in decimal |
| RequestFacts.RunFlag | request.go:109-112 | over a run of requests the flag ends set exactly when it started set or some request was a well-formed no-more-sessions request, so it is never cleared and setting it again changes nothing |
| RequestFacts.RunCounts | request.go:93-104 | over a run, each label's count grows by the number of requests accounted under it |
| RequestFacts.RunEventsExtend | request.go:113-118 | over a run, earlier replies and log entries are never altered |

## Left out

- The canned texts of data.go (`CpuInfo`, `IfconfigOutput`) are cut to their first lines. Only their being fixed text matters to the properties.
- `uname`'s timestamp (`time.Now().Format`, commands.go:189) is the `now` field of the environment. The clock and Go's time formatting are not modelled.
- `rand.Intn` (request.go:30) is a nondeterministic choice in the method. It is recorded as a ghost value and constrained only to its range.
- The atomicity of the Prometheus counters (request.go:85-90) is dropped. The metric is a sequential map from label to count.
- `warningLogger.Printf` (request.go:96) is output only and is not modelled. The sink behind `context.logEvent` is an appended trace entry.
- The transport behind `ssh.Request.Reply` is not modelled. A reply either goes through, and is recorded, or fails, as a parameter says.
- Of `ssh.Marshal`/`ssh.Unmarshal`, only the RFC 4251 `uint32` and `string` layouts are modelled.
- `Wire.ParseString` compares the length prefix with the exact number of remaining bytes. The library compares it with that number truncated to 32 bits. The two differ only for inputs of 4 GiB or more.
- `GlobalRequests.JoinHostPort` models `net.JoinHostPort` exactly. The split-back property `GlobalRequests.LoggedAddressSplits` assumes the host contains no `[`.
- The other fields of `connContext` are not modelled, because the dispatcher does not touch them.
- Partial writes are not modelled. A write either succeeds whole or fails and leaves its sink unchanged.
- The text `ReadLine` returns together with an error is dropped, because both callers ignore it.
- Every `fmt.Fprint*` returns the write error alone. Byte counts are not modelled.
- The Go panic on a whitespace-only shell line is modelled as the error `IndexOutOfRange` with the last status. It is not modelled as unwinding.
- `Commands.EchoSpec`, `Commands.CatSpec`, `Commands.ShellSpec` and the other specification functions state only an input bound in their own contracts. Their behaviour is stated by lemmas about them: `EchoWritesArgs`, `EchoWriteFails`, `IfconfigWrites`, `UnameWrites`, the `Cat*` and `Shell*` lemmas of `ShellFacts`, and the lemmas of `StreamFacts`.
- UnameSpec: commands.go:189 calls `time.Now()` on every `uname`, but the model's clock reading is one value per session (`Env.now`, which no command changes). Two `uname` commands in one session print the same time in the model.
- Write: a `Remaining(n)` sink fails every write once its room is used up. A Go `io.Writer` may fail once and succeed on a later write, and that is not represented.
- Lines are Dafny strings of Unicode characters, while Go's lines are byte strings. Invalid UTF-8 and byte lengths (as `len(line)` counts them at commands.go:71) are not represented; a zero-length line is the same in both.
- LogEntryOf: request.go:34 and :48 print `strconv.Itoa(int(request.Port))`. The model prints the `uint32` value itself, which matches Go only where `int` is 64 bits wide; on a 32-bit platform a port of 2^31 or more would print as a negative number there.
- The `init` function that registers `uname` a second time (commands.go:195-197) rebinds the same entry, so the registry is a single constant.
