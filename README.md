# pty-server in Dafny

A model of the decision logic in `pty-server`. This is a small server that
runs a shell on a pseudo-terminal (PTY) and connects it to a WebSocket
client. The model covers five pieces:

- **Argument parsing** (`args.dfy`, module `Args`). This is the `parse_args`
  token loop. It yields a listen port (0 means "any free port") or the help
  outcome.
- **Shell selection** (`shell.dfy`, module `Shell`). This covers the shell
  table `get_shell_by_type`, the default shell, and the first-success searches
  for PowerShell and Git Bash. It also covers the integration scripts that
  report the working directory.
- **Session setup** (`session.dfy`, module `Session`). This is how
  `PtySession::new` composes the child's program, arguments, working
  directory and environment on a command builder. It also covers the sizes
  given to the PTY and the PTY writer.
- **Control messages** (`protocol.dfy`, module `Protocol`). This is the
  `Command` codec: a JSON object tagged by `type` (`resize`, `env` or `init`),
  modelled over a parsed JSON value.
- **One connection** (`connection.dfy`, module `Connection`). The first frame
  is read as an `init` command. An output task forwards terminal output as
  binary frames and writes the integration script once. A message loop
  turns client frames into terminal input, resizes and pongs. The shell is
  killed when the loop ends without error.

`common.dfy` (module `Common`) holds the byte and `u16` types, UTF-8
encoding, and the Rust string operations the code relies on: `trim`,
`starts_with`, `contains` and `trim_start_matches`. `wrappers.dfy` holds
`Option`.

Loops that update state in the source are methods, proved against a
specification function. Examples are `ParseArgs` against `Scan`,
`MessageLoop` against `Run`, and `ReadTask` against `ReadRun`. Mutable
objects are classes: the command builder, the PTY session, the PTY writer
and the WebSocket sender. The loops of `handle_connection` are methods over
explicit finite traces. Each trace item carries whatever the outside world
decides for that step: the frame or read result, and whether a PTY write,
a resize or a send succeeds. A PTY write can fail after part of the
buffer has been accepted.

The two loops of a connection run concurrently in the source. The model
runs them one after the other: the output task over its trace first, then
the message loop, then the kill. Each loop's lemmas describe what that
loop itself sends and writes. `HandleConnection` composes them in one
order, with the output task first.

## Model

| member | source | states |
|---|---|---|
| Args.ParseArgs | pty-server/src/main.rs:25-54 | The `while` loop over the arguments ends with exactly the outcome of the token-by-token scan that starts after the program name with port 0. |
| Args.ParseU16 | pty-server/src/main.rs:34 | Parsing as `u16` succeeds only on a non-empty string of decimal digits, optionally with one leading `+`. |
| Args.ParseU16Decimal | pty-server/src/main.rs:34 | A number written in decimal parses back to itself exactly when it is at most 65535, and fails above. A leading `+` changes nothing. A leading `-` always fails. |
| Args.ProgramNameIgnored | pty-server/src/main.rs:29 | `args[0]` never affects the outcome. |
| Args.ScanReadsOnlySuffix | pty-server/src/main.rs:29-51 | The outcome of the scan from position `i` depends only on the tokens from `i` on. |
| Args.NoOptionListensOnZero | pty-server/src/main.rs:27-53 | With no recognised option among the tokens after the program name, the port is 0 and unrecognised tokens are skipped. |
| Args.PortFlagConsumesValue | pty-server/src/main.rs:32-37 | A `-p`/`--port` followed by a token sets the port to that token's value (0 when it does not parse). The value token is never examined as an option, so `pty-server -p --help` listens on port 0. A trailing `-p` leaves the port as it was. |
| Args.PortAssignStripsAllPrefixes | pty-server/src/main.rs:38-40 | `--port=` repeated any number of times before `V` sets the port from `V` with every prefix removed, or 0 when `V` does not parse. |
| Args.TrimRepeat | pty-server/src/main.rs:39 | `trim_start_matches` removes every leading copy of the pattern and nothing more. |
| Common.TrimStartMatches | pty-server/src/main.rs:39 | The result is no longer than the input and does not start with the pattern. |
| Common.TrimStartMatchesStripsCopies | pty-server/src/main.rs:39 | The input is the result preceded by a whole number of copies of the pattern, so the result is a suffix of the input. |
| Args.HelpIffExamined | pty-server/src/main.rs:41-47 | The outcome is help exactly when the scan reaches a `-h`/`--help` as an option. It stops there, before any later token. |
| Args.ListenIsLastSetting | pty-server/src/main.rs:32-40 | Port options are last-wins. The final port is the value set by the last port option the scan examined, or the initial port when there was none. |
| Shell.IntegrationScript | pty-server/src/shell.rs:23-41 | There is a script exactly on Unix for `bash`, `zsh` and `fish`, and never on Windows. Every script starts with a space and ends with a newline. |
| Shell.FirstMatchIsFirst | pty-server/src/shell.rs:119-130 | The candidate search finds nothing exactly when no candidate passes. Otherwise it finds a passing candidate with no passing candidate before it. |
| Shell.WhichPowershell | pty-server/src/shell.rs:112-131 | The `for` loop with early return finds the first of `pwsh.exe` and `powershell.exe` that runs. |
| Shell.WhichGitbash | pty-server/src/shell.rs:134-170 | The loop finds the first fixed installation path that exists. Failing that, it takes the trimmed first line of the output of `where bash.exe` when that line mentions `Git`. |
| Shell.GitBashOnPathFirstLine | pty-server/src/shell.rs:151-164 | From the output of `where`, only the first line counts. Its `\r\n` ending and surrounding blanks are dropped, and it is accepted only when it contains `Git`. |
| Shell.FirstLine | pty-server/src/shell.rs:158 | An empty text has no first line. Otherwise the first line is a prefix of the text with no `\n` in it. It is followed by the end of the text, by `\n`, or by `\r\n`. A line followed by `\n` never ends in `\r`, so the `\r` of a `\r\n` ending is dropped. |
| Common.Trim | pty-server/src/shell.rs:159 | Removes exactly the whitespace at both ends. The result is a contiguous part of the text that neither starts nor ends with whitespace, and every character cut from either end is whitespace. A text with no whitespace at either end is left unchanged. |
| Common.TrimStart | pty-server/src/shell.rs:159 | Removes exactly the leading whitespace: the result is a suffix that does not start with whitespace, and everything removed is whitespace. |
| Common.TrimEnd | pty-server/src/shell.rs:159 | Removes exactly the trailing whitespace, symmetrically. |
| Shell.ShellByType | pty-server/src/shell.rs:44-93 | The shell table gives no arguments to any program, except `--login` to a Git Bash found on Windows. Its entries are stated one by one by the lemmas below. |
| Shell.DefaultShell | pty-server/src/shell.rs:96-109 | The default shell never takes arguments, and on Windows it is `cmd.exe`. |
| Shell.DefaultShellReadsOnlyShellVar | pty-server/src/shell.rs:96-109 | The default shell depends only on the platform and on `$SHELL`: no other variable and no probe of the machine affects it. |
| Shell.FixedShells | pty-server/src/shell.rs:46-85 | `cmd`, `wsl`, `bash` and `zsh` start `cmd.exe`, `wsl.exe`, `bash` and `zsh` without arguments, on every platform. |
| Shell.PowershellChoice | pty-server/src/shell.rs:47-62 | On Windows, `powershell` starts `pwsh.exe` when it runs, else `powershell.exe`. On Unix it starts the default shell. |
| Shell.GitBashChoice | pty-server/src/shell.rs:64-83 | On Windows, `gitbash` starts the Git Bash found, with exactly the argument `--login`. When none is found it starts `cmd.exe`. On Unix it starts `bash` without arguments. |
| Shell.GitBashSearchOrder | pty-server/src/shell.rs:136-167 | The fixed installation paths are tried first, the standard one before the others. `where` is consulted only when none of them exists. |
| Shell.CustomShell | pty-server/src/shell.rs:86-90 | `custom:<path>` starts exactly `<path>`, without arguments. |
| Shell.UnknownTypeUsesDefault | pty-server/src/shell.rs:91-108 | No type, or an unrecognised one, starts the default shell: `cmd.exe` on Windows; on Unix `$SHELL` when set, else `/bin/bash`. |
| Session.CommandBuilder.Arg | pty-server/src/pty_session.rs:53 | One argument is appended and nothing else changes. |
| Session.CommandBuilder.Cwd | pty-server/src/pty_session.rs:59 | The working directory is set and nothing else changes. |
| Session.CommandBuilder.Env | pty-server/src/pty_session.rs:68 | One variable is set, replacing an earlier value, and nothing else changes. |
| Session.Resolve | pty-server/src/pty_session.rs:64-80 | A variable's value is looked up in the server's environment overlaid with the caller's map, so the caller's value wins. When neither has the variable, the default applies. |
| Session.ChildEnv | pty-server/src/pty_session.rs:62-95 | `TERM` is always set: from the caller's map, else from the server's environment, else `xterm-256color`. `LANG`, `LC_ALL` and `LC_CTYPE` follow the same precedence with `en_US.UTF-8`. Every other entry of the caller's map is copied unchanged. `TERM_PROGRAM` is always `smart-workflow`, even when the caller sends one. No other variable is set. |
| Session.AddArgs | pty-server/src/pty_session.rs:51-55 | The loop appends the caller's arguments in order, after those the shell table supplied. |
| Session.SetResolved | pty-server/src/pty_session.rs:64-82 | `TERM` and then the three locale variables are set to their resolved values. |
| Session.PassUserEnv | pty-server/src/pty_session.rs:85-92 | The loop visits the caller's map in any order and sets every entry except `TERM` and the locale variables. The result does not depend on the order. |
| Session.ComposeEnv | pty-server/src/pty_session.rs:62-95 | The environment steps, on a builder with no variables yet, leave exactly the composed child environment. |
| Session.BuildCommand | pty-server/src/pty_session.rs:48-95 | The command sets the shell table's program, then its arguments followed by the caller's, then the caller's working directory (only when given), then the composed environment. |
| Session.NewSession | pty-server/src/pty_session.rs:28-114 | The PTY is opened with exactly the requested columns and rows and zero pixel size. The child spawned is the composed command. The writer has written nothing yet. |
| Session.PtySession.Resize | pty-server/src/pty_session.rs:117-125 | When the device accepts, the size becomes exactly (cols, rows) with zero pixel size. Otherwise the error is returned and the size is unchanged. |
| Session.PtySession.Kill | pty-server/src/pty_session.rs:128-133 | The child is marked killed and the size is kept. |
| Session.PtyWriter.Write | pty-server/src/pty_session.rs:146-150 | Success exactly when there is no fault, and then the whole buffer is written. On a fault an error is returned and a prefix of the buffer is written. That prefix is the whole buffer when only the flush fails. |
| Session.Delivered | pty-server/src/pty_session.rs:147 | What reaches the device is a prefix of the buffer, and all of it when there is no fault. |
| Protocol.Decode | pty-server/src/server.rs:31-57 | Only an object whose `type` string names the decoded variant decodes. A decoded `resize` carries exactly the object's `cols` and `rows`. |
| Protocol.Encode | pty-server/src/server.rs:31-57 | The encoding is an object with `type` set to the variant's tag. Its other keys are exactly the fields that are present: absent optional fields get no key. Every key is one the variant reads. |
| Protocol.DecodeEncode | pty-server/src/server.rs:31-57 | Decoding the encoding of any command gives back that command. |
| Protocol.ResizeDecodes | pty-server/src/server.rs:36-37 | A `resize` object decodes exactly when both `cols` and `rows` are integers within `u16`, and then to those values. |
| Protocol.NullIsAbsent | pty-server/src/server.rs:38-56 | An optional field set to `null` decodes exactly as if it were missing. |
| Protocol.IgnoresUnknownFields | pty-server/src/server.rs:33-57 | A field the variant does not read, whatever its value, does not change the result of decoding. |
| Connection.ParseCommand | pty-server/src/server.rs:128 | Text reads as a command only when it parses to an object whose `type` is that command's tag. |
| Connection.ParseCommandEncoded | pty-server/src/server.rs:238 | Text that parses to the encoding of a command reads back as exactly that command. |
| Connection.Handshake | pty-server/src/server.rs:121-136 | The session differs from the defaults only when the first item is a text frame holding an `init` command. |
| Connection.HandshakeTakesInit | pty-server/src/server.rs:127-135 | A first frame holding an encoded `init` command configures the session with exactly its shell type, arguments, working directory and environment. |
| Connection.HandshakeDefaults | pty-server/src/server.rs:127-140 | Any other first item uses the defaults: no frame, a receive error, a non-text frame, text that is not a command, or another command. |
| Connection.InjectedScript | pty-server/src/server.rs:195-199 | There are bytes to inject exactly on Unix when the configured shell type is `bash`, `zsh` or `fish`. They start with a space and end with a newline. |
| Connection.Forwarded | pty-server/src/server.rs:184-192 | The chunks forwarded are those of the longest run of non-empty reads with successful sends at the start of the trace. |
| Connection.ReadForwardsInOrder | pty-server/src/server.rs:168-224 | The output task sends each non-empty read as one binary frame, with exactly those bytes and in order. These are the reads before the first empty read, read error, task error or failed send. |
| Connection.ReadStopsAtFirstFailure | pty-server/src/server.rs:184-221 | The output task stops exactly when some read is empty, fails, or its frame cannot be sent. |
| Connection.ReadAfterFirstWritesNothing | pty-server/src/server.rs:195-207 | Once the first output has been handled, the output task writes nothing more to the terminal. |
| Connection.InjectsScriptOnce | pty-server/src/server.rs:169-207 | The integration script is written at most once: right after the first successful send, and only when there is a script for the configured shell. |
| Connection.ReadTask | pty-server/src/server.rs:168-224 | The read loop with its `first_output` flag ends with exactly the frames sent and the terminal input of the output-task specification. |
| Connection.ApplyEnds | pty-server/src/server.rs:230-280 | A single frame ends the loop exactly when it is a close frame, a receive error, a ping whose pong cannot be sent, or a resize that fails. Each of these has its own exit. A failed PTY write does not end the loop. |
| Connection.RunStopsAtFirstEnd | pty-server/src/server.rs:230-280 | The loop stops at the first frame that ends it, with that frame's exit, and nothing after that frame has any effect. |
| Connection.RunWithoutEnd | pty-server/src/server.rs:244-272 | While no frame ends the loop, it runs to the end of the stream. Each ping is answered by a pong with the same payload, in order. The terminal size is that of the last successful resize. `env` and later `init` commands change nothing. |
| Connection.RunWritesPayloads | pty-server/src/server.rs:236-257 | Without write faults, the terminal receives every text frame that is not a command (in UTF-8) and every binary frame, byte for byte and in order. This includes malformed or unknown JSON. Commands write nothing. |
| Common.Utf8 | pty-server/src/server.rs:245 | The UTF-8 encoding of a text takes between `|s|` and `4·|s|` bytes, and ASCII text encodes to its own character codes. |
| Connection.HandleCommand | pty-server/src/server.rs:296-317 | Only `resize` acts: it sets exactly (cols, rows) and returns its failure. `env` and `init` change nothing and succeed. |
| Connection.MessageLoop | pty-server/src/server.rs:230-280 | The receive loop ends with exactly the terminal input, terminal size, frames sent and exit reason of the message-loop specification. |
| Connection.HandleConnection | pty-server/src/server.rs:108-293 | The first frame is consumed by the handshake and never reaches the terminal. The PTY starts at 80 × 24 with the configured command. The output task and the message loop then run over their traces. The shell is killed exactly when the loop ended without returning an error, so a failed resize or pong send skips the kill. |

## Left out

- Concurrency: the tokio tasks, `spawn_blocking`, the mutexes and the interleaving of the output task with the message loop. The loops run one after the other over explicit traces.
- The end of the output task's trace stands for the point after which nothing more is observed. Awaiting the output task after the kill is not modelled.
- I/O outside the connection: the TCP bind and accept, the WebSocket upgrade, the `{"port", "pid"}` line on stdout, waiting for `ctrl_c`, usage text and the process exit, and all logging.
- JSON text: `serde_json` parsing is a parameter (text to parsed value), and printing is not modelled. The codec works on parsed values. The sequence form that serde also accepts for tagged enums is not modelled. Neither is rejection of duplicate keys, since the parsed value already maps each key to one value.
- PTY and process internals: `openpty`, `spawn_command`, `try_clone_reader` and `take_writer`. The builder is a record whose later `env` calls replace earlier ones. The environment the child inherits from the server beyond the variables set explicitly is not modelled.
- Session.NewSession: does not model the failure of opening the PTY or spawning the shell. The session is always created, so the error return of `handle_connection` at that point is not modelled.
- Session.PtySession.Kill: does not model a failure to kill the child; the source discards that error.
- OS probes are oracles of a `Host` value:
  - whether a PowerShell candidate runs;
  - whether a path exists;
  - the output of `where bash.exe` (absent when the command fails or its output is not UTF-8);
  - the server's environment.
- Conditional compilation for Windows is an explicit platform parameter.
- No property of the integration scripts is stated beyond their first and last characters; their text is copied as is.

