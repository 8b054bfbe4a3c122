/**
 * One WebSocket connection (server.rs, `handle_connection` and
 * `handle_command`): the handshake that reads the first frame as an `init`
 * command, the output task that forwards terminal output to the client and injects
 * the shell integration script once, the loop that turns client frames into
 * terminal input, resizes and pongs, and the clean-up that kills the shell.
 *
 * Everything the outside world decides is an input: the frames the client
 * sends (with the outcome of each write, resize and send made while handling
 * it), the results of the terminal reads, and the JSON text parser.
 */
module Connection {
  import opened Common
  import opened Wrappers
  import opened Protocol
  import opened Session
  import Shell

  datatype Message =
    | Text(text: string)
    | Binary(data: seq<Byte>)
    | Ping(payload: seq<Byte>)
    | Pong(payload: seq<Byte>)
    | Close
    | Frame  // a raw frame, which the server ignores

  /** One item of the client stream: a frame, or a receive error. */
  datatype Received = Got(msg: Message) | ReceiveError

  /** JSON text syntax, as `serde_json` reads it; `None` is a syntax error. */
  type Parser = string -> Option<Json>

  /** `serde_json::from_str::<Command>`. */
  function ParseCommand(parse: Parser, text: string): (r: Option<Command>)
    ensures r.Some? ==> parse(text).Some? && parse(text).value.JObject? && "type" in parse(text).value.fields
    ensures r.Some? ==> parse(text).value.fields["type"] == JString(Tag(r.value))
  {
    var j := parse(text);
    if j.Some? then Decode(j.value) else None
  }

  /** Text that parses to the encoding of a command is read back as that command. */
  lemma ParseCommandEncoded(parse: Parser, text: string, c: Command)
    requires parse(text) == Some(Encode(c))
    ensures ParseCommand(parse, text) == Some(c)
  {
    DecodeEncode(c);
  }

  /** The sending half of the WebSocket: `sent` is every frame delivered, in order. */
  class WsSender {
    var sent: seq<Message>

    constructor ()
      ensures sent == []
    {
      sent := [];
    }

    /** Send one frame; `ok` is whether the transport accepted it. */
    method Send(m: Message, ok: bool) returns (success: bool)
      modifies this
      ensures success == ok
      ensures sent == if ok then old(sent) + [m] else old(sent)
    {
      if ok {
        sent := sent + [m];
      }
      success := ok;
    }
  }

  // ---------------------------------------------------------------------
  // Handshake

  /** The session parameters taken from the handshake. */
  datatype Config = Config(shellType: Option<string>, shellArgs: Option<seq<string>>,
                           cwd: Option<string>, env: Option<map<string, string>>)

  const DefaultConfig := Config(None, None, None, None)

  /**
   * The first frame configures the session only when it is a text frame
   * holding an `init` command; in every other case (no frame, a receive
   * error, another kind of frame, other text) the defaults apply. The first
   * frame is consumed either way.
   */
  function Handshake(first: Option<Received>, parse: Parser): (r: Config)
    ensures r != DefaultConfig ==>
      first.Some? && first.value.Got? && first.value.msg.Text? &&
      ParseCommand(parse, first.value.msg.text).Some? && ParseCommand(parse, first.value.msg.text).value.Init?
  {
    if first.Some? && first.value.Got? && first.value.msg.Text? then
      var cmd := ParseCommand(parse, first.value.msg.text);
      if cmd.Some? && cmd.value.Init? then Config(cmd.value.shellType, cmd.value.shellArgs, cmd.value.cwd, cmd.value.env)
      else DefaultConfig
    else DefaultConfig
  }

  /** A client that sends an encoded `init` first gets exactly the parameters it sent. */
  lemma HandshakeTakesInit(t: string, parse: Parser, st: Option<string>, sa: Option<seq<string>>,
                           cwd: Option<string>, env: Option<map<string, string>>)
    requires parse(t) == Some(Encode(Init(st, sa, cwd, env)))
    ensures Handshake(Some(Got(Text(t))), parse) == Config(st, sa, cwd, env)
  {
    DecodeEncode(Init(st, sa, cwd, env));
  }

  /** Any other first item leaves the defaults in place. */
  lemma HandshakeDefaults(first: Option<Received>, parse: Parser)
    requires first.None? || first.value.ReceiveError? || !first.value.msg.Text? ||
             ParseCommand(parse, first.value.msg.text).None? || !ParseCommand(parse, first.value.msg.text).value.Init?
    ensures Handshake(first, parse) == DefaultConfig
  {
  }

  /** The bytes written to the shell after its first output: the integration script, when there is one. */
  function InjectedScript(host: Shell.Host, cfg: Config): (r: Option<seq<Byte>>)
    ensures r.Some? <==> host.platform.Unix? && cfg.shellType.Some? &&
                         (cfg.shellType.value == "bash" || cfg.shellType.value == "zsh" || cfg.shellType.value == "fish")
    ensures r.Some? ==> r.value != [] && r.value[0] == ' ' as int && r.value[|r.value| - 1] == '\n' as int
  {
    if cfg.shellType.Some? then
      var script := Shell.IntegrationScript(host.platform, cfg.shellType.value);
      if script.Some? then
        Utf8Ends(script.value);
        Some(Utf8(script.value))
      else None
    else None
  }

  // ---------------------------------------------------------------------
  // Output task: terminal output to the client

  const ReadBufferSize: nat := 8192

  /** What one read of the terminal returns: at most one buffer of bytes. */
  type Chunk = s: seq<Byte> | |s| <= ReadBufferSize

  datatype ReadResult =
    | Data(bytes: Chunk)  // `Ok(n)`; an empty chunk is end of output
    | ReadFailed          // the read returned an error
    | TaskFailed          // the blocking task itself failed

  /**
   * One turn of the output task: what the read returned, whether the frame
   * sent for it was accepted, and how a script write made in this turn fares.
   */
  datatype ReadStep = ReadStep(result: ReadResult, sendOk: bool, writeFault: Option<nat>)

  datatype ReadState = ReadState(sent: seq<Message>, input: seq<Byte>, firstOutput: bool, done: bool)

  /** Whether a turn forwards output and lets the output task go on. */
  predicate Forwards(step: ReadStep) {
    step.result.Data? && |step.result.bytes| > 0 && step.sendOk
  }

  function ReadApply(st: ReadState, step: ReadStep, script: Option<seq<Byte>>): ReadState {
    if !Forwards(step) then st.(done := true)
    else
      var next := st.(sent := st.sent + [Binary(step.result.bytes)]);
      if !st.firstOutput then next
      else if script.Some? then next.(firstOutput := false, input := st.input + Delivered(script.value, step.writeFault))
      else next.(firstOutput := false)
  }

  function ReadRun(steps: seq<ReadStep>, script: Option<seq<Byte>>, st: ReadState): ReadState
    decreases |steps|
  {
    if |steps| == 0 || st.done then st
    else ReadRun(steps[1..], script, ReadApply(st, steps[0], script))
  }

  /** The chunks forwarded: those of the longest run of forwarding turns at the start. */
  function Forwarded(steps: seq<ReadStep>): (r: seq<Chunk>)
    ensures |r| <= |steps|
    ensures forall i :: 0 <= i < |r| ==> Forwards(steps[i]) && r[i] == steps[i].result.bytes
    ensures |r| < |steps| ==> !Forwards(steps[|r|])
  {
    if |steps| == 0 || !Forwards(steps[0]) then []
    else [steps[0].result.bytes] + Forwarded(steps[1..])
  }

  /** One binary frame per chunk, in order. */
  function BinaryFrames(chunks: seq<Chunk>): seq<Message> {
    if |chunks| == 0 then [] else [Binary(chunks[0])] + BinaryFrames(chunks[1..])
  }

  lemma BinaryFramesCons(c: Chunk, rest: seq<Chunk>)
    ensures BinaryFrames([c] + rest) == [Binary(c)] + BinaryFrames(rest)
  {
    assert ([c] + rest)[1..] == rest;
  }

  /**
   * The output task forwards, as binary frames and in order, exactly the
   * non-empty chunks read before the first end of output, read error or
   * failed send.
   */
  lemma {:induction false} ReadForwardsInOrder(steps: seq<ReadStep>, script: Option<seq<Byte>>, st: ReadState)
    requires !st.done
    ensures ReadRun(steps, script, st).sent == st.sent + BinaryFrames(Forwarded(steps))
    decreases |steps|
  {
    if |steps| > 0 && Forwards(steps[0]) {
      var next := ReadApply(st, steps[0], script);
      var chunk := steps[0].result.bytes;
      assert next.sent == st.sent + [Binary(chunk)] && !next.done;
      ReadForwardsInOrder(steps[1..], script, next);
      var rest := Forwarded(steps[1..]);
      assert Forwarded(steps) == [chunk] + rest;
      BinaryFramesCons(chunk, rest);
      assert (st.sent + [Binary(chunk)]) + BinaryFrames(rest) == st.sent + ([Binary(chunk)] + BinaryFrames(rest));
    }
  }

  /** The output task stops exactly when some turn does not forward. */
  lemma {:induction false} ReadStopsAtFirstFailure(steps: seq<ReadStep>, script: Option<seq<Byte>>, st: ReadState)
    requires !st.done
    ensures ReadRun(steps, script, st).done <==> |Forwarded(steps)| < |steps|
    decreases |steps|
  {
    if |steps| > 0 && Forwards(steps[0]) {
      var next := ReadApply(st, steps[0], script);
      assert !next.done;
      assert ReadRun(steps, script, st) == ReadRun(steps[1..], script, next);
      ReadStopsAtFirstFailure(steps[1..], script, next);
      assert |Forwarded(steps)| == 1 + |Forwarded(steps[1..])|;
    }
  }

  /** Once the first output has been seen, the output task writes nothing more to the shell. */
  lemma {:induction false} ReadAfterFirstWritesNothing(steps: seq<ReadStep>, script: Option<seq<Byte>>, st: ReadState)
    requires !st.firstOutput
    ensures ReadRun(steps, script, st).input == st.input
    decreases |steps|
  {
    if |steps| > 0 && !st.done {
      ReadAfterFirstWritesNothing(steps[1..], script, ReadApply(st, steps[0], script));
    }
  }

  /**
   * The integration script is written at most once: right after the first
   * chunk has been forwarded, and only when there is a script.
   */
  lemma InjectsScriptOnce(steps: seq<ReadStep>, script: Option<seq<Byte>>, sent: seq<Message>, input: seq<Byte>)
    ensures ReadRun(steps, script, ReadState(sent, input, true, false)).input ==
      input + (if script.Some? && |Forwarded(steps)| > 0 then Delivered(script.value, steps[0].writeFault) else [])
  {
    var st := ReadState(sent, input, true, false);
    if |steps| > 0 && Forwards(steps[0]) {
      ReadAfterFirstWritesNothing(steps[1..], script, ReadApply(st, steps[0], script));
    }
  }

  /** The output task (`read_task`): read, forward, and inject the script after the first output. */
  method ReadTask(steps: seq<ReadStep>, script: Option<seq<Byte>>, sender: WsSender, writer: PtyWriter)
    modifies sender, writer
    ensures var r := ReadRun(steps, script, ReadState(old(sender.sent), old(writer.stream), true, false));
      sender.sent == r.sent && writer.stream == r.input
  {
    ghost var start := ReadState(sender.sent, writer.stream, true, false);
    var firstOutput := true;
    var i := 0;
    var done := false;
    while i < |steps| && !done
      invariant 0 <= i <= |steps|
      invariant ReadRun(steps[i..], script, ReadState(sender.sent, writer.stream, firstOutput, done)) ==
        ReadRun(steps, script, start)
    {
      var step := steps[i];
      if step.result.Data? && |step.result.bytes| > 0 {
        var ok := sender.Send(Binary(step.result.bytes), step.sendOk);
        if !ok {
          done := true;
        } else if firstOutput {
          firstOutput := false;
          if script.Some? {
            var _ := writer.Write(script.value, step.writeFault);
          }
        }
      } else {
        done := true;
      }
      i := i + 1;
    }
  }

  // ---------------------------------------------------------------------
  // Message loop: client frames to the terminal

  /** How the actions taken for one frame fare: a PTY write, a resize, a pong send. */
  datatype Io = Io(writeFault: Option<nat>, resizeOk: bool, sendOk: bool)

  datatype Step = Step(received: Received, io: Io)

  /** Why the message loop stopped. */
  datatype LoopExit =
    | StreamEnded    // the client stream yielded nothing more
    | ClientClosed   // a close frame arrived
    | ReceiveFailed  // the stream yielded an error
    | ResizeFailed   // a resize command failed; the error is returned
    | PongFailed     // answering a ping failed; the error is returned

  datatype LoopState = LoopState(input: seq<Byte>, size: PtySize, sent: seq<Message>, exit: Option<LoopExit>)

  function Apply(st: LoopState, step: Step, parse: Parser): LoopState {
    match step.received
    case ReceiveError => st.(exit := Some(ReceiveFailed))
    case Got(msg) =>
      match msg
      case Text(t) =>
        var cmd := ParseCommand(parse, t);
        if cmd.None? then st.(input := st.input + Delivered(Utf8(t), step.io.writeFault))
        else if !cmd.value.Resize? then st
        else if step.io.resizeOk then st.(size := PtySize(cmd.value.rows, cmd.value.cols, 0, 0))
        else st.(exit := Some(ResizeFailed))
      case Binary(d) => st.(input := st.input + Delivered(d, step.io.writeFault))
      case Close => st.(exit := Some(ClientClosed))
      case Ping(d) => if step.io.sendOk then st.(sent := st.sent + [Pong(d)]) else st.(exit := Some(PongFailed))
      case Pong(_) => st
      case Frame => st
  }

  function Run(steps: seq<Step>, parse: Parser, st: LoopState): LoopState
    decreases |steps|
  {
    if |steps| == 0 || st.exit.Some? then st
    else Run(steps[1..], parse, Apply(st, steps[0], parse))
  }

  function Outcome(st: LoopState): LoopExit {
    if st.exit.Some? then st.exit.value else StreamEnded
  }

  /** The command a text frame carries, if it is a resize. */
  predicate IsResize(step: Step, parse: Parser) {
    step.received.Got? && step.received.msg.Text? &&
    var cmd := ParseCommand(parse, step.received.msg.text);
    cmd.Some? && cmd.value.Resize?
  }

  /** Whether handling the frame ends the loop. */
  predicate Ends(step: Step, parse: Parser) {
    step.received.ReceiveError? ||
    step.received.msg.Close? ||
    (step.received.msg.Ping? && !step.io.sendOk) ||
    (IsResize(step, parse) && !step.io.resizeOk)
  }

  /** The exit a loop-ending frame causes. */
  function ExitFor(step: Step, parse: Parser): LoopExit {
    if step.received.ReceiveError? then ReceiveFailed
    else if step.received.msg.Close? then ClientClosed
    else if step.received.msg.Ping? then PongFailed
    else ResizeFailed
  }

  lemma ApplyEnds(st: LoopState, step: Step, parse: Parser)
    requires st.exit.None?
    ensures Apply(st, step, parse).exit.Some? <==> Ends(step, parse)
    ensures Ends(step, parse) ==> Apply(st, step, parse).exit == Some(ExitFor(step, parse))
  {
  }

  /** The bytes a frame is meant to write to the shell: a non-command text frame in UTF-8, or a binary frame. */
  function Payload(step: Step, parse: Parser): seq<Byte> {
    if step.received.Got? && step.received.msg.Binary? then step.received.msg.data
    else if step.received.Got? && step.received.msg.Text? && ParseCommand(parse, step.received.msg.text).None? then
      Utf8(step.received.msg.text)
    else []
  }

  function Payloads(steps: seq<Step>, parse: Parser): seq<Byte> {
    if |steps| == 0 then [] else Payload(steps[0], parse) + Payloads(steps[1..], parse)
  }

  /** The pongs owed: one per ping, with the ping's payload, in order. */
  function Pongs(steps: seq<Step>): (r: seq<Message>)
    ensures forall i :: 0 <= i < |r| ==> r[i].Pong?
  {
    if |steps| == 0 then []
    else if steps[0].received.Got? && steps[0].received.msg.Ping? then
      [Pong(steps[0].received.msg.payload)] + Pongs(steps[1..])
    else Pongs(steps[1..])
  }

  /** The size set by the last successful resize among `steps`, or `size` when there is none. */
  function LastResize(steps: seq<Step>, parse: Parser, size: PtySize): PtySize {
    if |steps| == 0 then size
    else
      var last := steps[|steps| - 1];
      if IsResize(last, parse) && last.io.resizeOk then
        var cmd := ParseCommand(parse, last.received.msg.text).value;
        PtySize(cmd.rows, cmd.cols, 0, 0)
      else LastResize(steps[..|steps| - 1], parse, size)
  }

  /** Running over `a + [s]` is running over `a`, then handling `s` if the loop has not stopped. */
  lemma {:induction false} RunSnoc(a: seq<Step>, s: Step, parse: Parser, st: LoopState)
    ensures Run(a + [s], parse, st) ==
      (var mid := Run(a, parse, st); if mid.exit.Some? then mid else Apply(mid, s, parse))
    decreases |a|
  {
    if |a| == 0 {
      assert a + [s] == [s];
    } else if st.exit.None? {
      assert (a + [s])[1..] == a[1..] + [s];
      RunSnoc(a[1..], s, parse, Apply(st, a[0], parse));
    }
  }

  /**
   * While no frame ends the loop, it runs to the end of the stream: the
   * client gets one pong per ping, with the same payload and in order, and
   * the terminal has the size of the last successful resize.
   */
  lemma {:induction false} RunWithoutEnd(steps: seq<Step>, parse: Parser, st: LoopState)
    requires st.exit.None?
    requires forall i :: 0 <= i < |steps| ==> !Ends(steps[i], parse)
    ensures Run(steps, parse, st).exit.None?
    ensures Run(steps, parse, st).sent == st.sent + Pongs(steps)
    ensures Run(steps, parse, st).size == LastResize(steps, parse, st.size)
    decreases |steps|
  {
    if |steps| > 0 {
      var init := steps[..|steps| - 1];
      var last := steps[|steps| - 1];
      assert steps == init + [last];
      RunWithoutEnd(init, parse, st);
      RunSnoc(init, last, parse, st);
      PongsSnoc(init, last);
      ApplyEnds(Run(init, parse, st), last, parse);
    }
  }

  lemma {:induction false} PongsSnoc(a: seq<Step>, s: Step)
    ensures Pongs(a + [s]) == Pongs(a) + Pongs([s])
    decreases |a|
  {
    if |a| == 0 {
      assert a + [s] == [s];
    } else {
      assert (a + [s])[1..] == a[1..] + [s];
      PongsSnoc(a[1..], s);
    }
  }

  /**
   * While no frame ends the loop and no write fails, the shell receives
   * every text frame that is not a command (in UTF-8) and every binary
   * frame, byte for byte and in order; commands write nothing.
   */
  lemma {:induction false} RunWritesPayloads(steps: seq<Step>, parse: Parser, st: LoopState)
    requires st.exit.None?
    requires forall i :: 0 <= i < |steps| ==> !Ends(steps[i], parse) && steps[i].io.writeFault.None?
    ensures Run(steps, parse, st).input == st.input + Payloads(steps, parse)
    decreases |steps|
  {
    if |steps| > 0 {
      var next := Apply(st, steps[0], parse);
      ApplyEnds(st, steps[0], parse);
      RunWritesPayloads(steps[1..], parse, next);
      assert next.input == st.input + Payload(steps[0], parse);
    }
  }

  /**
   * The loop stops at the first frame that ends it, with that frame's exit,
   * and nothing after that frame has any effect.
   */
  lemma {:induction false} RunStopsAtFirstEnd(steps: seq<Step>, parse: Parser, st: LoopState, k: nat)
    requires st.exit.None?
    requires k < |steps| && Ends(steps[k], parse)
    requires forall i :: 0 <= i < k ==> !Ends(steps[i], parse)
    ensures Run(steps, parse, st) == Run(steps[..k + 1], parse, st)
    ensures Run(steps, parse, st).exit == Some(ExitFor(steps[k], parse))
    decreases k
  {
    var next := Apply(st, steps[0], parse);
    ApplyEnds(st, steps[0], parse);
    assert steps[..k + 1][1..] == steps[1..][..k];
    if k == 0 {
      assert Run(steps[1..], parse, next) == next;
      assert Run(steps[..1][1..], parse, next) == next;
    } else {
      RunStopsAtFirstEnd(steps[1..], parse, next, k - 1);
      assert steps[1..][..k] == steps[..k + 1][1..];
    }
  }

  /** `handle_command`: only a resize does anything, and its failure is returned. */
  method HandleCommand(cmd: Command, session: PtySession, resizeOk: bool) returns (ok: bool)
    modifies session
    ensures ok <==> !cmd.Resize? || resizeOk
    ensures session.size == if cmd.Resize? && resizeOk then PtySize(cmd.rows, cmd.cols, 0, 0) else old(session.size)
    ensures session.killed == old(session.killed)
  {
    ok := true;
    match cmd
    case Resize(cols, rows) =>
      ok := session.Resize(cols, rows, resizeOk);
    case Env(_, _) =>
    case Init(_, _, _, _) =>
  }

  /** The message loop of `handle_connection`, over the frames after the first. */
  method MessageLoop(steps: seq<Step>, parse: Parser, session: PtySession, writer: PtyWriter, sender: WsSender)
    returns (exit: LoopExit)
    modifies session, writer, sender
    ensures var r := Run(steps, parse, LoopState(old(writer.stream), old(session.size), old(sender.sent), None));
      writer.stream == r.input && session.size == r.size && sender.sent == r.sent && exit == Outcome(r)
    ensures session.killed == old(session.killed)
  {
    ghost var start := LoopState(writer.stream, session.size, sender.sent, None);
    exit := StreamEnded;
    var done := false;
    var i := 0;
    while i < |steps| && !done
      invariant 0 <= i <= |steps|
      invariant Run(steps[i..], parse, LoopState(writer.stream, session.size, sender.sent, if done then Some(exit) else None)) ==
        Run(steps, parse, start)
      invariant !done ==> exit == StreamEnded
      invariant session.killed == old(session.killed)
    {
      var step := steps[i];
      match step.received {
        case ReceiveError =>
          exit, done := ReceiveFailed, true;
        case Got(msg) =>
          match msg {
            case Text(t) =>
              var cmd := ParseCommand(parse, t);
              if cmd.Some? {
                var ok := HandleCommand(cmd.value, session, step.io.resizeOk);
                if !ok {
                  exit, done := ResizeFailed, true;
                }
              } else {
                var _ := writer.Write(Utf8(t), step.io.writeFault);
              }
            case Binary(d) =>
              var _ := writer.Write(d, step.io.writeFault);
            case Close =>
              exit, done := ClientClosed, true;
            case Ping(d) =>
              var ok := sender.Send(Pong(d), step.io.sendOk);
              if !ok {
                exit, done := PongFailed, true;
              }
            case Pong(_) =>
            case Frame =>
          }
      }
      i := i + 1;
    }
  }

  // ---------------------------------------------------------------------
  // The whole connection

  /** Whether the loop ended without returning an error, so that the shell is killed. */
  predicate EndsNormally(exit: LoopExit) {
    exit.StreamEnded? || exit.ClientClosed? || exit.ReceiveFailed?
  }

  /** The frames after the first, which the handshake consumes. */
  function AfterFirst(incoming: seq<Step>): seq<Step> {
    if |incoming| == 0 then [] else incoming[1..]
  }

  function FirstReceived(incoming: seq<Step>): Option<Received> {
    if |incoming| == 0 then None else Some(incoming[0].received)
  }

  /**
   * `handle_connection`: handshake on the first frame, a session of 80 × 24
   * configured from it, the output task, the message loop over the rest of
   * the frames, and the shell killed when the loop ended without an error.
   */
  method HandleConnection(host: Shell.Host, incoming: seq<Step>, outputs: seq<ReadStep>, parse: Parser, sender: WsSender)
    returns (session: PtySession, writer: PtyWriter, exit: LoopExit)
    modifies sender
    ensures fresh(session) && fresh(writer)
    ensures var cfg := Handshake(FirstReceived(incoming), parse);
      session.initialSize == PtySize(24, 80, 0, 0) &&
      session.spawned == SpawnFor(host, cfg.shellType, cfg.shellArgs, cfg.cwd, cfg.env)
    ensures var cfg := Handshake(FirstReceived(incoming), parse);
      var r := ReadRun(outputs, InjectedScript(host, cfg), ReadState(old(sender.sent), [], true, false));
      var m := Run(AfterFirst(incoming), parse, LoopState(r.input, PtySize(24, 80, 0, 0), r.sent, None));
      writer.stream == m.input && sender.sent == m.sent && session.size == m.size && exit == Outcome(m)
    ensures session.killed <==> EndsNormally(exit)
  {
    var shellType: Option<string> := None;
    var shellArgs: Option<seq<string>> := None;
    var cwd: Option<string> := None;
    var env: Option<map<string, string>> := None;
    if |incoming| > 0 && incoming[0].received.Got? && incoming[0].received.msg.Text? {
      var cmd := ParseCommand(parse, incoming[0].received.msg.text);
      if cmd.Some? && cmd.value.Init? {
        shellType, shellArgs, cwd, env := cmd.value.shellType, cmd.value.shellArgs, cmd.value.cwd, cmd.value.env;
      }
    }
    var cfg := Config(shellType, shellArgs, cwd, env);
    assert cfg == Handshake(FirstReceived(incoming), parse);
    session, writer := NewSession(80, 24, host, shellType, shellArgs, cwd, env);
    ReadTask(outputs, InjectedScript(host, cfg), sender, writer);
    exit := MessageLoop(AfterFirst(incoming), parse, session, writer, sender);
    if EndsNormally(exit) {
      session.Kill();
    }
  }
}
