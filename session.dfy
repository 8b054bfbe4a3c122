/**
 * The PTY session (pty_session.rs): how `PtySession::new` composes the
 * child's command line, environment and working directory on a command
 * builder, the sizes given to the pseudo-terminal, and the writer through
 * which bytes reach the shell.
 */
module Session {
  import opened Common
  import opened Wrappers
  import Shell

  /** `PtySize`: a terminal size in character cells and in pixels. */
  datatype PtySize = PtySize(rows: U16, cols: U16, pixelWidth: U16, pixelHeight: U16)

  /** Everything a command builder says about the child to spawn. */
  datatype SpawnSpec = SpawnSpec(program: string, args: seq<string>, env: map<string, string>, cwd: Option<string>)

  /**
   * The command builder the session configures step by step: a program,
   * its argument list, the environment entries set on it (a later entry for
   * the same name replaces an earlier one) and an optional working
   * directory.
   */
  class CommandBuilder {
    var program: string
    var args: seq<string>
    var env: map<string, string>
    var cwd: Option<string>

    function Spec(): SpawnSpec
      reads this
    {
      SpawnSpec(program, args, env, cwd)
    }

    constructor (program: string)
      ensures Spec() == SpawnSpec(program, [], map[], None)
    {
      this.program := program;
      args := [];
      env := map[];
      cwd := None;
    }

    /** `cmd.arg(a)`: append one argument. */
    method Arg(a: string)
      modifies this
      ensures Spec() == old(Spec()).(args := old(args) + [a])
    {
      args := args + [a];
    }

    /** `cmd.env(key, value)`: set one environment entry, replacing any earlier one. */
    method Env(key: string, value: string)
      modifies this
      ensures Spec() == old(Spec()).(env := old(env)[key := value])
    {
      env := env[key := value];
    }

    /** `cmd.cwd(dir)`: set the working directory. */
    method Cwd(dir: string)
      modifies this
      ensures Spec() == old(Spec()).(cwd := Some(dir))
    {
      cwd := Some(dir);
    }
  }

  const TermDefault: string := "xterm-256color"
  const LocaleDefault: string := "en_US.UTF-8"
  const LocaleVars: seq<string> := ["LANG", "LC_ALL", "LC_CTYPE"]
  const TermProgram: string := "smart-workflow"

  /** Names whose value the session decides by precedence instead of copying. */
  predicate IsResolved(key: string) {
    key == "TERM" || key in LocaleVars
  }

  /**
   * The value of `key` by precedence: the caller's map, else the server's
   * own environment, else `fallback`.
   */
  function Resolve(user: Option<map<string, string>>, process: map<string, string>, key: string, fallback: string): (r: string)
    ensures var merged := if user.Some? then process + user.value else process;
            r == if key in merged then merged[key] else fallback
  {
    if user.Some? && key in user.value then user.value[key]
    else if key in process then process[key]
    else fallback
  }

  /** The entries set before the caller's own: `TERM` and the locale names. */
  function ResolvedEnv(user: Option<map<string, string>>, process: map<string, string>): map<string, string> {
    map[ "TERM" := Resolve(user, process, "TERM", TermDefault),
         "LANG" := Resolve(user, process, "LANG", LocaleDefault),
         "LC_ALL" := Resolve(user, process, "LC_ALL", LocaleDefault),
         "LC_CTYPE" := Resolve(user, process, "LC_CTYPE", LocaleDefault) ]
  }

  /** The caller's entries among `keys` that are copied as they are. */
  function Passed(user: map<string, string>, keys: set<string>): map<string, string> {
    map k | k in user && k in keys && !IsResolved(k) :: user[k]
  }

  /**
   * The environment set on the child. `TERM` and each locale name always
   * get a value by precedence; every other entry of the caller's map is
   * copied unchanged; `TERM_PROGRAM` is always `smart-workflow`, whatever the
   * caller asked for; nothing else is set.
   */
  function ChildEnv(user: Option<map<string, string>>, process: map<string, string>): (r: map<string, string>)
    ensures "TERM" in r && r["TERM"] == Resolve(user, process, "TERM", TermDefault)
    ensures "TERM" in r && (r["TERM"] == TermDefault || (user.Some? && "TERM" in user.value) || "TERM" in process)
    ensures forall v :: v in LocaleVars ==> v in r && r[v] == Resolve(user, process, v, LocaleDefault)
    ensures forall k :: user.Some? && k in user.value && !IsResolved(k) && k != "TERM_PROGRAM" ==>
      k in r && r[k] == user.value[k]
    ensures "TERM_PROGRAM" in r && r["TERM_PROGRAM"] == TermProgram
    ensures forall k :: k in r ==> IsResolved(k) || k == "TERM_PROGRAM" || (user.Some? && k in user.value)
  {
    var passed := if user.Some? then Passed(user.value, user.value.Keys) else map[];
    (ResolvedEnv(user, process) + passed)["TERM_PROGRAM" := TermProgram]
  }

  /**
   * The child `PtySession::new` spawns: the program and builder arguments of
   * the shell table, then the caller's arguments in order, the caller's
   * working directory if any, and the composed environment.
   */
  function SpawnFor(host: Shell.Host, shellType: Option<string>, shellArgs: Option<seq<string>>,
                    cwd: Option<string>, env: Option<map<string, string>>): SpawnSpec
  {
    var launch := Shell.ShellByType(host, shellType);
    SpawnSpec(launch.program, launch.args + shellArgs.GetOr([]), ChildEnv(env, host.env), cwd)
  }

  /** Append each of `extra` to the builder's arguments, in order. */
  method AddArgs(cmd: CommandBuilder, extra: seq<string>)
    modifies cmd
    ensures cmd.Spec() == old(cmd.Spec()).(args := old(cmd.args) + extra)
  {
    ghost var before := cmd.Spec();
    for k := 0 to |extra|
      invariant cmd.Spec() == before.(args := before.args + extra[..k])
    {
      assert extra[..k + 1] == extra[..k] + [extra[k]];
      cmd.Arg(extra[k]);
    }
    assert extra[..|extra|] == extra;
  }

  /** `TERM` and the first `k` locale names, each with its value by precedence. */
  function ResolvedUpTo(user: Option<map<string, string>>, process: map<string, string>, k: nat): map<string, string>
    requires k <= |LocaleVars|
  {
    if k == 0 then map["TERM" := Resolve(user, process, "TERM", TermDefault)]
    else ResolvedUpTo(user, process, k - 1)[LocaleVars[k - 1] := Resolve(user, process, LocaleVars[k - 1], LocaleDefault)]
  }

  lemma ResolvedUpToAll(user: Option<map<string, string>>, process: map<string, string>)
    ensures ResolvedUpTo(user, process, |LocaleVars|) == ResolvedEnv(user, process)
  {
    assert LocaleVars[0] == "LANG" && LocaleVars[1] == "LC_ALL" && LocaleVars[2] == "LC_CTYPE";
    assert ResolvedUpTo(user, process, 3) == ResolvedUpTo(user, process, 2)["LC_CTYPE" := Resolve(user, process, "LC_CTYPE", LocaleDefault)];
    assert ResolvedUpTo(user, process, 2) == ResolvedUpTo(user, process, 1)["LC_ALL" := Resolve(user, process, "LC_ALL", LocaleDefault)];
    assert ResolvedUpTo(user, process, 1) == ResolvedUpTo(user, process, 0)["LANG" := Resolve(user, process, "LANG", LocaleDefault)];
    assert ResolvedUpTo(user, process, |LocaleVars|) == ResolvedEnv(user, process);
  }

  lemma UpdateAfterUnion(a: map<string, string>, b: map<string, string>, k: string, v: string)
    ensures (a + b)[k := v] == a + b[k := v]
  {
  }

  /** Set `TERM` and then each locale name to its value by precedence. */
  method SetResolved(cmd: CommandBuilder, user: Option<map<string, string>>, process: map<string, string>)
    modifies cmd
    ensures cmd.Spec() == old(cmd.Spec()).(env := old(cmd.env) + ResolvedEnv(user, process))
  {
    ghost var before := cmd.Spec();
    UpdateAfterUnion(before.env, map[], "TERM", Resolve(user, process, "TERM", TermDefault));
    cmd.Env("TERM", Resolve(user, process, "TERM", TermDefault));
    for k := 0 to |LocaleVars|
      invariant cmd.Spec() == before.(env := before.env + ResolvedUpTo(user, process, k))
    {
      var name := LocaleVars[k];
      var value := Resolve(user, process, name, LocaleDefault);
      UpdateAfterUnion(before.env, ResolvedUpTo(user, process, k), name, value);
      cmd.Env(name, value);
    }
    ResolvedUpToAll(user, process);
  }

  lemma PassedStep(user: map<string, string>, visited: set<string>, key: string)
    requires key in user
    ensures Passed(user, visited + {key}) ==
      if IsResolved(key) then Passed(user, visited) else Passed(user, visited)[key := user[key]]
  {
  }

  /**
   * Copy every entry of the caller's map other than `TERM` and the locale
   * names, visiting the names in an arbitrary order.
   */
  method PassUserEnv(cmd: CommandBuilder, user: map<string, string>)
    modifies cmd
    ensures cmd.Spec() == old(cmd.Spec()).(env := old(cmd.env) + Passed(user, user.Keys))
  {
    ghost var before := cmd.Spec();
    var remaining := user.Keys;
    while remaining != {}
      invariant remaining <= user.Keys
      invariant cmd.Spec() == before.(env := before.env + Passed(user, user.Keys - remaining))
      decreases remaining
    {
      var key :| key in remaining;
      ghost var visited := user.Keys - remaining;
      PassedStep(user, visited, key);
      if !IsResolved(key) {
        UpdateAfterUnion(before.env, Passed(user, visited), key, user[key]);
        cmd.Env(key, user[key]);
      }
      remaining := remaining - {key};
      assert user.Keys - remaining == visited + {key};
    }
    assert user.Keys - remaining == user.Keys;
  }

  /**
   * The environment steps of `PtySession::new` on a builder that has no
   * variables set yet: `TERM` and the locale names by precedence, then the
   * caller's other entries, then `TERM_PROGRAM`.
   */
  method ComposeEnv(cmd: CommandBuilder, user: Option<map<string, string>>, process: map<string, string>)
    requires cmd.env == map[]
    modifies cmd
    ensures cmd.Spec() == old(cmd.Spec()).(env := ChildEnv(user, process))
  {
    var passed := if user.Some? then Passed(user.value, user.value.Keys) else map[];
    SetResolved(cmd, user, process);
    assert cmd.env == ResolvedEnv(user, process);
    if user.Some? {
      PassUserEnv(cmd, user.value);
    }
    assert cmd.env == ResolvedEnv(user, process) + passed;
    cmd.Env("TERM_PROGRAM", TermProgram);
  }

  /**
   * The command-building part of `PtySession::new`: each argument, the
   * working directory and each environment entry is set on the builder one
   * call at a time, the caller's map in whatever order it is iterated.
   */
  method BuildCommand(host: Shell.Host, shellType: Option<string>, shellArgs: Option<seq<string>>,
                      cwd: Option<string>, env: Option<map<string, string>>)
    returns (cmd: CommandBuilder)
    ensures fresh(cmd)
    ensures cmd.Spec() == SpawnFor(host, shellType, shellArgs, cwd, env)
  {
    var launch := Shell.ShellByType(host, shellType);
    cmd := new CommandBuilder(launch.program);
    AddArgs(cmd, launch.args);
    if shellArgs.Some? {
      AddArgs(cmd, shellArgs.value);
    }
    if cwd.Some? {
      cmd.Cwd(cwd.value);
    }
    assert cmd.Spec() == SpawnSpec(launch.program, launch.args + shellArgs.GetOr([]), map[], cwd);
    ComposeEnv(cmd, env, host.env);
  }

  /**
   * The writer half of the PTY master. `stream` is every byte the shell
   * has been sent, in order.
   */
  class PtyWriter {
    var stream: seq<Byte>

    constructor ()
      ensures stream == []
    {
      stream := [];
    }

    /**
     * `PtyWriter::write`: `write_all` followed by `flush`. Without a fault
     * the whole buffer is delivered and the call succeeds; with a fault
     * (`fault` bytes were accepted before the device failed) only that prefix
     * is delivered and the call reports an error.
     */
    method Write(data: seq<Byte>, fault: Option<nat>) returns (ok: bool)
      modifies this
      ensures ok <==> fault.None?
      ensures stream == old(stream) + Delivered(data, fault)
    {
      ok := fault.None?;
      stream := stream + Delivered(data, fault);
    }
  }

  /** What a write of `data` leaves on the device: all of it, or the prefix accepted before a fault. */
  function Delivered(data: seq<Byte>, fault: Option<nat>): (r: seq<Byte>)
    ensures |r| <= |data| && r == data[..|r|]
    ensures fault.None? ==> r == data
  {
    if fault.None? then data
    else if fault.value < |data| then data[..fault.value]
    else data
  }

  /**
   * A running session: the child that was spawned, the size the PTY was
   * opened with, its current size, and whether the child has been killed.
   */
  class PtySession {
    const spawned: SpawnSpec
    const initialSize: PtySize
    var size: PtySize
    var killed: bool

    constructor (spawned: SpawnSpec, initialSize: PtySize)
      ensures this.spawned == spawned && this.initialSize == initialSize
      ensures size == initialSize && !killed
    {
      this.spawned := spawned;
      this.initialSize := initialSize;
      size := initialSize;
      killed := false;
    }

    /**
     * `PtySession::resize`: the PTY is set to exactly `cols` × `rows` with no
     * pixel size when the device accepts (`ok`); otherwise the error is
     * returned and the size stays as it was.
     */
    method Resize(cols: U16, rows: U16, ok: bool) returns (success: bool)
      modifies this
      ensures success == ok
      ensures size == if ok then PtySize(rows, cols, 0, 0) else old(size)
      ensures killed == old(killed)
    {
      if ok {
        size := PtySize(rows, cols, 0, 0);
      }
      success := ok;
    }

    /** `PtySession::kill`: the child is terminated; a failure to kill is not reported further. */
    method Kill()
      modifies this
      ensures killed && size == old(size)
    {
      killed := true;
    }
  }

  /**
   * `PtySession::new`: open a PTY of exactly `cols` × `rows` (no pixel
   * size), spawn the composed command on it, and hand out its writer.
   */
  method NewSession(cols: U16, rows: U16, host: Shell.Host, shellType: Option<string>,
                    shellArgs: Option<seq<string>>, cwd: Option<string>, env: Option<map<string, string>>)
    returns (session: PtySession, writer: PtyWriter)
    ensures fresh(session) && fresh(writer)
    ensures session.initialSize == PtySize(rows, cols, 0, 0) && session.size == session.initialSize && !session.killed
    ensures session.spawned == SpawnFor(host, shellType, shellArgs, cwd, env)
    ensures writer.stream == []
  {
    var cmd := BuildCommand(host, shellType, shellArgs, cwd, env);
    session := new PtySession(cmd.Spec(), PtySize(rows, cols, 0, 0));
    writer := new PtyWriter();
  }
}
