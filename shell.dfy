/**
 * Shell selection (shell.rs): which program, with which arguments, the
 * server launches for a requested shell type, and which integration script
 * it injects into the shell afterwards. Compile-time platform selection
 * becomes the `platform` of a `Host`, and every probe of the machine (the
 * process environment, whether a program starts, whether a path exists, what
 * `where bash.exe` prints) is an oracle carried by the `Host`.
 */
module Shell {
  import opened Common
  import opened Wrappers

  datatype Platform = Windows | Unix

  /** What the server can learn about the machine it runs on. */
  datatype Host = Host(
    platform: Platform,
    /** The process environment, as read by `std::env::var`. */
    env: map<string, string>,
    /** Whether `<program> -Command exit` can be started. */
    runs: string -> bool,
    /** `Path::exists`. */
    pathExists: string -> bool,
    /** Standard output of `where bash.exe`, when it ran, succeeded and was UTF-8. */
    whereBash: Option<string>)

  /** A program to start and the arguments the shell table gives it. */
  datatype Launch = Launch(program: string, args: seq<string>)

  // The integration scripts. Each starts with a space, which keeps it out of
  // the shell history, and ends with a newline, which submits it.
  const BashIntegration: string := " " + "eval '__sw_cwd(){ printf \"\\e]7;file://%s%s\\e\\\\\" \"${HOSTNAME:-localhost}\" \"$PWD\";};PROMPT_COMMAND=\"__sw_cwd${PROMPT_COMMAND:+;$PROMPT_COMMAND}\"' 2>/dev/null;__sw_cwd;printf '\\ec'" + "\n"
  const ZshIntegration: string := " " + "eval '__sw_cwd(){ printf \"\\e]7;file://%s%s\\e\\\\\" \"${HOST:-localhost}\" \"$PWD\";};autoload -Uz add-zsh-hook;add-zsh-hook precmd __sw_cwd;add-zsh-hook chpwd __sw_cwd' 2>/dev/null;__sw_cwd;printf '\\ec'" + "\n"
  const FishIntegration: string := " " + "eval 'function __sw_cwd --on-variable PWD; printf \"\\e]7;file://%s%s\\e\\\\\" (hostname) $PWD; end' 2>/dev/null;__sw_cwd;printf '\\ec'" + "\n"

  /**
   * `get_shell_integration_script`: on Unix the script for `bash`, `zsh` and
   * `fish`; nothing for any other name, and nothing at all on Windows.
   */
  function IntegrationScript(platform: Platform, shellType: string): (r: Option<string>)
    ensures r.Some? <==> platform.Unix? && (shellType == "bash" || shellType == "zsh" || shellType == "fish")
    ensures r.Some? ==> |r.value| >= 2 && r.value[0] == ' ' && r.value[|r.value| - 1] == '\n'
  {
    if platform.Windows? then None
    else if shellType == "bash" then
      Some(BashIntegration)
    else if shellType == "zsh" then
      Some(ZshIntegration)
    else if shellType == "fish" then
      Some(FishIntegration)
    else None
  }

  /**
   * First-success search: the first candidate satisfying `ok`, or `None`
   * when none does.
   */
  function FirstMatch(candidates: seq<string>, ok: string -> bool): Option<string> {
    if candidates == [] then None
    else if ok(candidates[0]) then Some(candidates[0])
    else FirstMatch(candidates[1..], ok)
  }

  /**
   * `FirstMatch` is the search its name promises: `None` exactly when no
   * candidate passes, and otherwise a passing candidate before which every
   * candidate failed.
   */
  lemma {:induction false} FirstMatchIsFirst(candidates: seq<string>, ok: string -> bool)
    ensures FirstMatch(candidates, ok).None? <==> forall i :: 0 <= i < |candidates| ==> !ok(candidates[i])
    ensures FirstMatch(candidates, ok).Some? ==>
      exists i :: 0 <= i < |candidates| && candidates[i] == FirstMatch(candidates, ok).value && ok(candidates[i]) &&
        forall j :: 0 <= j < i ==> !ok(candidates[j])
  {
    if candidates != [] && !ok(candidates[0]) {
      var tail := candidates[1..];
      FirstMatchIsFirst(tail, ok);
      assert forall j :: 1 <= j < |candidates| ==> candidates[j] == tail[j - 1];
      var r := FirstMatch(tail, ok);
      if r.Some? {
        var i :| 0 <= i < |tail| && tail[i] == r.value && ok(tail[i]) && forall j :: 0 <= j < i ==> !ok(tail[j]);
        assert candidates[i + 1] == r.value;
      }
    } else if candidates != [] {
      assert candidates[0] == FirstMatch(candidates, ok).value;
    }
  }

  /** PowerShell Core, then Windows PowerShell. */
  const PowershellCandidates: seq<string> := ["pwsh.exe", "powershell.exe"]

  /** `which_powershell`: the first PowerShell that starts. */
  method WhichPowershell(host: Host) returns (r: Option<string>)
    ensures r == FirstMatch(PowershellCandidates, host.runs)
  {
    var candidates := PowershellCandidates;
    for k := 0 to |candidates|
      invariant FirstMatch(candidates, host.runs) == FirstMatch(candidates[k..], host.runs)
    {
      assert candidates[k..][1..] == candidates[k + 1..];
      if host.runs(candidates[k]) {
        return Some(candidates[k]);
      }
    }
    return None;
  }

  /** `USERPROFILE`, or the empty string when it is not set. */
  function UserProfile(host: Host): string {
    if "USERPROFILE" in host.env then host.env["USERPROFILE"] else ""
  }

  /** The fixed Git Bash installation paths, in the order they are tried. */
  function GitBashCandidates(userProfile: string): seq<string> {
    [ "C:\\Program Files\\Git\\bin\\bash.exe",
      "C:\\Program Files (x86)\\Git\\bin\\bash.exe",
      userProfile + "\\AppData\\Local\\Programs\\Git\\bin\\bash.exe" ]
  }

  /** The text of `s` up to, not including, its first newline. */
  function UntilNewline(s: string): (r: string)
    ensures |r| <= |s| && r == s[..|r|] && '\n' !in r
    ensures |r| < |s| ==> s[|r|] == '\n'
  {
    if s == [] || s[0] == '\n' then [] else [s[0]] + UntilNewline(s[1..])
  }

  /**
   * `str::lines().next()`: no line in an empty string; otherwise the text
   * before the first `\n`, without the `\r` of a `\r\n` ending.
   */
  function FirstLine(s: string): (r: Option<string>)
    ensures r.None? <==> s == []
    ensures r.Some? ==> StartsWith(s, r.value) && '\n' !in r.value
    ensures r.Some? ==> |r.value| == |s| || s[|r.value|] == '\n' ||
                        (|r.value| + 1 < |s| && s[|r.value|] == '\r' && s[|r.value| + 1] == '\n')
    ensures r.Some? && |r.value| < |s| && s[|r.value|] == '\n' ==> r.value == [] || r.value[|r.value| - 1] != '\r'
  {
    if s == [] then None
    else
      var l := UntilNewline(s);
      if |l| < |s| && l != [] && l[|l| - 1] == '\r' then Some(l[..|l| - 1]) else Some(l)
  }

  /**
   * The PATH fallback of `which_gitbash`: the trimmed first line printed by
   * `where bash.exe`, provided it mentions `Git`.
   */
  function GitBashOnPath(whereOutput: Option<string>): Option<string> {
    if whereOutput.None? then None
    else
      match FirstLine(whereOutput.value)
      case None => None
      case Some(line) => if Contains(Trim(line), "Git") then Some(Trim(line)) else None
  }

  /** What `which_gitbash` finds: a fixed path that exists, else the PATH fallback. */
  function GitBashPath(host: Host): Option<string> {
    var fixed := FirstMatch(GitBashCandidates(UserProfile(host)), host.pathExists);
    if fixed.Some? then fixed else GitBashOnPath(host.whereBash)
  }

  /** `which_gitbash`: try the fixed paths in order, then ask `where`. */
  method WhichGitbash(host: Host) returns (r: Option<string>)
    ensures r == GitBashPath(host)
  {
    var candidates := GitBashCandidates(UserProfile(host));
    for k := 0 to |candidates|
      invariant FirstMatch(candidates, host.pathExists) == FirstMatch(candidates[k..], host.pathExists)
    {
      assert candidates[k..][1..] == candidates[k + 1..];
      if host.pathExists(candidates[k]) {
        return Some(candidates[k]);
      }
    }
    if host.whereBash.Some? {
      var first := FirstLine(host.whereBash.value);
      if first.Some? {
        var path := Trim(first.value);
        if Contains(path, "Git") {
          return Some(path);
        }
      }
    }
    return None;
  }

  /** `get_default_shell`: `cmd.exe` on Windows; `$SHELL`, else `/bin/bash`, on Unix. */
  function DefaultShell(host: Host): (r: Launch)
    ensures r.args == []
    ensures host.platform.Windows? ==> r.program == "cmd.exe"
  {
    if host.platform.Windows? then Launch("cmd.exe", [])
    else if "SHELL" in host.env then Launch(host.env["SHELL"], [])
    else Launch("/bin/bash", [])
  }

  /**
   * The default shell looks at nothing but the platform and `$SHELL`: not
   * the other variables, and none of the probes.
   */
  lemma DefaultShellReadsOnlyShellVar(h1: Host, h2: Host)
    requires h1.platform == h2.platform
    requires ("SHELL" in h1.env) == ("SHELL" in h2.env)
    requires "SHELL" in h1.env ==> h1.env["SHELL"] == h2.env["SHELL"]
    ensures DefaultShell(h1) == DefaultShell(h2)
  {
  }

  const CustomPrefix: string := "custom:"

  /** `get_shell_by_type`: the program and arguments for a requested shell type. */
  function ShellByType(host: Host, shellType: Option<string>): (r: Launch)
    ensures r.args == [] || (host.platform.Windows? && shellType == Some("gitbash") && r.args == ["--login"])
  {
    if shellType == Some("cmd") then Launch("cmd.exe", [])
    else if shellType == Some("powershell") then
      if host.platform.Windows? then Launch(FirstMatch(PowershellCandidates, host.runs).GetOr("powershell.exe"), [])
      else DefaultShell(host)
    else if shellType == Some("wsl") then Launch("wsl.exe", [])
    else if shellType == Some("gitbash") then
      if host.platform.Windows? then
        match GitBashPath(host)
        case Some(path) => Launch(path, ["--login"])
        case None => DefaultShell(host)
      else Launch("bash", [])
    else if shellType == Some("bash") then Launch("bash", [])
    else if shellType == Some("zsh") then Launch("zsh", [])
    else if shellType.Some? && StartsWith(shellType.value, CustomPrefix) then Launch(shellType.value[|CustomPrefix|..], [])
    else DefaultShell(host)
  }

  /** The shell types `get_shell_by_type` recognises by name. */
  predicate IsNamedType(t: string) {
    t in {"cmd", "powershell", "wsl", "gitbash", "bash", "zsh"}
  }

  /** `cmd`, `wsl`, `bash` and `zsh` name the same program on every platform, without arguments. */
  lemma FixedShells(host: Host)
    ensures ShellByType(host, Some("cmd")) == Launch("cmd.exe", [])
    ensures ShellByType(host, Some("wsl")) == Launch("wsl.exe", [])
    ensures ShellByType(host, Some("bash")) == Launch("bash", [])
    ensures ShellByType(host, Some("zsh")) == Launch("zsh", [])
  {
  }

  /** `custom:<path>` starts exactly `<path>`, without arguments. */
  lemma CustomShell(host: Host, path: string)
    ensures ShellByType(host, Some(CustomPrefix + path)) == Launch(path, [])
  {
    var t := CustomPrefix + path;
    assert t[..|CustomPrefix|] == CustomPrefix && t[|CustomPrefix|..] == path;
    assert StartsWith(t, CustomPrefix);
    assert !IsNamedType(t) by {
      assert t[0] == 'c' && t[1] == 'u';
    }
  }

  /** No shell type, or one the table does not know, starts the default shell. */
  lemma UnknownTypeUsesDefault(host: Host, shellType: Option<string>)
    requires shellType.Some? ==> !IsNamedType(shellType.value) && !StartsWith(shellType.value, CustomPrefix)
    ensures ShellByType(host, shellType) == DefaultShell(host)
    ensures DefaultShell(host).args == []
    ensures host.platform.Windows? ==> DefaultShell(host).program == "cmd.exe"
    ensures host.platform.Unix? ==>
      DefaultShell(host).program == if "SHELL" in host.env then host.env["SHELL"] else "/bin/bash"
  {
  }

  /**
   * On Windows `powershell` starts `pwsh.exe` when it runs and
   * `powershell.exe` otherwise; elsewhere it starts the default shell.
   */
  lemma PowershellChoice(host: Host)
    ensures host.platform.Windows? ==>
      ShellByType(host, Some("powershell")) ==
        Launch(if host.runs("pwsh.exe") then "pwsh.exe" else "powershell.exe", [])
    ensures host.platform.Unix? ==> ShellByType(host, Some("powershell")) == DefaultShell(host)
  {
    var r := FirstMatch(PowershellCandidates, host.runs);
    if host.runs("pwsh.exe") {
      assert r == Some("pwsh.exe");
    } else if host.runs("powershell.exe") {
      assert r == Some("powershell.exe");
    } else {
      assert r == None;
    }
  }

  /**
   * On Windows `gitbash` starts the Git Bash found, with exactly the
   * argument `--login`, and falls back to the default shell when none is
   * found; on Unix it starts `bash` without arguments.
   */
  lemma GitBashChoice(host: Host)
    ensures host.platform.Windows? && GitBashPath(host).Some? ==>
      ShellByType(host, Some("gitbash")) == Launch(GitBashPath(host).value, ["--login"])
    ensures host.platform.Windows? && GitBashPath(host).None? ==>
      ShellByType(host, Some("gitbash")) == Launch("cmd.exe", [])
    ensures host.platform.Unix? ==> ShellByType(host, Some("gitbash")) == Launch("bash", [])
  {
  }

  /**
   * The search for Git Bash tries the fixed installation paths first, the
   * standard one before the others, and asks `where` only when none exists.
   */
  lemma GitBashSearchOrder(host: Host)
    ensures host.pathExists("C:\\Program Files\\Git\\bin\\bash.exe") ==>
      GitBashPath(host) == Some("C:\\Program Files\\Git\\bin\\bash.exe")
    ensures (forall p :: p in GitBashCandidates(UserProfile(host)) ==> !host.pathExists(p)) ==>
      GitBashPath(host) == GitBashOnPath(host.whereBash)
  {
    FirstMatchIsFirst(GitBashCandidates(UserProfile(host)), host.pathExists);
  }

  /**
   * The PATH fallback reads only the first line of the output of `where`,
   * drops its `\r\n` ending and surrounding blanks, and accepts it only when
   * it mentions `Git`.
   */
  lemma {:induction false} GitBashOnPathFirstLine(line: string, rest: string)
    requires '\n' !in line
    ensures GitBashOnPath(Some(line + "\r\n" + rest)) ==
      if Contains(Trim(line), "Git") then Some(Trim(line)) else None
  {
    var s := line + "\r\n" + rest;
    var l := line + "\r";
    assert '\n' !in l;
    assert s == l + ("\n" + rest);
    UntilNewlineStops(l, "\n" + rest);
    assert UntilNewline(s) == l && |l| < |s|;
    assert l[|l| - 1] == '\r' && l[..|l| - 1] == line;
    assert FirstLine(s) == Some(line);
  }

  lemma {:induction false} UntilNewlineStops(a: string, b: string)
    requires '\n' !in a && b != [] && b[0] == '\n'
    ensures UntilNewline(a + b) == a
  {
    if a != [] {
      assert (a + b)[1..] == a[1..] + b;
      UntilNewlineStops(a[1..], b);
    } else {
      assert a + b == b;
    }
  }
}
