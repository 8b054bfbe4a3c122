/**
 * The command line of the shell server (`parse_args` in main.rs). The
 * program name `args[0]` is skipped; the remaining tokens are scanned left
 * to right for a listen port (`-p V`, `--port V`, `--port=V`) or a help
 * request (`-h`, `--help`), which prints the usage and exits with status 0.
 * Tokens that are not options are skipped, and the port defaults to 0
 * (an ephemeral port chosen by the operating system).
 */
module Args {
  import opened Common
  import opened Wrappers

  /** What `parse_args` ends with: a port to listen on, or the help exit. */
  datatype ArgsOutcome = Listen(port: U16) | ShowHelp

  const PortPrefix: string := "--port="

  predicate IsDigit(c: char) {
    '0' <= c <= '9'
  }

  predicate AllDigits(s: string) {
    forall i :: 0 <= i < |s| ==> IsDigit(s[i])
  }

  /** The value of a string of decimal digits, most significant first. */
  function DigitsValue(s: string): nat
    requires AllDigits(s)
  {
    if s == [] then 0 else DigitsValue(s[..|s| - 1]) * 10 + (s[|s| - 1] as int - '0' as int)
  }

  /**
   * `str::parse::<u16>()`: an optional `+` sign, then at least one ASCII
   * digit and nothing else, with a value that fits in 16 bits. A `-` sign,
   * an empty string, a lone `+`, any other character and every value above
   * 65535 are errors.
   */
  function ParseU16(s: string): (r: Option<U16>)
    ensures r.Some? ==> s != [] && (forall i :: 0 <= i < |s| ==> IsDigit(s[i]) || (i == 0 && s[i] == '+'))
  {
    var digits := if s != [] && s[0] == '+' then s[1..] else s;
    if digits != [] && AllDigits(digits) && DigitsValue(digits) < 0x1_0000 then
      Some(DigitsValue(digits))
    else
      None
  }

  /** `parse().unwrap_or(0)`: the parsed port, or 0 when parsing fails. */
  function PortValue(s: string): U16 {
    ParseU16(s).GetOr(0)
  }

  /** The canonical decimal rendering of `n` (no sign, no leading zeros). */
  function Decimal(n: nat): (s: string)
    ensures s != [] && AllDigits(s)
  {
    if n < 10 then [('0' as int + n) as char] else Decimal(n / 10) + [('0' as int + n % 10) as char]
  }

  lemma {:induction false} DecimalValue(n: nat)
    ensures DigitsValue(Decimal(n)) == n
  {
    if n >= 10 {
      var s := Decimal(n);
      assert s[..|s| - 1] == Decimal(n / 10);
      DecimalValue(n / 10);
    }
  }

  /**
   * Parsing the decimal rendering of a number gives the number back when it
   * fits in 16 bits and fails otherwise; an explicit `+` sign changes
   * nothing and a `-` sign is always refused.
   */
  lemma ParseU16Decimal(n: nat)
    ensures ParseU16(Decimal(n)) == if n < 0x1_0000 then Some(n) else None
    ensures ParseU16("+" + Decimal(n)) == ParseU16(Decimal(n))
    ensures ParseU16("-" + Decimal(n)) == None
  {
    DecimalValue(n);
    assert ("+" + Decimal(n))[1..] == Decimal(n);
    assert !IsDigit(("-" + Decimal(n))[0]);
  }

  predicate IsPortFlag(t: string) {
    t == "-p" || t == "--port"
  }

  predicate IsPortAssign(t: string) {
    StartsWith(t, PortPrefix)
  }

  predicate IsHelp(t: string) {
    t == "-h" || t == "--help"
  }

  /** A token that the scan treats as an option of any kind. */
  predicate IsOption(t: string) {
    IsPortFlag(t) || IsPortAssign(t) || IsHelp(t)
  }

  /** The index the scan moves to after examining the token at `i`. */
  function Next(args: seq<string>, i: nat): nat
    requires i < |args|
  {
    if IsPortFlag(args[i]) && i + 1 < |args| then i + 2 else i + 1
  }

  /** The token at `k` assigns the port when the scan examines it. */
  predicate SetsPort(args: seq<string>, k: nat)
    requires k < |args|
  {
    IsPortAssign(args[k]) || (IsPortFlag(args[k]) && k + 1 < |args|)
  }

  /** The port that the token at `k` assigns. */
  function ValueAt(args: seq<string>, k: nat): U16
    requires k < |args| && SetsPort(args, k)
  {
    if IsPortFlag(args[k]) then PortValue(args[k + 1])
    else PortValue(TrimStartMatches(args[k], PortPrefix))
  }

  /**
   * The scan started at `i` examines the token at `k` as an option (rather
   * than consuming it as the value of a preceding `-p`/`--port`), ignoring
   * the early stop at a help option.
   */
  predicate Examines(args: seq<string>, i: nat, k: nat)
    ensures Examines(args, i, k) ==> i <= k < |args|
    decreases |args| - i
  {
    i < |args| && (k == i || Examines(args, Next(args, i), k))
  }

  /**
   * The scan from index `i` with the port so far `port`, one token at a
   * time, as the `while` loop of `parse_args` performs it.
   */
  function Scan(args: seq<string>, i: nat, port: U16): ArgsOutcome
    decreases |args| - i
  {
    if i >= |args| then Listen(port)
    else if IsPortFlag(args[i]) then
      if i + 1 < |args| then Scan(args, i + 2, PortValue(args[i + 1])) else Scan(args, i + 1, port)
    else if IsPortAssign(args[i]) then Scan(args, i + 1, PortValue(TrimStartMatches(args[i], PortPrefix)))
    else if IsHelp(args[i]) then ShowHelp
    else Scan(args, i + 1, port)
  }

  /** `parse_args`: the token loop, starting after the program name with port 0. */
  method ParseArgs(args: seq<string>) returns (outcome: ArgsOutcome)
    ensures outcome == Scan(args, 1, 0)
  {
    var port: U16 := 0;
    var i := 1;
    while i < |args|
      invariant Scan(args, i, port) == Scan(args, 1, 0)
      decreases |args| - i
    {
      var arg := args[i];
      if IsPortFlag(arg) {
        if i + 1 < |args| {
          port := PortValue(args[i + 1]);
          i := i + 1;
        }
      } else if IsPortAssign(arg) {
        port := PortValue(TrimStartMatches(arg, PortPrefix));
      } else if IsHelp(arg) {
        return ShowHelp;
      }
      i := i + 1;
    }
    return Listen(port);
  }

  /** The scan from `i` looks at nothing before `i`. */
  lemma {:induction false} ScanReadsOnlySuffix(a: seq<string>, b: seq<string>, i: nat, port: U16)
    requires i <= |a| && i <= |b| && a[i..] == b[i..]
    ensures Scan(a, i, port) == Scan(b, i, port)
    decreases |a| - i
  {
    assert |a| == |b|;
    if i < |a| {
      assert a[i] == a[i..][0] == b[i..][0] == b[i];
      if IsPortFlag(a[i]) && i + 1 < |a| {
        assert a[i + 1] == a[i..][1] == b[i..][1] == b[i + 1];
        if i + 2 <= |a| {
          assert a[i + 2..] == a[i..][2..] == b[i..][2..] == b[i + 2..];
          ScanReadsOnlySuffix(a, b, i + 2, PortValue(a[i + 1]));
        }
      } else {
        assert a[i + 1..] == a[i..][1..] == b[i..][1..] == b[i + 1..];
        ScanReadsOnlySuffix(a, b, i + 1, port);
        ScanReadsOnlySuffix(a, b, i + 1, PortValue(TrimStartMatches(a[i], PortPrefix)));
      }
    }
  }

  /** The program name `args[0]` never influences the outcome. */
  lemma ProgramNameIgnored(args: seq<string>, name: string)
    requires |args| >= 1
    ensures ParseArgsSpec(args) == ParseArgsSpec([name] + args[1..])
  {
    ScanReadsOnlySuffix(args, [name] + args[1..], 1, 0);
  }

  /** The outcome of `parse_args` on a whole command line. */
  function ParseArgsSpec(args: seq<string>): ArgsOutcome {
    Scan(args, 1, 0)
  }

  /**
   * The scan ends in the help exit exactly when one of the tokens it
   * examines as an option is `-h` or `--help`.
   */
  lemma {:induction false} HelpIffExamined(args: seq<string>, i: nat, port: U16)
    ensures Scan(args, i, port) == ShowHelp <==> exists k: nat :: Examines(args, i, k) && IsHelp(args[k])
    decreases |args| - i
  {
    if i < |args| {
      var n := Next(args, i);
      if IsHelp(args[i]) {
        assert Examines(args, i, i);
      } else {
        var p := if SetsPort(args, i) then ValueAt(args, i) else port;
        assert Scan(args, i, port) == Scan(args, n, p);
        HelpIffExamined(args, n, p);
        forall k: nat | Examines(args, i, k) && IsHelp(args[k]) ensures Examines(args, n, k) {
        }
        forall k: nat | Examines(args, n, k) ensures Examines(args, i, k) {
        }
      }
    }
  }

  /**
   * Port options are last-wins: when the scan ends with a port, it is the
   * one assigned by the last port option the scan examined, or the port it
   * started with when it examined none.
   */
  lemma {:induction false} ListenIsLastSetting(args: seq<string>, i: nat, port: U16)
    requires Scan(args, i, port).Listen?
    ensures var q := Scan(args, i, port).port;
      || (q == port && forall k: nat :: Examines(args, i, k) ==> !SetsPort(args, k))
      || (exists k: nat :: Examines(args, i, k) && SetsPort(args, k) && q == ValueAt(args, k) &&
            forall j: nat :: Examines(args, i, j) && k < j ==> !SetsPort(args, j))
    decreases |args| - i
  {
    if i < |args| {
      var n := Next(args, i);
      var p := if SetsPort(args, i) then ValueAt(args, i) else port;
      assert Scan(args, i, port) == Scan(args, n, p);
      var q := Scan(args, i, port).port;
      ListenIsLastSetting(args, n, p);
      forall k: nat | Examines(args, i, k) && k != i ensures Examines(args, n, k) {
      }
      if exists k: nat :: Examines(args, n, k) && SetsPort(args, k) && q == ValueAt(args, k) &&
            forall j: nat :: Examines(args, n, j) && k < j ==> !SetsPort(args, j) {
        var k: nat :| Examines(args, n, k) && SetsPort(args, k) && q == ValueAt(args, k) &&
            forall j: nat :: Examines(args, n, j) && k < j ==> !SetsPort(args, j);
        assert Examines(args, i, k);
      } else if SetsPort(args, i) {
        assert Examines(args, i, i);
      }
    }
  }

  /** A command line without any option listens on port 0. */
  lemma NoOptionListensOnZero(args: seq<string>)
    requires forall j :: 1 <= j < |args| ==> !IsOption(args[j])
    ensures ParseArgsSpec(args) == Listen(0)
  {
    HelpIffExamined(args, 1, 0);
    if Scan(args, 1, 0).Listen? {
      ListenIsLastSetting(args, 1, 0);
    }
  }

  /**
   * The token after `-p`/`--port` is always taken as its value and never
   * examined as an option, so `-p --help` listens on port 0; a `-p`/`--port`
   * with nothing after it leaves the port as it was.
   */
  lemma PortFlagConsumesValue(args: seq<string>, i: nat, port: U16)
    requires i < |args| && IsPortFlag(args[i])
    ensures i + 1 < |args| ==> !Examines(args, i, i + 1)
    ensures i + 1 < |args| ==> Scan(args, i, port) == Scan(args, i + 2, PortValue(args[i + 1]))
    ensures i + 1 == |args| ==> Scan(args, i, port) == Listen(port)
    ensures ParseArgsSpec(["pty-server", "-p", "--help"]) == Listen(0)
  {
    assert ParseU16("--help") == None by {
      assert !IsDigit("--help"[0]);
    }
  }

  /** Stripping copies of a pattern from copies of it followed by `v` leaves `v`. */
  lemma {:induction false} TrimRepeat(pat: string, k: nat, v: string)
    requires pat != [] && !StartsWith(v, pat)
    ensures TrimStartMatches(Repeat(pat, k) + v, pat) == v
  {
    if k == 0 {
      assert Repeat(pat, k) + v == v;
    } else {
      var t := Repeat(pat, k - 1) + v;
      assert Repeat(pat, k) + v == pat + t;
      PrefixParts(pat, t);
      TrimRepeat(pat, k - 1, v);
    }
  }

  /**
   * `--port=V` strips every leading `--port=` from the token before parsing
   * (so `--port=--port=8080` listens on 8080), and a value that does not
   * parse as a 16-bit port gives port 0.
   */
  lemma PortAssignStripsAllPrefixes(name: string, k: nat, v: string)
    requires !StartsWith(v, PortPrefix)
    ensures ParseArgsSpec([name, Repeat(PortPrefix, k + 1) + v]) == Listen(PortValue(v))
    ensures ParseU16(v).None? ==> PortValue(v) == 0
  {
    var t := Repeat(PortPrefix, k + 1) + v;
    TrimRepeat(PortPrefix, k + 1, v);
    assert t[..|PortPrefix|] == PortPrefix;
    assert IsPortAssign(t);
    assert !IsPortFlag(t) by {
      assert |t| >= 7;
    }
    var args := [name, t];
    assert args[1] == t;
    assert Scan(args, 1, 0) == Scan(args, 2, PortValue(TrimStartMatches(t, PortPrefix)));
  }



}
