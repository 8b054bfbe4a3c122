/**
 * Primitive types and text helpers shared by the model of the shell
 * server: bytes, the `u16` integer width, prefix and substring tests,
 * and the UTF-8 encoding a Rust `&str` hands out through `as_bytes()`.
 */
module Common {

  /** An octet, as carried by binary WebSocket frames and PTY streams. */
  type Byte = x: int | 0 <= x < 0x100

  /** Rust's `u16`. */
  type U16 = x: int | 0 <= x < 0x1_0000

  predicate StartsWith(s: string, prefix: string) {
    |prefix| <= |s| && s[..|prefix|] == prefix
  }

  /** `needle` occurs in `s` starting at index `i`. */
  predicate OccursAt(s: string, needle: string, i: int) {
    0 <= i <= |s| - |needle| && s[i..i + |needle|] == needle
  }

  /** `s.contains(needle)` for a string needle. */
  predicate Contains(s: string, needle: string) {
    exists i | 0 <= i <= |s| :: OccursAt(s, needle, i)
  }

  /** Rust's `char::is_whitespace`: the Unicode White_Space property. */
  predicate IsWhitespace(c: char) {
    || ('\U{0009}' <= c <= '\U{000D}')
    || c == ' ' || c == '\U{0085}' || c == '\U{00A0}' || c == '\U{1680}'
    || ('\U{2000}' <= c <= '\U{200A}')
    || c == '\U{2028}' || c == '\U{2029}' || c == '\U{202F}' || c == '\U{205F}'
    || c == '\U{3000}'
  }

  /** `str::trim_start`: drop leading whitespace. */
  function TrimStart(s: string): (r: string)
    ensures |r| <= |s|
    ensures r == s[|s| - |r|..]
    ensures r == [] || !IsWhitespace(r[0])
    ensures forall i :: 0 <= i < |s| - |r| ==> IsWhitespace(s[i])
  {
    if s != [] && IsWhitespace(s[0]) then TrimStart(s[1..]) else s
  }

  /** `str::trim_end`: drop trailing whitespace. */
  function TrimEnd(s: string): (r: string)
    ensures |r| <= |s|
    ensures r == s[..|r|]
    ensures r == [] || !IsWhitespace(r[|r| - 1])
    ensures forall i :: |r| <= i < |s| ==> IsWhitespace(s[i])
  {
    if s != [] && IsWhitespace(s[|s| - 1]) then TrimEnd(s[..|s| - 1]) else s
  }

  /** `str::trim`: drop whitespace at both ends. */
  function Trim(s: string): (r: string)
    ensures |r| <= |s| && OccursAt(s, r, |s| - |TrimStart(s)|)
    ensures r == [] || (!IsWhitespace(r[0]) && !IsWhitespace(r[|r| - 1]))
    ensures s == [] || (!IsWhitespace(s[0]) && !IsWhitespace(s[|s| - 1])) ==> r == s
    ensures forall i :: 0 <= i < |s| && (i < |s| - |TrimStart(s)| || |s| - |TrimStart(s)| + |r| <= i) ==> IsWhitespace(s[i])
  {
    TrimCutsWhitespace(s);
    TrimEnd(TrimStart(s))
  }

  /** Everything `Trim` cuts, at either end, is whitespace. */
  lemma TrimCutsWhitespace(s: string)
    ensures var a := |s| - |TrimStart(s)|;
            forall i :: 0 <= i < |s| && (i < a || a + |TrimEnd(TrimStart(s))| <= i) ==> IsWhitespace(s[i])
  {
    var t := TrimStart(s);
    var a := |s| - |t|;
    var r := TrimEnd(t);
    forall i | a + |r| <= i < |s|
      ensures IsWhitespace(s[i])
    {
      assert s[i] == t[i - a];
    }
  }

  /** The UTF-8 encoding of one Unicode scalar value. */
  function EncodeChar(c: char): (r: seq<Byte>)
    ensures 1 <= |r| <= 4
    ensures (c as int < 0x80) <==> r == [c as int]
  {
    var n := c as int;
    if n < 0x80 then [n]
    else if n < 0x800 then [0xC0 + n / 0x40, 0x80 + n % 0x40]
    else if n < 0x1_0000 then [0xE0 + n / 0x1000, 0x80 + (n / 0x40) % 0x40, 0x80 + n % 0x40]
    else [0xF0 + n / 0x4_0000, 0x80 + (n / 0x1000) % 0x40, 0x80 + (n / 0x40) % 0x40, 0x80 + n % 0x40]
  }

  predicate IsAscii(s: string) {
    forall i :: 0 <= i < |s| ==> s[i] as int < 0x80
  }

  /**
   * `str::as_bytes`: the UTF-8 encoding of a string, character by
   * character. An ASCII string encodes to its own character codes.
   */
  function Utf8(s: string): (r: seq<Byte>)
    ensures |s| <= |r| <= 4 * |s|
    ensures IsAscii(s) ==> |r| == |s| && forall i :: 0 <= i < |s| ==> r[i] == s[i] as int
  {
    if s == [] then [] else EncodeChar(s[0]) + Utf8(s[1..])
  }

  /** Encoding a concatenation encodes the parts one after the other. */
  lemma {:induction false} Utf8Append(a: string, b: string)
    ensures Utf8(a + b) == Utf8(a) + Utf8(b)
  {
    if a == [] {
      assert a + b == b;
    } else {
      assert (a + b)[0] == a[0];
      assert (a + b)[1..] == a[1..] + b;
      Utf8Append(a[1..], b);
    }
  }

  /** The encoding of a text that starts and ends with ASCII characters starts and ends with their codes. */
  lemma Utf8Ends(s: string)
    requires s != [] && s[0] as int < 0x80 && s[|s| - 1] as int < 0x80
    ensures Utf8(s) != [] && Utf8(s)[0] == s[0] as int && Utf8(s)[|Utf8(s)| - 1] == s[|s| - 1] as int
  {
    var init := s[..|s| - 1];
    var last := s[|s| - 1];
    assert s == init + [last];
    Utf8Append(init, [last]);
    assert Utf8([last]) == [last as int];
  }

  /** `k` copies of `pat` one after the other. */
  function Repeat(pat: string, k: nat): string {
    if k == 0 then [] else pat + Repeat(pat, k - 1)
  }

  /** A string starts with `p` when it is `p` followed by something, and the rest is what follows. */
  lemma PrefixParts(p: string, rest: string)
    ensures StartsWith(p + rest, p) && (p + rest)[|p|..] == rest
  {
    assert (p + rest)[..|p|] == p;
  }

  /**
   * `str::trim_start_matches(pat)` for a non-empty string pattern: strip
   * leading copies of `pat` until what is left does not start with it.
   */
  function TrimStartMatches(s: string, pat: string): (r: string)
    requires pat != []
    ensures |r| <= |s|
    ensures !StartsWith(r, pat)
    decreases |s|
  {
    if StartsWith(s, pat) then TrimStartMatches(s[|pat|..], pat) else s
  }

  /** How many copies of `pat` `TrimStartMatches` strips from `s`. */
  function CopiesStripped(s: string, pat: string): nat
    requires pat != []
    decreases |s|
  {
    if StartsWith(s, pat) then 1 + CopiesStripped(s[|pat|..], pat) else 0
  }

  /** What `TrimStartMatches` removes is a whole number of copies of the pattern. */
  lemma {:induction false} TrimStartMatchesStripsCopies(s: string, pat: string)
    requires pat != []
    ensures s == Repeat(pat, CopiesStripped(s, pat)) + TrimStartMatches(s, pat)
    decreases |s|
  {
    if StartsWith(s, pat) {
      var rest := s[|pat|..];
      var k := CopiesStripped(rest, pat);
      var r := TrimStartMatches(rest, pat);
      TrimStartMatchesStripsCopies(rest, pat);
      assert rest == Repeat(pat, k) + r;
      assert CopiesStripped(s, pat) == k + 1 && TrimStartMatches(s, pat) == r;
      assert Repeat(pat, k + 1) == pat + Repeat(pat, k);
      assert s == s[..|pat|] + rest && s[..|pat|] == pat;
      assert pat + (Repeat(pat, k) + r) == (pat + Repeat(pat, k)) + r;
    } else {
      assert Repeat(pat, 0) + s == s;
    }
  }
}
