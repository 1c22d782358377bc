/** Shared vocabulary: optional values, C strings, and the limits that libcw publishes. */
module Basics {

  datatype Option<+T> = None | Some(value: T)

  const NUL: char := '\0'
  const ESC: char := 27 as char
  const CRLF: string := "\r\n"

  // ---------- C strings ----------

  /** The C string held in a buffer: everything before the first NUL. */
  function CStr(b: seq<char>): (s: string)
    ensures |s| <= |b| && s == b[..|s|]
    ensures NUL !in s
    ensures |s| < |b| ==> b[|s|] == NUL
  {
    if b == [] || b[0] == NUL then [] else [b[0]] + CStr(b[1..])
  }

  /** The first NUL decides what a buffer holds. */
  lemma CStrIs(b: seq<char>, n: nat)
    requires n < |b| && b[n] == NUL && NUL !in b[..n]
    ensures CStr(b) == b[..n]
  {
    var s := CStr(b);
    assert forall k :: 0 <= k < n ==> b[k] == b[..n][k];
    assert forall k :: 0 <= k < |s| ==> b[k] == s[k];
  }

  /** Overwriting a character inside the string. */
  lemma CStrRewritten(b: seq<char>, at: nat, c: char)
    requires at < |CStr(b)| < |b| && c != NUL
    ensures CStr(b[at := c]) == CStr(b)[at := c]
  {
    var n := |CStr(b)|;
    assert b[at := c][..n] == b[..n][at := c];
    CStrIs(b[at := c], n);
  }

  /** Writing a NUL inside the string. */
  lemma CStrCut(b: seq<char>, at: nat)
    requires at <= |CStr(b)| < |b|
    ensures CStr(b[at := NUL]) == CStr(b)[..at]
  {
    assert b[at := NUL][..at] == CStr(b)[..at];
    assert NUL !in CStr(b)[..at];
    CStrIs(b[at := NUL], at);
  }

  /** A text without NUL is its own C string. */
  lemma CStrOfText(s: string)
    requires NUL !in s
    ensures CStr(s) == s
  {
    var t := CStr(s);
    assert |t| == |s|;
  }

  /** `snprintf(s + strlen(s), cap - strlen(s), "%s", t)` seen as text: at most `cap` characters stay. */
  function BoundedAppend(s: string, t: string, cap: nat): (r: string)
    ensures |s| + |t| <= cap ==> r == s + t
    ensures |s| <= cap ==> |r| <= cap
  {
    if |s| + |t| <= cap then s + t else if |s| <= cap then (s + t)[..cap] else s
  }

  // ---------- libcw limits ----------

  datatype LibcwLimits = LibcwLimits(speedMin: int, speedMax: int, volumeMin: int, volumeMax: int, frequencyMax: int)

  /** What cwdaemon relies on: its own defaults lie in range, and a speed leaves room for a request full of
      `+` in a C int. CW_FREQUENCY_MIN is 0 (the source asserts it). */
  ghost predicate UsableLimits(l: LibcwLimits) {
    && 0 < l.speedMin <= 24 <= l.speedMax <= 0x4000_0000
    && 0 <= l.volumeMin <= 70 <= l.volumeMax <= 0x4000_0000
    && 800 <= l.frequencyMax <= 0x4000_0000
  }

  type Limits = l: LibcwLimits | UsableLimits(l) witness LibcwLimits(4, 60, 0, 100, 4000)

  /** The `CW_*_MIN` and `CW_*_MAX` constants of libcw, of which only `UsableLimits` is known. */
  const CW: Limits

  /** Clamping gives the nearest value in range. */
  lemma ClampIsNearest(lo: int, hi: int, v: int, x: int)
    requires lo <= x <= hi
    ensures var c := Clamp(lo, hi, v);
      lo <= c <= hi && (if c < v then v - c else c - v) <= (if x < v then v - x else x - v)
  {
  }

  function Clamp(lo: int, hi: int, v: int): int {
    if v < lo then lo else if v > hi then hi else v
  }
}
