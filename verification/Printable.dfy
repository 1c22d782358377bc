/** `get_printable_string` of tests/library/string_utils.c: a bounded encoder of bytes as printable text. */
module Printable {
  import opened Basics

  type Byte = c: char | c as int < 256 witness '\0'

  /** `isprint` in the C locale. */
  predicate IsPrint(c: char) { 32 <= c as int < 127 }

  function Hex(d: int): char
    requires 0 <= d < 16
  {
    if d < 10 then ('0' as int + d) as char else ('a' as int + (d - 10)) as char
  }

  /** The printable form of one byte. */
  function Glyph(c: Byte): (g: seq<Byte>)
    ensures 1 <= |g| <= 6 && forall k :: 0 <= k < |g| ==> IsPrint(g[k])
  {
    if IsPrint(c) then [c]
    else if c == NUL then "{NUL}"
    else if c == '\r' then "{CR}"
    else if c == '\n' then "{LF}"
    else if c == ESC then "{ESC}"
    else "{0x" + [Hex(c as int / 16), Hex(c as int % 16), '}']
  }

  /** The forms one by one. */
  lemma GlyphTable(c: Byte)
    ensures 32 <= c as int <= 126 ==> Glyph(c) == [c]
    ensures Glyph('\0') == "{NUL}" && Glyph('\r') == "{CR}" && Glyph('\n') == "{LF}" && Glyph(27 as char) == "{ESC}"
    ensures !(32 <= c as int <= 126) && c as int !in {0, 10, 13, 27} ==>
      var digits := "0123456789abcdef";
      Glyph(c) == "{0x" + [digits[c as int / 16], digits[c as int % 16], '}']
  {
    HexDigits(c as int / 16);
    HexDigits(c as int % 16);
  }

  lemma HexDigits(d: int)
    requires 0 <= d < 16
    ensures Hex(d) == "0123456789abcdef"[d]
  {
  }

  function Encoded(bytes: seq<Byte>): (s: seq<Byte>)
    ensures forall k :: 0 <= k < |s| ==> IsPrint(s[k])
  {
    if bytes == [] then "" else Encoded(bytes[..|bytes| - 1]) + Glyph(bytes[|bytes| - 1])
  }

  function Hashes(n: nat): (s: string)
    ensures |s| == n && forall k :: 0 <= k < n ==> s[k] == '#'
  {
    seq(n, _ => '#')
  }

  lemma {:induction false} EncodedLength(bytes: seq<Byte>)
    ensures |bytes| <= |Encoded(bytes)| <= 6 * |bytes|
  {
    if bytes != [] {
      EncodedLength(bytes[..|bytes| - 1]);
    }
  }

  lemma {:induction false} EncodedGrows(bytes: seq<Byte>, n: nat)
    requires n <= |bytes|
    ensures |Encoded(bytes[..n])| <= |Encoded(bytes)|
    ensures Encoded(bytes)[..|Encoded(bytes[..n])|] == Encoded(bytes[..n])
  {
    if n == |bytes| {
      assert bytes[..n] == bytes;
    } else {
      var init := bytes[..|bytes| - 1];
      EncodedGrows(init, n);
      assert init[..n] == bytes[..n];
    }
  }

  /** The encoder, writing into the caller's buffer. It gives the whole encoding when that fits with its NUL,
      and otherwise the longest run of whole forms that fits, padded with `#` to the end. No write leaves the
      buffer, and the result is always a NUL-terminated printable text. The precondition is what keeps the
      unsigned `size - k` of the source from wrapping; any size of at least 6 meets it. */
  method GetPrintable(bytes: seq<Byte>, printable: array<char>)
    requires printable.Length >= 1 && forall b :: b in bytes ==> |Glyph(b)| <= printable.Length
    modifies printable
    ensures NUL in printable[..]
    ensures forall k :: 0 <= k < |CStr(printable[..])| ==> IsPrint(CStr(printable[..])[k])
    ensures |Encoded(bytes)| < printable.Length ==> CStr(printable[..]) == Encoded(bytes)
    ensures |Encoded(bytes)| >= printable.Length ==>
      exists n: nat :: n < |bytes|
        && |Encoded(bytes[..n])| < printable.Length <= |Encoded(bytes[..n + 1])|
        && CStr(printable[..]) == Encoded(bytes[..n]) + Hashes(printable.Length - 1 - |Encoded(bytes[..n])|)
  {
    hide Glyph, CStr;
    var at := 0;
    for i := 0 to |bytes|
      invariant 0 <= at < printable.Length
      invariant printable[..at] == Encoded(bytes[..i])
    {
      var g := Glyph(bytes[i]);
      assert bytes[..i + 1][..i] == bytes[..i];
      if at < printable.Length - |g| {
        at := WriteGlyph(printable, at, g);
      } else {
        EncodedGrows(bytes, i + 1);
        FillWithHashes(printable, at);
        return;
      }
    }
    printable[at] := NUL;
    assert bytes[..|bytes|] == bytes;
    assert NUL !in printable[..at];
    CStrIs(printable[..], at);
  }

  method WriteGlyph(printable: array<char>, at: nat, g: string) returns (next: nat)
    requires at + |g| < printable.Length
    modifies printable
    ensures next == at + |g|
    ensures printable[..next] == old(printable[..at]) + g
  {
    for k := 0 to |g|
      invariant printable[..at + k] == old(printable[..at]) + g[..k]
    {
      printable[at + k] := g[k];
    }
    next := at + |g|;
  }

  /** The `L_NO_SPACE` exit. */
  method FillWithHashes(printable: array<char>, at: nat)
    requires at < printable.Length
    requires NUL !in printable[..at]
    modifies printable
    ensures NUL in printable[..]
    ensures CStr(printable[..]) == old(printable[..at]) + Hashes(printable.Length - 1 - at)
  {
    var last := printable.Length - 1;
    for k := at to last
      invariant printable[..k] == old(printable[..at]) + Hashes(k - at)
    {
      printable[k] := '#';
    }
    printable[last] := NUL;
    assert printable[..][last] == NUL;
    assert printable[..last] == old(printable[..at]) + Hashes(last - at);
    CStrIs(printable[..], last);
  }

  /** The buffer size that PRINTABLE_BUFFER_SIZE asks for is enough: the `#` exit is never taken. */
  lemma EnoughRoom(bytes: seq<Byte>, size: nat)
    requires size >= 6 * |bytes| + 1
    ensures |Encoded(bytes)| < size
  {
    EncodedLength(bytes);
  }

  // ---------- decoding ----------

  /** A byte that is written as a form in braces. */
  predicate Special(c: Byte) { !IsPrint(c) }

  function Unhex(c: char): int {
    if '0' <= c <= '9' then c as int - '0' as int else if 'a' <= c <= 'f' then c as int - 'a' as int + 10 else -1
  }

  /** The only byte whose form a text can start with. */
  function Candidate(s: seq<Byte>): Byte {
    if |s| < 5 then if "{CR}" <= s then '\r' else '\n'
    else if s[1] == 'N' then NUL
    else if s[1] == 'C' then '\r'
    else if s[1] == 'L' then '\n'
    else if s[1] == 'E' then ESC
    else if Unhex(s[3]) >= 0 && Unhex(s[4]) >= 0 then (16 * Unhex(s[3]) + Unhex(s[4])) as char
    else ' '
  }

  /** The byte whose form stands at the front of a text. */
  function FormOf(s: seq<Byte>): (r: Option<Byte>)
    ensures r.Some? ==> Special(r.value) && Glyph(r.value) <= s && s[0] == '{'
  {
    var c := Candidate(s);
    if Special(c) && Glyph(c) <= s then Some(c) else None
  }

  lemma CandidateIsIt(s: seq<Byte>, c: Byte)
    requires Special(c) && |Glyph(c)| <= |s| && forall k :: 0 <= k < |Glyph(c)| ==> s[k] == Glyph(c)[k]
    ensures Candidate(s) == c
  {
    var g := Glyph(c);
    assert s[1] == g[1];
    if c == NUL {
    } else if c == '\r' {
      assert s[..4] == "{CR}" == g;
    } else if c == '\n' {
      assert "{CR}"[1] != s[1];
    } else if c == ESC {
    } else {
      HexIsRead(c as int / 16);
      HexIsRead(c as int % 16);
      assert s[3] == g[3] == Hex(c as int / 16) && s[4] == g[4] == Hex(c as int % 16);
    }
  }

  lemma HexIsRead(d: int)
    requires 0 <= d < 16
    ensures Unhex(Hex(d)) == d
  {
  }

  lemma FormIsFound(s: seq<Byte>, c: Byte)
    requires Special(c) && Glyph(c) <= s
    ensures FormOf(s) == Some(c)
  {
    hide Glyph, Candidate;
    CandidateIsIt(s, c);
  }

  /** Reads forms wherever they stand, and everything else as it is. */
  function Decode(s: seq<Byte>): seq<Byte> {
    if s == [] then []
    else
      var f := FormOf(s);
      if f.Some? then [f.value] + Decode(s[|Glyph(f.value)|..]) else [s[0]] + Decode(s[1..])
  }

  function EncodedFromFront(bytes: seq<Byte>): seq<Byte> {
    if bytes == [] then [] else Glyph(bytes[0]) + EncodedFromFront(bytes[1..])
  }

  lemma {:induction false} EncodedBothWays(bytes: seq<Byte>, last: Byte)
    ensures EncodedFromFront(bytes + [last]) == EncodedFromFront(bytes) + Glyph(last)
  {
    if bytes == [] {
      assert bytes + [last] == [last] && [last][1..] == [];
    } else {
      assert (bytes + [last])[1..] == bytes[1..] + [last];
      EncodedBothWays(bytes[1..], last);
    }
  }

  lemma {:induction false} EncodedIsFromFront(bytes: seq<Byte>)
    ensures Encoded(bytes) == EncodedFromFront(bytes)
  {
    if bytes != [] {
      EncodedIsFromFront(bytes[..|bytes| - 1]);
      EncodedBothWays(bytes[..|bytes| - 1], bytes[|bytes| - 1]);
      assert bytes == bytes[..|bytes| - 1] + [bytes[|bytes| - 1]];
    }
  }

  lemma {:induction false} EncodedInParts(a: seq<Byte>, b: seq<Byte>)
    ensures EncodedFromFront(a + b) == EncodedFromFront(a) + EncodedFromFront(b)
  {
    if a == [] {
      assert a + b == b;
    } else {
      assert (a + b)[1..] == a[1..] + b;
      EncodedInParts(a[1..], b);
    }
  }

  predicate AllPrint(s: seq<Byte>) { forall k :: 0 <= k < |s| ==> IsPrint(s[k]) }

  lemma {:induction false} PrintableIsItself(s: seq<Byte>)
    requires AllPrint(s)
    ensures EncodedFromFront(s) == s
  {
    if s != [] {
      PrintableIsItself(s[1..]);
    }
  }

  // ---------- which inputs come back ----------

  /** A whole form stands somewhere among the bytes, written out character by character. */
  ghost predicate ContainsForm(bytes: seq<Byte>) {
    exists before: seq<Byte>, form: seq<Byte>, after: seq<Byte> :: IsForm(form) && bytes == before + form + after
  }

  predicate IsForm(g: seq<Byte>) { FormOf(g).Some? && g == Glyph(FormOf(g).value) }

  /** The same, from the front. */
  predicate HasForm(bytes: seq<Byte>) { bytes != [] && (FormOf(bytes).Some? || HasForm(bytes[1..])) }

  lemma {:induction false} HasFormContains(bytes: seq<Byte>) returns (before: seq<Byte>, g: seq<Byte>, after: seq<Byte>)
    requires HasForm(bytes)
    ensures IsForm(g) && bytes == before + g + after
  {
    if FormOf(bytes).Some? {
      g := Glyph(FormOf(bytes).value);
      FormIsFound(g, FormOf(bytes).value);
      before, after := [], bytes[|g|..];
    } else {
      before, g, after := HasFormContains(bytes[1..]);
      before := [bytes[0]] + before;
    }
  }

  lemma {:induction false} ContainsHasForm(before: seq<Byte>, g: seq<Byte>, after: seq<Byte>)
    requires IsForm(g)
    ensures HasForm(before + g + after)
    decreases |before|
  {
    var b := before + g + after;
    if before == [] {
      assert b == g + after;
      FormIsFound(b, FormOf(g).value);
    } else {
      assert b[1..] == before[1..] + g + after;
      ContainsHasForm(before[1..], g, after);
    }
  }

  lemma FormEitherWay(bytes: seq<Byte>)
    ensures ContainsForm(bytes) <==> HasForm(bytes)
  {
    if HasForm(bytes) {
      var before, g, after := HasFormContains(bytes);
    }
    if ContainsForm(bytes) {
      var before, g, after :| IsForm(g) && bytes == before + g + after;
      ContainsHasForm(before, g, after);
    }
  }

  /** Printable characters that were decoded stood there as such. */
  lemma {:induction false} DecodedLiterally(g: seq<Byte>, s: seq<Byte>)
    requires AllPrint(g) && g <= Decode(s)
    ensures g <= s
  {
    if g != [] {
      assert Decode(s)[0] == g[0];
      assert Decode(s)[1..] == Decode(s[1..]);
      assert g[1..] <= Decode(s)[1..];
      DecodedLiterally(g[1..], s[1..]);
      assert s == [s[0]] + s[1..] && g == [g[0]] + g[1..];
    }
  }

  /** Decoding leaves no form behind. */
  lemma {:induction false} DecodedHasNoForm(s: seq<Byte>)
    ensures !HasForm(Decode(s))
  {
    if s != [] {
      var d := Decode(s);
      if FormOf(s).Some? {
        DecodedHasNoForm(s[|Glyph(FormOf(s).value)|..]);
        assert d[1..] == Decode(s[|Glyph(FormOf(s).value)|..]);
      } else {
        DecodedHasNoForm(s[1..]);
        assert d[1..] == Decode(s[1..]);
        if FormOf(d).Some? {
          DecodedLiterally(Glyph(FormOf(d).value), s);
          FormIsFound(s, FormOf(d).value);
        }
      }
    }
  }

  /** Characters other than `{` that were encoded stood there as such. */
  lemma {:induction false} EncodedLiterally(g: seq<Byte>, bytes: seq<Byte>)
    requires '{' !in g && g <= EncodedFromFront(bytes)
    ensures g <= bytes
  {
    if g != [] {
      var e := EncodedFromFront(bytes);
      assert e[0] == g[0] && e[0] == Glyph(bytes[0])[0];
      assert e[1..] == EncodedFromFront(bytes[1..]);
      assert g[1..] <= e[1..];
      EncodedLiterally(g[1..], bytes[1..]);
      assert bytes == [bytes[0]] + bytes[1..] && g == [g[0]] + g[1..];
    }
  }

  lemma FormShape(c: Byte)
    requires Special(c)
    ensures |Glyph(c)| >= 4 && Glyph(c)[0] == '{' && '{' !in Glyph(c)[1..]
  {
  }

  lemma PrefixTails(g: seq<Byte>, s: seq<Byte>)
    requires g != [] && s != [] && g[0] == s[0]
    ensures g <= s <==> g[1..] <= s[1..]
  {
    assert g == [g[0]] + g[1..] && s == [s[0]] + s[1..];
  }

  lemma NoFormArises(bytes: seq<Byte>)
    requires bytes != [] && IsPrint(bytes[0]) && FormOf(bytes).None?
    ensures FormOf(EncodedFromFront(bytes)).None?
  {
    var e, rest := EncodedFromFront(bytes), EncodedFromFront(bytes[1..]);
    assert e == [bytes[0]] + rest && e[1..] == rest;
    if FormOf(e).Some? {
      var c := FormOf(e).value;
      hide Glyph, FormOf, EncodedFromFront, Special;
      FormShape(c);
      PrefixTails(Glyph(c), e);
      EncodedLiterally(Glyph(c)[1..], bytes[1..]);
      PrefixTails(Glyph(c), bytes);
      FormIsFound(bytes, c);
    }
  }

  lemma {:induction false} ComesBack(bytes: seq<Byte>)
    requires !HasForm(bytes)
    ensures Decode(EncodedFromFront(bytes)) == bytes
  {
    if bytes != [] {
      var e, rest := EncodedFromFront(bytes), EncodedFromFront(bytes[1..]);
      ComesBack(bytes[1..]);
      assert e[|Glyph(bytes[0])|..] == rest;
      if IsPrint(bytes[0]) {
        NoFormArises(bytes);
      } else {
        FormIsFound(e, bytes[0]);
      }
    }
  }

  /** An input comes back from its encoding exactly if no form is written out in it. */
  lemma DecodeEncodedExactly(bytes: seq<Byte>)
    ensures Decode(Encoded(bytes)) == bytes <==> !ContainsForm(bytes)
  {
    EncodedIsFromFront(bytes);
    FormEitherWay(bytes);
    DecodedHasNoForm(Encoded(bytes));
    if !HasForm(bytes) {
      ComesBack(bytes);
    }
  }

  lemma FormHasBrace(bytes: seq<Byte>)
    ensures ContainsForm(bytes) ==> '{' in bytes
  {
    hide FormOf, Glyph;
    forall before: seq<Byte>, g: seq<Byte>, after: seq<Byte> | IsForm(g) && bytes == before + g + after
      ensures '{' in bytes
    {
      FormShape(FormOf(g).value);
      assert bytes[|before|] == g[0];
    }
  }

  /** So bytes without `{` always come back. */
  lemma DecodeEncoded(bytes: seq<Byte>)
    requires '{' !in bytes
    ensures Decode(Encoded(bytes)) == bytes
  {
    DecodeEncodedExactly(bytes);
    FormHasBrace(bytes);
  }

  /** Every printable text is an encoding: of what it decodes to. */
  lemma EncodeDecoded(s: seq<Byte>)
    requires AllPrint(s)
    ensures Encoded(Decode(s)) == s
  {
    EncodedIsFromFront(Decode(s));
    DecodedFromFront(s);
  }

  lemma {:induction false} DecodedFromFront(s: seq<Byte>)
    requires AllPrint(s)
    ensures EncodedFromFront(Decode(s)) == s
  {
    hide FormOf, Glyph;
    if s != [] {
      var f := FormOf(s);
      var n := if f.Some? then |Glyph(f.value)| else 1;
      DecodedFromFront(s[n..]);
      GlyphOfPrint(s[0]);
      assert Decode(s)[1..] == Decode(s[n..]);
      assert s == s[..n] + s[n..];
    }
  }

  lemma GlyphOfPrint(c: Byte)
    ensures IsPrint(c) ==> Glyph(c) == [c]
  {
  }

  lemma OneEncoded(c: Byte)
    ensures EncodedFromFront([c]) == Glyph(c)
  {
    assert [c][1..] == [];
  }

  /** Writing a form out character by character instead of its byte does not change the encoding. */
  lemma WrittenOut(before: seq<Byte>, c: Byte, after: seq<Byte>)
    ensures Encoded(before + Glyph(c) + after) == Encoded(before + [c] + after)
  {
    hide Glyph, Encoded, EncodedFromFront;
    EncodedIsFromFront(before + Glyph(c) + after);
    EncodedIsFromFront(before + [c] + after);
    EncodedInParts(before + Glyph(c), after);
    EncodedInParts(before, Glyph(c));
    EncodedInParts(before + [c], after);
    EncodedInParts(before, [c]);
    PrintableIsItself(Glyph(c));
    OneEncoded(c);
  }

  predicate HasSpecial(bytes: seq<Byte>) { exists k :: 0 <= k < |bytes| && Special(bytes[k]) }

  lemma SplitAt(s: seq<Byte>, k: nat)
    requires k < |s|
    ensures s == s[..k] + [s[k]] + s[k + 1..]
  {
  }

  lemma SpecialBetween(before: seq<Byte>, c: Byte, after: seq<Byte>)
    ensures EncodedFromFront(before + [c] + after) == EncodedFromFront(before) + Glyph(c) + EncodedFromFront(after)
  {
    hide *;
    EncodedInParts(before + [c], after);
    EncodedInParts(before, [c]);
    OneEncoded(c);
  }

  lemma AloneIfPlain(bytes: seq<Byte>, other: seq<Byte>)
    requires !HasSpecial(bytes) && !ContainsForm(bytes) && Encoded(other) == Encoded(bytes)
    ensures other == bytes
  {
    hide Glyph, Encoded, EncodedFromFront, FormOf;
    EncodedIsFromFront(bytes);
    EncodedIsFromFront(other);
    assert AllPrint(bytes);
    PrintableIsItself(bytes);
    forall k: nat | k < |other| ensures IsPrint(other[k]) {
      var before, after := other[..k], other[k + 1..];
      SplitAt(other, k);
      SpecialBetween(before, other[k], after);
      if Special(other[k]) {
        FormItself(other[k]);
      }
    }
    assert AllPrint(other);
    PrintableIsItself(other);
  }

  lemma FormItself(c: Byte)
    requires Special(c)
    ensures IsForm(Glyph(c))
  {
    FormIsFound(Glyph(c), c);
  }

  /** An encoding is ambiguous, shared by another input, exactly if the input has a byte that is not printable or a
      form written out. */
  lemma AmbiguousExactly(bytes: seq<Byte>)
    ensures (exists other: seq<Byte> :: other != bytes && Encoded(other) == Encoded(bytes))
      <==> HasSpecial(bytes) || ContainsForm(bytes)
  {
    hide Glyph, Encoded, FormOf;
    if ContainsForm(bytes) {
      var before, g, after :| IsForm(g) && bytes == before + g + after;
      var c := FormOf(g).value;
      WrittenOut(before, c, after);
      FormShape(c);
      assert |before + [c] + after| < |bytes|;
    } else if HasSpecial(bytes) {
      var k :| 0 <= k < |bytes| && Special(bytes[k]);
      var other := bytes[..k] + Glyph(bytes[k]) + bytes[k + 1..];
      WrittenOut(bytes[..k], bytes[k], bytes[k + 1..]);
      FormShape(bytes[k]);
      SplitAt(bytes, k);
      assert |other| > |bytes|;
    } else {
      forall other: seq<Byte> | Encoded(other) == Encoded(bytes) ensures other == bytes {
        AloneIfPlain(bytes, other);
      }
    }
  }
}
