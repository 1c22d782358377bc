/** The `-o` options of the tty driver: src/utils.c (find_opt_value) and src/ttys.c (ttys_optparse,
    ttys_optvalidate). */
module DriverOptions {
  import opened Basics
  import opened Decimal

  /** A modem line that can serve as a pin. */
  datatype Line = Dtr | Rts

  /** Which line keys and which one drives PTT; `None` is "opted out". */
  datatype Pins = Pins(key: Option<Line>, ptt: Option<Line>)

  const DEFAULT_PINS := Pins(Some(Dtr), Some(Rts))

  function LowerChar(c: char): char {
    if 'A' <= c <= 'Z' then (c as int + 32) as char else c
  }

  function Lower(s: string): string {
    seq(|s|, k requires 0 <= k < |s| => LowerChar(s[k]))
  }

  /** Reference: the same letters, whatever their case. */
  predicate SameLetters(a: string, b: string) {
    |a| == |b| && forall k :: 0 <= k < |a| ==> SameLetter(a[k], b[k])
  }

  predicate SameLetter(a: char, b: char) {
    || a == b
    || ('A' <= a <= 'Z' && b as int == a as int + ('a' as int - 'A' as int))
    || ('A' <= b <= 'Z' && a as int == b as int + ('a' as int - 'A' as int))
  }

  lemma LowerIsCaseless(a: string, b: string)
    ensures Lower(a) == Lower(b) <==> SameLetters(a, b)
  {
    if Lower(a) == Lower(b) {
      assert |Lower(a)| == |a| && |Lower(b)| == |b|;
      forall k | 0 <= k < |a| ensures SameLetter(a[k], b[k]) {
        assert Lower(a)[k] == LowerChar(a[k]) && Lower(b)[k] == LowerChar(b[k]);
      }
    }
  }

  function FirstEqual(s: string): (e: nat)
    ensures e <= |s| && '=' !in s[..e] && (e < |s| ==> s[e] == '=')
  {
    if s == "" || s[0] == '=' then 0 else 1 + FirstEqual(s[1..])
  }

  datatype Found = Success(value: string) | KeyNotFound | EqualNotFound | ExtraSpaces

  /** `find_opt_value` */
  function FindOptValue(input: string, keyword: string): Found {
    var e := FirstEqual(input);
    if e == |input| then EqualNotFound
    else if e == 0 then KeyNotFound
    else if IsSpace(input[e - 1]) || (e + 1 < |input| && IsSpace(input[e + 1])) then ExtraSpaces
    else if e != |keyword| then KeyNotFound
    else if Lower(input[..e]) != Lower(keyword) then KeyNotFound
    else Success(input[e + 1..])
  }

  lemma FirstEqualIs(s: string, e: nat)
    requires e < |s| && s[e] == '=' && '=' !in s[..e]
    ensures FirstEqual(s) == e
  {
    var f := FirstEqual(s);
    assert forall k :: 0 <= k < e ==> s[k] == s[..e][k];
    assert forall k :: 0 <= k < f ==> s[k] == s[..f][k];
  }

  /** Reference: `k` is the keyword in any case, and no space touches the `=` between it and the value. */
  predicate Assigns(k: string, keyword: string, value: string) {
    && k != "" && '=' !in k && SameLetters(k, keyword)
    && !IsSpace(k[|k| - 1]) && (value != "" ==> !IsSpace(value[0]))
  }

  lemma FoundIf(k: string, keyword: string, value: string)
    requires Assigns(k, keyword, value)
    ensures FindOptValue(k + "=" + value, keyword) == Success(value)
  {
    var input := k + "=" + value;
    assert input[..|k|] == k && input[|k| + 1..] == value;
    FirstEqualIs(input, |k|);
    LowerIsCaseless(k, keyword);
  }

  lemma FoundOnlyIf(input: string, keyword: string, value: string) returns (k: string)
    requires FindOptValue(input, keyword) == Success(value)
    ensures input == k + "=" + value && Assigns(k, keyword, value)
  {
    hide Lower;
    var e := FirstEqual(input);
    k := input[..e];
    LowerIsCaseless(k, keyword);
    assert value == input[e + 1..] && k[|k| - 1] == input[e - 1];
    assert value != "" ==> value[0] == input[e + 1];
  }

  /** A value is found exactly in `k=value`, where `k` is the keyword in any case, no space touches the first
      `=`, and the value may be empty. */
  lemma FoundExactly(input: string, keyword: string, value: string)
    ensures FindOptValue(input, keyword) == Success(value) <==>
      exists k: string :: input == k + "=" + value && Assigns(k, keyword, value)
  {
    hide FindOptValue, Assigns;
    if FindOptValue(input, keyword) == Success(value) {
      var k := FoundOnlyIf(input, keyword, value);
    }
    forall k: string | input == k + "=" + value && Assigns(k, keyword, value)
      ensures FindOptValue(input, keyword) == Success(value)
    {
      FoundIf(k, keyword, value);
    }
  }

  function ParseLine(value: string): Option<Option<Line>> {
    if Lower(value) == "dtr" then Some(Some(Dtr))
    else if Lower(value) == "rts" then Some(Some(Rts))
    else if Lower(value) == "none" then Some(None)
    else None
  }

  /** What one `-o` argument does to the pins: which one it names and the line it chose, or a refusal. */
  datatype Choice = Key(line: Option<Line>) | Ptt(line: Option<Line>) | Refused

  /** `ttys_optparse`: an option that names `key` is never tried as `ptt`. */
  function OptParse(option: string): Choice {
    var key := FindOptValue(option, "key");
    var ptt := FindOptValue(option, "ptt");
    if key.Success? then
      var l := ParseLine(key.value);
      if l.None? then Refused else Key(l.value)
    else if ptt.Success? then
      var l := ParseLine(ptt.value);
      if l.None? then Refused else Ptt(l.value)
    else Refused
  }

  lemma LineExactly(value: string)
    ensures ParseLine(value) == Some(Some(Dtr)) <==> SameLetters(value, "dtr")
    ensures ParseLine(value) == Some(Some(Rts)) <==> SameLetters(value, "rts")
    ensures ParseLine(value) == Some(None) <==> SameLetters(value, "none")
  {
    LowerIsCaseless(value, "dtr");
    LowerIsCaseless(value, "rts");
    LowerIsCaseless(value, "none");
    assert Lower("dtr") == "dtr" && Lower("rts") == "rts" && Lower("none") == "none";
    assert "rts"[0] != "dtr"[0] && "none"[0] != "dtr"[0] && "none"[0] != "rts"[0];
  }

  /** Reference: the name of a choice. */
  predicate Names(value: string, line: Option<Line>) {
    match line
    case None => SameLetters(value, "none")
    case Some(Dtr) => SameLetters(value, "dtr")
    case Some(Rts) => SameLetters(value, "rts")
  }

  lemma NamedLine(value: string, line: Option<Line>)
    ensures ParseLine(value) == Some(line) <==> Names(value, line)
  {
    LineExactly(value);
  }

  lemma NameHasNoSpace(value: string, line: Option<Line>)
    requires Names(value, line)
    ensures value != "" && !IsSpace(value[0])
  {
  }

  lemma FirstLetter(option: string, keyword: string, value: string)
    requires FindOptValue(option, keyword) == Success(value) && keyword != ""
    ensures option != "" && SameLetter(option[0], keyword[0])
  {
    var e := FirstEqual(option);
    LowerIsCaseless(option[..e], keyword);
    assert option[..e][0] == option[0];
  }

  lemma OnlyOneKeyword(option: string, v: string)
    requires FindOptValue(option, "ptt") == Success(v)
    ensures !FindOptValue(option, "key").Success?
  {
    hide FindOptValue;
    FirstLetter(option, "ptt", v);
    var found := FindOptValue(option, "key");
    if found.Success? {
      FirstLetter(option, "key", found.value);
    }
  }

  /** An option chooses the keying line exactly in `key=dtr`, `key=rts` and `key=none`, in any case; likewise the PTT
      line with `ptt`. Everything else is refused. */
  lemma OptionExactly(option: string, line: Option<Line>)
    ensures OptParse(option) == Key(line) <==>
      exists k, v :: option == k + "=" + v && SameLetters(k, "key") && Names(v, line)
    ensures OptParse(option) == Ptt(line) <==>
      exists k, v :: option == k + "=" + v && SameLetters(k, "ptt") && Names(v, line)
  {
    hide FindOptValue, ParseLine, SameLetters, Names;
    OptionIf(option, line);
    OptionOnlyIf(option, line);
  }

  lemma OptionIf(option: string, line: Option<Line>)
    ensures (exists k, v :: option == k + "=" + v && SameLetters(k, "key") && Names(v, line)) ==>
      OptParse(option) == Key(line)
    ensures (exists k, v :: option == k + "=" + v && SameLetters(k, "ptt") && Names(v, line)) ==>
      OptParse(option) == Ptt(line)
  {
    hide FindOptValue, ParseLine, SameLetters, Names;
    forall k, v | option == k + "=" + v && SameLetters(k, "key") && Names(v, line)
      ensures OptParse(option) == Key(line)
    {
      KeywordAssigns(k, "key", v, line);
      FoundIf(k, "key", v);
      NamedLine(v, line);
    }
    forall k, v | option == k + "=" + v && SameLetters(k, "ptt") && Names(v, line)
      ensures OptParse(option) == Ptt(line)
    {
      KeywordAssigns(k, "ptt", v, line);
      FoundIf(k, "ptt", v);
      NamedLine(v, line);
      OnlyOneKeyword(option, v);
    }
  }

  lemma KeywordAssigns(k: string, keyword: string, value: string, line: Option<Line>)
    requires (keyword == "key" || keyword == "ptt") && SameLetters(k, keyword) && Names(value, line)
    ensures Assigns(k, keyword, value)
  {
    hide Names;
    NameHasNoSpace(value, line);
    assert forall i :: 0 <= i < |k| ==> SameLetter(k[i], keyword[i]);
  }

  lemma OptionOnlyIf(option: string, line: Option<Line>)
    ensures OptParse(option) == Key(line) ==>
      exists k, v :: option == k + "=" + v && SameLetters(k, "key") && Names(v, line)
    ensures OptParse(option) == Ptt(line) ==>
      exists k, v :: option == k + "=" + v && SameLetters(k, "ptt") && Names(v, line)
  {
    hide FindOptValue, ParseLine, SameLetters, Names;
    if OptParse(option) == Key(line) {
      var v := FindOptValue(option, "key").value;
      var k := FoundOnlyIf(option, "key", v);
      NamedLine(v, line);
    }
    if OptParse(option) == Ptt(line) {
      var v := FindOptValue(option, "ptt").value;
      var k := FoundOnlyIf(option, "ptt", v);
      NamedLine(v, line);
    }
  }

  /** `ttys_optvalidate` */
  predicate OptValidate(p: Pins) { p.key.None? || p.ptt.None? || p.key != p.ptt }
}
