/** From the client's side: what a datagram means to the daemon, and that a number a client prints is the number
    the daemon takes. */
module Requests {
  import opened Basics
  import opened Decimal
  import opened World
  import opened Machine
  import opened KeyingTarget

  predicate AllEol(s: string) { forall k :: 0 <= k < |s| ==> s[k] == '\r' || s[k] == '\n' }

  predicate EndsInText(s: string) { s == "" || (s[|s| - 1] != '\r' && s[|s| - 1] != '\n') }

  /** A text of up to 256 bytes arrives as it is, whatever CRs and LFs stand behind it and wherever they are cut. */
  lemma TextArrives(text: string, eol: string)
    requires |text| <= 256 && AllEol(eol) && EndsInText(text) && '\0' !in text
    ensures RequestText(text + eol) == text
  {
    var n := if |text| + |eol| <= 256 then |eol| else 256 - |text|;
    assert Stored(text + eol) == text + eol[..n];
    TrimIs(text, eol[..n]);
    CStrOfText(text);
  }

  lemma {:induction false} TrimIs(text: string, eol: string)
    requires AllEol(eol) && EndsInText(text)
    ensures TrimEnd(text + eol) == text
  {
    if eol == "" {
      assert text + eol == text;
    } else {
      assert (text + eol)[..|text + eol| - 1] == text + eol[..|eol| - 1];
      TrimIs(text, eol[..|eol| - 1]);
    }
  }

  /** A text that the client ends with NUL arrives up to there, whatever stands behind it; CRs and LFs before the
      NUL are kept. */
  lemma TextEndsAtNul(text: string, rest: string)
    requires |text| < 256 && '\0' !in text
    ensures RequestText(text + ['\0'] + rest) == text
  {
    var b := Stored(text + ['\0'] + rest);
    assert b[|text|] == '\0' && b[..|text|] == text;
    var t := TrimEnd(b);
    assert |t| > |text| by {
      assert !IsEol(b[|text|]);
    }
    assert t[|text|] == '\0' && t[..|text|] == text;
    CStrIs(t, |text|);
  }

  /** What is longer than 256 bytes is cut there, and the CRs and LFs before the cut are trimmed. */
  lemma LongTextIsCut(text: string, eol: string, rest: string)
    requires |text| + |eol| == 256 && AllEol(eol) && EndsInText(text) && '\0' !in text
    ensures RequestText(text + eol + rest) == text
  {
    assert Stored(text + eol + rest) == text + eol;
    TrimIs(text, eol);
    CStrOfText(text);
  }

  // ---------- numbers ----------

  /** The requests that set a parameter to a number. */
  predicate IsParameter(code: char) { code in {'2', '3', '7', 'd', 'g'} }

  /** Reference: the numbers that each of them takes. */
  predicate Accepts(code: char, v: int) {
    match code
    case '2' => CW.speedMin <= v <= CW.speedMax
    case '3' => 0 <= v <= CW.frequencyMax
    case '7' => -50 <= v <= 50
    case 'd' => 0 <= v
    case _ => CW.volumeMin <= v <= CW.volumeMax
  }

  /** Reference: the parameters after a number was taken. A PTT delay above 50 ms is taken as 50. */
  function Changed(p: Params, code: char, v: int): Params {
    match code
    case '2' => p.(speed := v)
    case '3' => p.(tone := v)
    case '7' => p.(weighting := v)
    case 'd' => p.(delay := if v > 50 then 50 else v)
    case _ => p.(volume := v)
  }

  lemma PrintedDigits(v: int)
    ensures Print(v) != "" && forall k :: 0 <= k < |Print(v)| ==> Print(v)[k] == '-' || IsDigit(Print(v)[k])
  {
    var digits := PrintNat(if v < 0 then -v else v);
    assert AllDigits(digits);
  }

  lemma NumberArrives(code: char, v: int, eol: string)
    requires IsParameter(code) && AllEol(eol) && LONG_MIN <= v <= LONG_MAX
    ensures var b := [27 as char, code] + Print(v) + eol;
      RequestText(b) == [27 as char, code] + Print(v) && RequestCode(b) == code && Payload(RequestText(b)) == Print(v)
  {
    hide Print;
    PrintedDigits(v);
    PrintIsShort(v);
    var text := [27 as char, code] + Print(v);
    assert text[|text| - 1] == Print(v)[|Print(v)| - 1];
    TextArrives(text, eol);
    assert text[2..] == Print(v);
  }

  lemma EscapedStep(s: State, bytes: string, client: Address, env: Env)
    requires s.alive && RequestCode(bytes) != NUL
    ensures Step(s, Datagram(bytes, client, env))
      == Escaped(s.(out := [], mail := [], requestAddress := client), RequestText(bytes), env)
  {
    hide Escaped;
  }

  lemma TakenOrNot(s: State, text: string, env: Env, v: int)
    requires IsParameter(Code(text)) && GetLong(Payload(text)) == Some(v)
    ensures var t := Escaped(s, text, env);
      && (Accepts(Code(text), v) ==> t.current == Changed(s.current, Code(text), v))
      && (!Accepts(Code(text), v) ==> t == s)
  {
    hide GetLong, DevPtt;
  }

  /** Any C long that a client prints into such a request, with any line end, is what the parameter becomes if it
      is acceptable; if not, nothing at all changes. */
  lemma NumberIsTaken(s: State, code: char, v: int, eol: string, client: Address, env: Env)
    requires s.alive && IsParameter(code) && LONG_MIN <= v <= LONG_MAX
    requires AllEol(eol)
    ensures var t := Step(s, Datagram([27 as char, code] + Print(v) + eol, client, env));
      && (Accepts(code, v) ==> t.current == Changed(s.current, code, v))
      && (!Accepts(code, v) ==> t == s.(out := [], mail := [], requestAddress := client))
  {
    hide Escaped, Step, Print, GetLong, RequestText, Accepts, Changed;
    var b := [27 as char, code] + Print(v) + eol;
    NumberArrives(code, v, eol);
    PrintThenParse(v);
    EscapedStep(s, b, client, env);
    CodeOf(b);
    TakenOrNot(s.(out := [], mail := [], requestAddress := client), RequestText(b), env, v);
  }

  lemma CodeOf(bytes: string)
    ensures RequestCode(bytes) != NUL ==> Code(RequestText(bytes)) == RequestCode(bytes)
  {
  }

  /** A number that is no number changes nothing, for these requests and for manual PTT
      and tuning. */
  lemma GarbageIsIgnored(s: State, bytes: string, client: Address, env: Env)
    requires s.alive && GetLong(Payload(RequestText(bytes))).None?
    requires IsParameter(RequestCode(bytes)) || RequestCode(bytes) == 'a' || RequestCode(bytes) == 'c'
    ensures Step(s, Datagram(bytes, client, env)) == s.(out := [], mail := [], requestAddress := client)
  {
    hide Escaped, Step, GetLong, RequestText;
    EscapedStep(s, bytes, client, env);
    CodeOf(bytes);
    NotANumber(s.(out := [], mail := [], requestAddress := client), RequestText(bytes), env);
  }

  lemma NotANumber(s: State, text: string, env: Env)
    requires GetLong(Payload(text)).None?
    requires IsParameter(Code(text)) || Code(text) == 'a' || Code(text) == 'c'
    ensures Escaped(s, text, env) == s
  {
    hide GetLong;
  }
}
