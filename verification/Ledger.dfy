/** The fate of every reply that a client asked for, kept as a ledger: which reply is owed follows from the requests,
    what became of it from the datagrams that the daemon sent. */
module ReplyLedger {
  import opened Basics
  import opened Decimal
  import opened World
  import opened Machine
  import opened Safety
  import opened KeyingTarget
  import Player

  /** The reply that a client is waiting for. */
  datatype Slip = NoSlip | Slip(text: string, address: Address)

  /** Reference: the reply that an event asks for, and for whom. ESC h asks for its own text, a text for what
      stands before its first unswallowed caret; both for the client that sent the datagram. */
  function Asked(s: State, e: Event): Slip {
    if !s.alive || !e.Datagram? then NoSlip
    else
      var text := RequestText(e.bytes);
      if text == "" then NoSlip
      else if text[0] == 27 as char then if Code(text) == 'h' then Slip(text[1..], e.client) else NoSlip
      else AskedByText(text, s.libcw.gap, e.client)
  }

  function AskedByText(text: string, gap: int, client: Address): Slip {
    var stop := Player.Stop(text, 0, gap);
    if stop < |text| then Slip(Player.Rewritten(text[..stop]), client) else NoSlip
  }

  datatype Ledger = Ledger(prepared: nat, sent: nat, superseded: nat, broken: nat, dropped: nat, pending: Slip)

  const EMPTY := Ledger(0, 0, 0, 0, 0, NoSlip)

  /** What the event behind a letter asked for, and whether it was an ABORT. */
  datatype Cause = Cause(asked: Slip, aborting: bool)

  predicate IsAbort(e: Event) { e.Datagram? && RequestCode(e.bytes) == '4' }

  function CauseOf(s: State, e: Event): Cause { Cause(Asked(s, e), s.alive && IsAbort(e)) }

  /** Entering one letter of the trace. A preparation makes what was asked for the pending reply, whatever the
      daemon put in its buffer; a datagram settles whatever is pending. */
  function Post(l: Ledger, a: Letter, why: Cause): Ledger {
    match a
    case Prepared(_, _) =>
      l.(prepared := l.prepared + 1, superseded := l.superseded + (if l.pending.Slip? then 1 else 0),
         pending := why.asked)
    case Sent(_, _, _) =>
      if why.aborting then l.(broken := l.broken + 1, pending := NoSlip) else l.(sent := l.sent + 1, pending := NoSlip)
  }

  function PostAll(l: Ledger, mail: seq<Letter>, why: Cause): Ledger {
    if mail == [] then l else Post(PostAll(l, mail[..|mail| - 1], why), mail[|mail| - 1], why)
  }

  /** The three requests that lose a pending reply: RESET, a PTT delay of 0, and manual PTT "off" while nothing
      is being sent. */
  predicate Loses(s: State, code: char, payload: string) {
    match code
    case '0' => true
    case 'd' => var v := ParseDelay(payload); !v.Rejection? && v.ms == 0
    case 'a' => GetLong(payload) == Some(0) && s.ptt.manual && s.libcw.tones <= 1
    case _ => false
  }

  predicate DropsReply(s: State, e: Event) {
    s.alive && e.Datagram? && Loses(s, RequestCode(e.bytes), Payload(RequestText(e.bytes)))
  }

  function PostEvent(l: Ledger, s: State, e: Event): Ledger {
    var l1 := PostAll(l, Step(s, e).mail, CauseOf(s, e));
    if DropsReply(s, e) && l1.pending.Slip? then l1.(dropped := l1.dropped + 1, pending := NoSlip) else l1
  }

  function Books(l: Ledger, s: State, es: seq<Event>): Ledger
    decreases |es|
  {
    if es == [] then l else Books(PostEvent(l, s, es[0]), Step(s, es[0]), es[1..])
  }

  predicate Balanced(l: Ledger) {
    l.prepared == l.sent + l.superseded + l.broken + l.dropped + (if l.pending.Slip? then 1 else 0)
  }

  /** A datagram goes out only for a pending reply, to the client that asked for it, with the text that was asked
      for and one CRLF (or with "break" on ABORT), in at most 257 bytes. */
  predicate Faithful(l: Ledger, a: Letter, aborting: bool) {
    a.Sent? ==>
      && l.pending.Slip? && a.address == l.pending.address
      && a.text == (if aborting then "break\r\n" else l.pending.text + "\r\n")
      && '\0' !in a.text && 2 <= |a.text| <= 257
      && a.text[|a.text| - 2..] == "\r\n"
  }

  predicate AllFaithful(l: Ledger, mail: seq<Letter>, why: Cause) {
    mail == [] || (
      && AllFaithful(l, mail[..|mail| - 1], why)
      && Faithful(PostAll(l, mail[..|mail| - 1], why), mail[|mail| - 1], why.aborting))
  }

  predicate RunIsFaithful(l: Ledger, s: State, es: seq<Event>)
    decreases |es|
  {
    es == [] || (
      && AllFaithful(l, Step(s, es[0]).mail, CauseOf(s, es[0]))
      && RunIsFaithful(PostEvent(l, s, es[0]), Step(s, es[0]), es[1..]))
  }

  // ---------- inside a step ----------

  /** What the daemon itself remembers of the pending reply. */
  function PendingOf(s: State): Slip { if s.ptt.echo then Slip(s.reply, s.replyAddress) else NoSlip }

  /** The ledger after the actions of the step so far agrees with the daemon. */
  predicate Agrees(l: Ledger, s: State, why: Cause) {
    && PostAll(l, s.mail, why).pending == PendingOf(s)
    && Balanced(PostAll(l, s.mail, why))
    && AllFaithful(l, s.mail, why)
  }

  /** No mail, and the same reply still pending or not. */
  predicate KeepsMail(s: State, t: State) {
    && t.mail == s.mail && t.reply == s.reply && t.replyAddress == s.replyAddress
    && t.requestAddress == s.requestAddress
  }

  predicate Silent(s: State, t: State) { KeepsMail(s, t) && t.ptt.echo == s.ptt.echo }

  lemma SilentAgrees(l: Ledger, s: State, t: State, why: Cause)
    requires Agrees(l, s, why) && Silent(s, t)
    ensures Agrees(l, t, why)
  {
    hide PostAll, AllFaithful, Balanced;
  }

  lemma PostOne(l: Ledger, mail: seq<Letter>, a: Letter, why: Cause)
    ensures PostAll(l, mail + [a], why) == Post(PostAll(l, mail, why), a, why)
    ensures AllFaithful(l, mail + [a], why) ==
      (AllFaithful(l, mail, why) && Faithful(PostAll(l, mail, why), a, why.aborting))
  {
    assert (mail + [a])[..|mail|] == mail;
  }

  lemma PrepareAgrees(l: Ledger, s: State, text: string, why: Cause)
    requires Agrees(l, s, why) && why.asked == Slip(text, s.requestAddress)
    ensures Agrees(l, PrepareReply(s, text), why)
  {
    hide PostAll, AllFaithful;
    PostOne(l, s.mail, Prepared(s.requestAddress, text), why);
  }

  lemma SendReplyAgrees(l: Ledger, s: State, why: Cause)
    requires Agrees(l, s, why) && !why.aborting && ReplyInv(s) && s.ptt.echo
    ensures Agrees(l, SendReply(s), why)
  {
    hide PostAll, AllFaithful;
    var text := s.reply + CRLF;
    assert text[|text| - 2..] == CRLF;
    PostOne(l, s.mail, Sent(|s.out|, s.replyAddress, text), why);
  }

  lemma PlayTickAgrees(l: Ledger, s: State, tick: Tick, why: Cause)
    requires Agrees(l, s, why) && !why.aborting && ReplyInv(s)
    ensures Agrees(l, PlayTick(s, tick), why) && PlayTick(s, tick).requestAddress == s.requestAddress
  {
    hide DriveLine, SendReply, Agrees;
    match tick
    case Mark(on) => SilentAgrees(l, s, KeyingEvent(s, on), why);
    case Tone =>
      var s1 := s.(libcw := s.libcw.(tones := if s.libcw.tones > 0 then s.libcw.tones - 1 else 0));
      SilentAgrees(l, s, s1, why);
      if s.ptt.echo {
        SendReplyAgrees(l, s1, why);
        SendReplyAddress(s1);
      } else {
        SilentAgrees(l, s, PlayTone(s), why);
      }
  }

  lemma SendReplyAddress(s: State)
    ensures SendReply(s).requestAddress == s.requestAddress
  {
  }

  lemma {:induction false} PlayTicksAgree(l: Ledger, s: State, ticks: seq<Tick>, why: Cause)
    requires Agrees(l, s, why) && !why.aborting && Behaviour(s)
    ensures Agrees(l, PlayTicks(s, ticks), why) && PlayTicks(s, ticks).requestAddress == s.requestAddress
    decreases |ticks|
  {
    if ticks != [] {
      PlayTickAgrees(l, s, ticks[0], why);
      hide PlayTick, Behaviour, Agrees;
      PlayTickKeeps(s, ticks[0]);
      PlayTicksAgree(l, PlayTick(s, ticks[0]), ticks[1..], why);
    }
  }

  lemma PerformAgrees(l: Ledger, s: State, c: Player.Command, tones: nat, why: Cause)
    requires Agrees(l, s, why) && (c.Reply? ==> why.asked == Slip(c.text, s.requestAddress))
    ensures Agrees(l, Perform(s, c, tones), why) && Perform(s, c, tones).requestAddress == s.requestAddress
  {
    hide DriveLine, Agrees;
    if c.Reply? {
      PrepareAgrees(l, s, c.text, why);
    } else {
      SilentAgrees(l, s, Perform(s, c, tones), why);
    }
  }

  /** The replies among the commands are the one that was asked for. */
  predicate AskedFor(cs: seq<Player.Command>, address: Address, why: Cause) {
    forall c :: c in cs && c.Reply? ==> why.asked == Slip(c.text, address)
  }

  lemma {:induction false} ExecAgrees(l: Ledger, s: State, cs: seq<Player.Command>, k: nat, schedule: Schedule,
                                          why: Cause)
    requires Agrees(l, s, why) && !why.aborting && Behaviour(s) && AllSound(cs)
    requires AskedFor(cs, s.requestAddress, why)
    ensures Agrees(l, Exec(s, cs, k, schedule), why)
    decreases |cs|
  {
    hide Agrees, Behaviour, Perform, PlayTicks, Sound;
    if cs != [] {
      var p := Perform(s, cs[0], schedule(k).tones);
      PerformAgrees(l, s, cs[0], schedule(k).tones, why);
      PerformKeeps(s, cs[0], schedule(k).tones);
      PlayTicksAgree(l, p, schedule(k).ticks, why);
      PlayTicksKeeps(p, schedule(k).ticks);
      ExecAgrees(l, ExecOne(s, cs[0], schedule(k)), cs[1..], k + 1, schedule, why);
    }
  }

  lemma {:induction false} RepliesAreEchoed(cs: seq<Player.Command>, c: Player.Command)
    requires c in cs && c.Reply?
    ensures c.text in Player.Echoed(cs)
  {
    if c != cs[0] {
      RepliesAreEchoed(cs[1..], c);
    }
  }

  lemma TextAgrees(l: Ledger, s: State, text: string, schedule: Schedule, why: Cause)
    requires Agrees(l, s, why) && !why.aborting && Behaviour(s)
    requires s.queue == "" && |text| <= REQUEST_SIZE_MAX && NUL !in text
    requires why.asked == AskedByText(text, s.libcw.gap, s.requestAddress)
    ensures Agrees(l, TextRequest(s, text, schedule), why)
  {
    var s1 := s.(queue := text);
    var c := Player.Cursor(0, s.current.speed, s.libcw.gap);
    QueuedKeeps(s, text);
    assert Agrees(l, s1, why) by { hide PostAll, AllFaithful, Balanced; }
    hide Agrees, Behaviour, AllSound, Exec, TextRequest, Player.Interp, AskedByText, AskedFor;
    InterpIsSound(text, c);
    TextIsAskedFor(text, s.current.speed, s.libcw.gap, s.requestAddress, why);
    TextRequestIs(s, text, schedule);
    ExecAgrees(l, s1, Player.Interp(text, c), 0, schedule, why);
  }

  lemma TextIsAskedFor(text: string, speed: int, gap: int, address: Address, why: Cause)
    requires why.asked == AskedByText(text, gap, address)
    ensures AskedFor(Player.Interp(text, Player.Cursor(0, speed, gap)), address, why)
  {
    hide Player.Interp, Player.Keyed, Player.Morse, Player.Stop, Player.Echoed, Player.Rewritten;
    var cs := Player.Interp(text, Player.Cursor(0, speed, gap));
    Player.KeyedAndEchoed(text, speed, gap);
    forall r | r in cs && r.Reply? ensures why.asked == Slip(r.text, address) {
      RepliesAreEchoed(cs, r);
    }
  }

  // ---------- escaped requests ----------

  lemma {:induction false} QueueTonesSilent(s: State, us: nat, hz: int, n: nat)
    ensures Silent(s, QueueTones(s, us, hz, n))
  {
    if n > 0 {
      QueueTonesSilent(s, us, hz, n - 1);
    }
  }

  lemma TuneSilent(s: State, payload: string, tones: nat)
    ensures Silent(s, TuneRequest(s, payload, tones))
  {
    var v := Machine.InRange(payload, 0, TUNE_SECONDS_MAX);
    if v.Some? {
      QueueTonesSilent(SetPttOn(Call(s, FlushQueue)), 1_000_000, s.current.tone, v.value);
    }
  }

  lemma ParametersSilent(s: State, payload: string)
    ensures Silent(s, SpeedRequest(s, payload)) && Silent(s, ToneRequest(s, payload))
    ensures Silent(s, WeightingRequest(s, payload)) && Silent(s, VolumeRequest(s, payload))
  {
  }

  lemma SoundSystemSilent(s: State, payload: string, env: Env)
    ensures Silent(s, SoundSystemRequest(s, payload, env))
  {
  }

  lemma CwdeviceSilent(s: State, payload: string, probe: Probe)
    requires Resources(s) && s.alive
    ensures Silent(s, CwdeviceRequest(s, payload, probe))
  {
    var s1 := Call(s, RegisterKeying(None));
    SameResourcesKeeps(s, s1);
    CwdeviceSetKeeps(s1, payload, probe);
  }

  lemma ExitSilent(s: State)
    ensures Silent(s, Exit(s))
  {
    hide DriveLine;
    hide DevFree, FreeDesc;
    ExitIs(s);
    var s1 := CloseOutput(s);
    FreesSilent(s1, Tty);
    var s2 := DevFree(s1);
    FreesSilent(s2, Tty);
    FreesSilent(FreeDesc(s2, Tty), NullDevice);
  }

  lemma FreesSilent(s: State, k: Kind)
    ensures Silent(s, DevFree(s)) && Silent(s, FreeDesc(s, k))
  {
    hide DriveLine;
  }

  lemma ResetSettles(s: State, r: OpenResult)
    ensures KeepsMail(s, Reset(s, r)) && !Reset(s, r).ptt.echo
  {
  }

  lemma DelaySettles(s: State, payload: string)
    ensures var v := ParseDelay(payload); var t := DelayRequest(s, payload);
      KeepsMail(s, t) && t.ptt.echo == (s.ptt.echo && !(!v.Rejection? && v.ms == 0))
  {
  }

  lemma PttSettles(s: State, payload: string)
    requires s.queue == ""
    ensures var t := PttRequest(s, payload);
      && KeepsMail(s, t)
      && t.ptt.echo == (s.ptt.echo && !(GetLong(payload) == Some(0) && s.ptt.manual && s.libcw.tones <= 1))
  {
  }

  lemma AbortAgrees(l: Ledger, s: State, why: Cause)
    requires Agrees(l, s, why) && why.aborting
    ensures Agrees(l, Abort(s), why)
    ensures Abort(s).mail == s.mail + BreakSent(s)
  {
    hide PostAll, AllFaithful, Balanced, DriveLine;
    var a := Sent(|s.out|, s.replyAddress, BREAK);
    if s.ptt.echo {
      BreakAgrees(l, s, why);
    }
    if !s.wordmode {
      var s1 := s.(mail := s.mail + BreakSent(s), ptt := s.ptt.(echo := false));
      assert s.mail + [] == s.mail;
      SilentAgrees(l, s1, Abort(s), why);
    }
  }

  /** The "break" of an ABORT. */
  function BreakSent(s: State): seq<Letter> {
    if !s.wordmode && s.ptt.echo then [Sent(|s.out|, s.replyAddress, BREAK)] else []
  }

  lemma BreakAgrees(l: Ledger, s: State, why: Cause)
    requires Agrees(l, s, why) && why.aborting && s.ptt.echo
    ensures Agrees(l, s.(mail := s.mail + [Sent(|s.out|, s.replyAddress, BREAK)], ptt := s.ptt.(echo := false)), why)
  {
    hide PostAll, AllFaithful;
    assert BREAK[|BREAK| - 2..] == CRLF;
    PostOne(l, s.mail, Sent(|s.out|, s.replyAddress, BREAK), why);
  }

  lemma EscapedSilent(s: State, text: string, env: Env)
    requires Inv(s) && s.alive && Code(text) !in {'0', '4', 'a', 'd', 'h'}
    ensures Silent(s, Escaped(s, text, env))
  {
    hide SpeedRequest, ToneRequest, WeightingRequest, VolumeRequest, Exit, CwdeviceRequest, TuneRequest,
      SoundSystemRequest;
    var payload := Payload(text);
    match Code(text)
    case '2' => ParametersSilent(s, payload);
    case '3' => ParametersSilent(s, payload);
    case '5' => ExitSilent(s);
    case '7' => ParametersSilent(s, payload);
    case '8' => CwdeviceSilent(s, payload, env.probe);
    case 'c' => TuneSilent(s, payload, env.schedule(0).tones);
    case 'f' => SoundSystemSilent(s, payload, env);
    case 'g' => ParametersSilent(s, payload);
    case _ =>
  }

  /** The letters of an escaped request: ESC h prepares its text, ABORT may send "break", nothing else sends or
      prepares anything. */
  function EscapedLetters(s: State, text: string): seq<Letter> {
    match Code(text)
    case '4' => BreakSent(s)
    case 'h' => [Prepared(s.requestAddress, text[1..])]
    case _ => []
  }

  lemma EscapedSettles(l: Ledger, s: State, text: string, env: Env, why: Cause)
    requires Inv(s) && s.alive && text != "" && Agrees(l, s, why) && why.aborting == (Code(text) == '4')
    requires Code(text) == 'h' ==> why.asked == Slip(text[1..], s.requestAddress)
    ensures Escaped(s, text, env).mail == s.mail + EscapedLetters(s, text)
    ensures var t := Escaped(s, text, env); var l1 := PostAll(l, t.mail, why);
      && Balanced(l1) && AllFaithful(l, t.mail, why)
      && (if Loses(s, Code(text), Payload(text)) then !t.ptt.echo else l1.pending == PendingOf(t))
  {
    hide Reset, Abort, PttRequest, DelayRequest, PostAll, AllFaithful, GetLong, ParseDelay, SpeedRequest,
      ToneRequest, WeightingRequest, VolumeRequest, Exit, CwdeviceRequest, TuneRequest, SoundSystemRequest,
      WordMode, Inv;
    var payload := Payload(text);
    assert s.mail + [] == s.mail;
    InvHasNoQueue(s);
    match Code(text)
    case '0' => ResetSettles(s, env.open);
    case '4' => AbortAgrees(l, s, why);
    case 'a' => PttSettles(s, payload);
    case 'd' => DelaySettles(s, payload);
    case 'h' => PrepareAgrees(l, s, text[1..], why);
    case _ =>
      EscapedSilent(s, text, env);
      hide Escaped;
  }

  lemma InvHasNoQueue(s: State)
    requires Inv(s)
    ensures s.queue == ""
  {
  }

  // ---------- steps and runs ----------

  /** Between events. */
  predicate InStep(l: Ledger, s: State) { l.pending == PendingOf(s) && Balanced(l) }

  lemma NothingPosted(l: Ledger, s: State, why: Cause)
    requires InStep(l, s) && s.mail == []
    ensures Agrees(l, s, why)
  {
  }

  lemma DatagramSettles(l: Ledger, s: State, bytes: string, client: Address, env: Env)
    requires Inv(s) && s.alive && s.mail == [] && InStep(l, s)
    ensures var t := Receive(s, bytes, client, env); var e := Datagram(bytes, client, env); var why := CauseOf(s, e);
      var l1 := PostAll(l, t.mail, why);
      && Balanced(l1) && AllFaithful(l, t.mail, why)
      && (if DropsReply(s, e) then !t.ptt.echo else l1.pending == PendingOf(t))
  {
    hide PostAll, AllFaithful, TextRequest, Escaped, GetLong, ParseDelay, AskedByText, Balanced, Resources, Behaviour;
    var why := CauseOf(s, Datagram(bytes, client, env));
    NothingPosted(l, s, why);
    var s1 := s.(requestAddress := client);
    AddressKeepsInv(s, client);
    var b := TrimEnd(Stored(bytes));
    if b != "" {
      if b[0] != ESC {
        assert CStr(b) == "" || CStr(b)[0] == b[0];
        EmptyAsksNothing(s.libcw.gap, client);
        TextAgrees(l, s1, CStr(b), env.schedule, why);
      } else {
        assert CStr(b) != "" && CStr(b)[0] == ESC;
        EscapedSettles(l, s1, CStr(b), env, why);
      }
    }
  }

  lemma EmptyAsksNothing(gap: int, client: Address)
    ensures AskedByText("", gap, client) == NoSlip
  {
  }

  lemma AddressKeepsInv(s: State, client: Address)
    requires Inv(s)
    ensures Inv(s.(requestAddress := client)) && Behaviour(s.(requestAddress := client))
  {
    SameResourcesKeeps(s, s.(requestAddress := client));
  }

  lemma FreshKeepsInv(s: State)
    requires Inv(s)
    ensures Inv(s.(out := [], mail := [])) && ReplyInv(s.(out := [], mail := []))
  {
    SameResourcesKeeps(s, s.(out := [], mail := []));
  }

  lemma StepBalances(l: Ledger, s: State, e: Event)
    requires Inv(s) && InStep(l, s)
    ensures InStep(PostEvent(l, s, e), Step(s, e))
    ensures AllFaithful(l, Step(s, e).mail, CauseOf(s, e))
  {
    hide PostAll, AllFaithful, PlayTick, Receive, GetLong, ParseDelay, Inv, RequestText, RequestCode;
    var s0 := s.(out := [], mail := []);
    FreshKeepsInv(s);
    NothingPosted(l, s0, CauseOf(s, e));
    if s.alive {
      match e
      case Thread(tick) => PlayTickAgrees(l, s0, tick, CauseOf(s, e));
      case Datagram(bytes, client, env) =>
        DatagramSettles(l, s0, bytes, client, env);
        assert DropsReply(s0, e) == DropsReply(s, e) && CauseOf(s0, e) == CauseOf(s, e);
    }
  }

  lemma {:induction false} RunBalances(l: Ledger, s: State, es: seq<Event>)
    requires Inv(s) && InStep(l, s)
    ensures InStep(Books(l, s, es), Run(s, es)) && RunIsFaithful(l, s, es)
    decreases |es|
  {
    hide Inv, Step, PostEvent, AllFaithful, InStep;
    if es != [] {
      StepBalances(l, s, es[0]);
      StepKeeps(s, es[0]);
      RunBalances(PostEvent(l, s, es[0]), Step(s, es[0]), es[1..]);
    }
  }

  /** On every run from the start, with libcw's thread at work at any point: the prepared replies are those sent,
      superseded by a later one, replaced by "break", dropped, and at most one still pending. Every datagram goes
      to the client of the latest request that asked for a reply, with the text asked for, once, with one CRLF and
      within 257 bytes. The pending reply is what the daemon has in its buffer. */
  lemma EveryReplyIsAccountedFor(defaults: Params, args: seq<Argument>, bind: Address, r: OpenResult, es: seq<Event>)
    requires InRangeParams(defaults) && Launch(defaults, args, bind, r).Some?
    ensures var s0 := Launch(defaults, args, bind, r).value; var l := Books(EMPTY, s0, es);
      && l.prepared == l.sent + l.superseded + l.broken + l.dropped + (if l.pending.Slip? then 1 else 0)
      && l.pending == PendingOf(Run(s0, es))
      && RunIsFaithful(EMPTY, s0, es)
  {
    hide Inv, Run, Books, RunIsFaithful;
    LaunchIsSafe(defaults, args, bind, r);
    LaunchedIdle(defaults, args, bind, r);
    RunBalances(EMPTY, Launch(defaults, args, bind, r).value, es);
  }
}
