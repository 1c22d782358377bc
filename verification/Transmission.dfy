/** What a text request sends to libcw and prepares for its client, read off the daemon's trace, however
    libcw's callbacks are interleaved with the player. */
module Transmission {
  import opened Basics
  import opened World
  import opened Machine
  import opened Safety
  import opened KeyingTarget
  import opened Requests
  import DriverOptions
  import Player

  /** The characters that libcw was told to key, each at the speed it was told before. */
  function Transcribe(out: seq<Action>, wpm: int): Player.Transcript {
    if out == [] then Player.Transcript([], wpm)
    else TakeAction(Transcribe(out[..|out| - 1], wpm), out[|out| - 1])
  }

  function TakeAction(tr: Player.Transcript, a: Action): Player.Transcript {
    if a.Cw? && a.call.SetSpeed? then tr.(wpm := a.call.wpm)
    else if a.Cw? && a.call.SendCharacter? then tr.(keyed := tr.keyed + [Player.Paced(a.call.c, tr.wpm)])
    else tr
  }

  /** The replies that were prepared. */
  function Preparations(mail: seq<Letter>): seq<string> {
    if mail == [] then []
    else
      var last := mail[|mail| - 1];
      Preparations(mail[..|mail| - 1]) + (if last.Prepared? then [last.text] else [])
  }

  lemma OneAction(out: seq<Action>, a: Action, wpm: int)
    ensures Transcribe(out + [a], wpm) == TakeAction(Transcribe(out, wpm), a)
  {
    assert (out + [a])[..|out|] == out;
  }

  lemma OneLetter(mail: seq<Letter>, l: Letter)
    ensures Preparations(mail + [l]) == Preparations(mail) + if l.Prepared? then [l.text] else []
  {
    assert (mail + [l])[..|mail|] == mail;
  }

  /** What a state has transmitted so far. */
  datatype Sum = Sum(tr: Player.Transcript, prepared: seq<string>, gap: int)

  function SumOf(s: State, wpm: int): Sum { Sum(Transcribe(s.out, wpm), Preparations(s.mail), s.libcw.gap) }

  lemma DriveLineSame(s: State, line: Option<DriverOptions.Line>, on: bool, wpm: int)
    ensures SumOf(DriveLine(s, line, on), wpm) == SumOf(s, wpm)
  {
    hide Transcribe;
    if line.Some? {
      OneAction(s.out, Ioctl(s.dev.ttyFd, line.value, on), wpm);
    }
  }

  lemma DevPttSame(s: State, on: bool, wpm: int)
    ensures SumOf(DevPtt(s, on), wpm) == SumOf(s, wpm)
  {
    hide DriveLine, SumOf;
    DriveLineSame(s, s.dev.pins.ptt, on, wpm);
  }

  lemma SendReplySame(s: State, wpm: int)
    ensures SumOf(SendReply(s), wpm) == SumOf(s, wpm)
  {
    hide Transcribe, Preparations;
    var q := Cw(QueueTone(1, 0));
    OneLetter(s.mail, Sent(|s.out|, s.replyAddress, BoundedAppend(s.reply, CRLF, REPLY_SIZE_MAX)));
    OneAction(s.out, q, wpm);
    OneAction(s.out + [q], q, wpm);
  }

  lemma PlayToneSame(s: State, wpm: int)
    ensures SumOf(PlayTone(s), wpm) == SumOf(s, wpm)
  {
    hide Transcribe, Preparations, DevPtt, SendReply;
    var s1 := s.(libcw := s.libcw.(tones := if s.libcw.tones > 0 then s.libcw.tones - 1 else 0));
    DevPttSame(s1, false, wpm);
    SendReplySame(s1, wpm);
  }

  lemma PlayTickSame(s: State, tick: Tick, wpm: int)
    ensures SumOf(PlayTick(s, tick), wpm) == SumOf(s, wpm)
  {
    hide PlayTone, DriveLine, SumOf;
    PlayToneSame(s, wpm);
    if tick.Mark? {
      DriveLineSame(s, s.dev.pins.key, tick.on, wpm);
    }
  }

  lemma {:induction false} PlayTicksSame(s: State, ticks: seq<Tick>, wpm: int)
    ensures SumOf(PlayTicks(s, ticks), wpm) == SumOf(s, wpm)
    decreases |ticks|
  {
    hide PlayTick, SumOf;
    if ticks != [] {
      PlayTickSame(s, ticks[0], wpm);
      PlayTicksSame(PlayTick(s, ticks[0]), ticks[1..], wpm);
    }
  }

  /** What a command adds. */
  function Added(sum: Sum, c: Player.Command): Sum {
    Sum(Player.Take(sum.tr, c), sum.prepared + (if c.Reply? then [c.text] else []), if c.Gap? then c.dots else sum.gap)
  }

  lemma PerformTransmits(s: State, c: Player.Command, tones: nat, wpm: int)
    ensures SumOf(Perform(s, c, tones), wpm) == Added(SumOf(s, wpm), c)
  {
    hide Transcribe, Preparations, DevPtt;
    match c
    case Speed(w) => OneAction(s.out, Cw(SetSpeed(w)), wpm);
    case Gap(dots) => OneAction(s.out, Cw(SetGap(dots)), wpm);
    case PttOn => DevPttSame(s, true, wpm);
    case Send(ch) => OneAction(s.out, Cw(SendCharacter(ch, tones)), wpm);
    case Reply(text) => OneLetter(s.mail, Prepared(s.requestAddress, text));
    case _ =>
  }

  lemma OneTransmits(s: State, c: Player.Command, slot: Slot, wpm: int)
    ensures SumOf(ExecOne(s, c, slot), wpm) == Added(SumOf(s, wpm), c)
  {
    hide SumOf, Added, Perform, PlayTicks;
    PerformTransmits(s, c, slot.tones, wpm);
    PlayTicksSame(Perform(s, c, slot.tones), slot.ticks, wpm);
  }

  /** Running commands transmits what they say, whatever happens between them. */
  lemma {:induction false} ExecTransmits(s: State, cs: seq<Player.Command>, k: nat, schedule: Schedule, wpm: int)
    ensures var was, now := SumOf(s, wpm), SumOf(Exec(s, cs, k, schedule), wpm);
      && now.tr == Player.TakeAll(was.tr, cs)
      && now.prepared == was.prepared + Player.Echoed(cs)
      && now.gap == Player.GapAfter(cs, was.gap)
    decreases |cs|
  {
    hide SumOf, ExecOne, Player.GapAfter, Player.Take;
    var gap := SumOf(s, wpm).gap;
    if cs != [] {
      OneTransmits(s, cs[0], schedule(k), wpm);
      ExecTransmits(ExecOne(s, cs[0], schedule(k)), cs[1..], k + 1, schedule, wpm);
      Player.GapConcat([cs[0]], cs[1..], gap);
      Player.SingleGap(cs[0], gap);
      assert cs == [cs[0]] + cs[1..];
    } else {
      Player.NoGapCommand(cs, gap);
    }
  }

  /** A text request, in every state in which one can arrive: libcw is given exactly the keyable characters before
      the first unswallowed caret, each at the speed in force where it stands; if there is such a caret,
      everything before it is prepared as the one reply; and the gap carried into the next request is 2 exactly if
      the text left it armed. */
  lemma TextIsTransmitted(s: State, text: string, schedule: Schedule)
    requires s.queue == "" && |text| <= REQUEST_SIZE_MAX && s.out == [] && s.mail == []
    ensures var t := TextRequest(s, text, schedule); var e := Player.Stop(text, 0, s.libcw.gap);
      var keyed := Transcribe(t.out, s.current.speed).keyed;
      && keyed == Player.PacedMorse(text, 0, e, s.current.speed)
      && Player.Letters(keyed) == Player.Morse(text[..e])
      && Preparations(t.mail) == (if e < |text| then [Player.Rewritten(text[..e])] else [])
      && (t.libcw.gap == 2 <==> Player.Armed(text, e, s.libcw.gap))
  {
    hide Exec, Transcribe, Preparations, Player.Interp, Player.Armed, Player.Stop, Player.Morse, Player.PacedMorse,
      Player.Letters, TextRequest;
    var s1, wpm := s.(queue := text), s.current.speed;
    var c := Player.Cursor(0, wpm, s.libcw.gap);
    TextRequestIs(s, text, schedule);
    ExecTransmits(s1, Player.Interp(text, c), 0, schedule, wpm);
    Player.KeyedAndEchoed(text, wpm, s.libcw.gap);
    Player.KeyedAtSpeed(text, wpm, s.libcw.gap);
    var e := Player.Stop(text, 0, s.libcw.gap);
    Player.PacedMorseLetters(text, 0, e, wpm);
    assert text[0..e] == text[..e];
    Player.FirstArrival(text, c);
    Player.GapLeftBehind(text, c, s.libcw.gap);
    NothingYet(wpm);
  }

  /** A datagram with an ordinary text, whatever its line end and whatever state it arrives in: libcw is given all
      its characters, in order, with `*` as `+`, and no reply is prepared. */
  lemma OrdinaryTextIsKeyed(s: State, text: string, eol: string, client: Address, env: Env)
    requires s.alive && s.queue == "" && Player.Ordinary(text) && 0 < |text| <= 256
    requires '\0' !in text && text[0] as int != 27 && EndsInText(text) && AllEol(eol)
    ensures var t := Step(s, Datagram(text + eol, client, env));
      && Player.WithPluses(text, Player.Letters(Transcribe(t.out, s.current.speed).keyed))
      && Preparations(t.mail) == []
  {
    hide Transcribe, Preparations, Player.Letters, Player.PacedMorse, Player.Morse, Player.Armed, Player.Rewritten,
      Player.Ordinary, TextRequest, Step, RequestText, Player.WithPluses, Player.Swallowed;
    var s1 := s.(out := [], mail := [], requestAddress := client);
    TextArrives(text, eol);
    TextStep(s, text + eol, client, env);
    TextIsTransmitted(s1, text, env.schedule);
    NoCaret(text);
    assert Player.Stop(text, 0, s.libcw.gap) == |text|;
    assert text[..|text|] == text;
    Player.OrdinaryMorse(text);
  }

  lemma NoCaret(text: string)
    ensures Player.Ordinary(text) ==> '^' !in text
  {
  }

  lemma TextStep(s: State, bytes: string, client: Address, env: Env)
    requires s.alive && RequestText(bytes) != "" && RequestText(bytes)[0] as int != 27
    ensures Step(s, Datagram(bytes, client, env))
      == TextRequest(s.(out := [], mail := [], requestAddress := client), RequestText(bytes), env.schedule)
  {
    hide TextRequest, Escaped;
  }

  lemma NothingYet(wpm: int)
    ensures Transcribe([], wpm) == Player.Transcript([], wpm) && Preparations([]) == []
  {
  }
}
