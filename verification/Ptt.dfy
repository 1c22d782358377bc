/** Automatic PTT: it is not dropped inside a message, and exactly when it is released afterwards. */
module PttRelease {
  import opened Basics
  import opened DriverOptions
  import opened World
  import opened Machine
  import opened Safety
  import opened DeviceBooks
  import Player

  // ---------- no drop inside a message ----------

  /** A command that leaves a non-empty queue non-empty. */
  predicate Harmless(c: Player.Command) { c.Cut? ==> c.at > 0 }

  predicate AllHarmless(cs: seq<Player.Command>) { forall c :: c in cs ==> Harmless(c) }

  lemma JoinedHarmless(item: seq<Player.Command>, rest: seq<Player.Command>)
    requires AllHarmless(item) && rest != [] && AllHarmless(rest[..|rest| - 1])
    ensures AllHarmless((item + rest)[..|item + rest| - 1])
  {
    assert (item + rest)[..|item + rest| - 1] == item + rest[..|rest| - 1];
  }

  lemma ItemIsHarmless(t: string, c: Player.Cursor)
    requires c.at < |t| && (c.at > 0 || t[0] != '^')
    ensures AllHarmless(Player.Item(t, c))
  {
  }

  lemma {:induction false} LaterIsHarmless(t: string, c: Player.Cursor)
    requires 0 < c.at <= |t|
    ensures var cs := Player.Interp(t, c); AllHarmless(cs[..|cs| - 1])
    decreases |t| - c.at
  {
    if c.at < |t| {
      hide AllHarmless, Player.Item, Player.Next;
      InterpIs(t, c);
      hide Player.Interp;
      ItemIsHarmless(t, c);
      LaterIsHarmless(t, Player.Next(t, c));
      JoinedHarmless(Player.Item(t, c), Player.Interp(t, Player.Next(t, c)));
    } else {
      assert Player.Interp(t, c) == [Player.Cut(0)];
    }
  }

  lemma InterpIs(t: string, c: Player.Cursor)
    requires c.at < |t|
    ensures Player.Interp(t, c) == Player.Item(t, c) + Player.Interp(t, Player.Next(t, c))
  {
    hide Player.Item, Player.Next;
  }

  lemma KeysNothing(t: string, c: Player.Cursor)
    requires c.at == 0 && (t == "" || t[0] == '^')
    ensures Player.PttOn !in Player.Interp(t, c)
  {
    if t != "" {
      hide Player.Rewritten;
      InterpIs(t, c);
      assert Player.Interp(t, Player.Next(t, c)) == [Player.Cut(0)];
    }
  }

  /** Of a message that keys anything, only the last command empties the queue. */
  lemma MessageIsHarmless(t: string, c: Player.Cursor)
    requires c.at == 0 && Player.PttOn in Player.Interp(t, c)
    ensures t != ""
    ensures var cs := Player.Interp(t, c); AllHarmless(cs[..|cs| - 1])
  {
    hide AllHarmless, Player.Interp;
    if t == "" || t[0] == '^' {
      KeysNothing(t, c);
    } else {
      FirstIsHarmless(t, c);
    }
  }

  lemma FirstIsHarmless(t: string, c: Player.Cursor)
    requires c.at == 0 && t != "" && t[0] != '^'
    ensures var cs := Player.Interp(t, c); AllHarmless(cs[..|cs| - 1])
  {
    hide AllHarmless, Player.Item, Player.Next, Player.Interp;
    InterpIs(t, c);
    ItemIsHarmless(t, c);
    LaterIsHarmless(t, Player.Next(t, c));
    JoinedHarmless(Player.Item(t, c), Player.Interp(t, Player.Next(t, c)));
  }

  function Others(lines: set<Line>, line: Option<Line>): set<Line> {
    if line.Some? then lines - {line.value} else lines
  }

  /** All lines of the open descriptors but one. */
  function OtherLines(os: Os, line: Option<Line>): map<int, set<Line>> {
    map fd | fd in os.open :: Others(os.open[fd], line)
  }

  /** Nothing has happened to the device but keying. */
  predicate OnlyKeyLine(s: State, t: State) {
    && t.dev == s.dev && t.os == s.os.(open := t.os.open)
    && OtherLines(t.os, s.dev.pins.key) == OtherLines(s.os, s.dev.pins.key)
  }

  /** Automatic PTT holds on, text is still queued, and the device has not been touched but for keying. */
  predicate HeldOn(s: State, t: State) { t.ptt.auto && OnlyKeyLine(s, t) }

  /** The message is still being played. */
  predicate InMessage(s: State, t: State) {
    && t.queue != "" && t.current.delay == s.current.delay && (s.ptt.auto ==> HeldOn(s, t))
  }

  lemma KeyLineOnly(s: State, on: bool)
    requires s.dev.pins.key.Some?
    ensures OnlyKeyLine(s, s.(os := SetLine(s.os, s.dev.ttyFd, s.dev.pins.key.value, on)))
  {
    var key := s.dev.pins.key;
    var t := SetLine(s.os, s.dev.ttyFd, key.value, on);
    forall fd | fd in s.os.open ensures Others(t.open[fd], key) == Others(s.os.open[fd], key) {}
    assert OtherLines(t, key) == OtherLines(s.os, key);
  }

  lemma PlayTickHolds(s: State, tick: Tick)
    requires s.queue != ""
    ensures InMessage(s, PlayTick(s, tick))
  {
    hide OtherLines, SetLine;
    if tick.Mark? && s.dev.pins.key.Some? {
      KeyLineOnly(s, tick.on);
    }
  }

  lemma {:induction false} PlayTicksHold(s: State, ticks: seq<Tick>)
    requires s.queue != ""
    ensures InMessage(s, PlayTicks(s, ticks))
    decreases |ticks|
  {
    hide PlayTick, OtherLines;
    if ticks != [] {
      PlayTickHolds(s, ticks[0]);
      PlayTicksHold(PlayTick(s, ticks[0]), ticks[1..]);
    }
  }

  lemma PerformHolds(s: State, c: Player.Command, tones: nat)
    requires s.queue != "" && Harmless(c)
    ensures var p := Perform(s, c, tones);
      InMessage(s, p) && (s.current.delay != 0 && c.PttOn? ==> p.ptt.auto)
  {
    hide OtherLines, DriveLine;
    if c.Cut? && c.at < |s.queue| {
      assert |s.queue[..c.at]| == c.at;
    } else if c.Rewrite? && c.at < |s.queue| {
      assert |s.queue[c.at := '+']| == |s.queue|;
    }
  }

  lemma {:induction false} ExecHolds(s: State, cs: seq<Player.Command>, k: nat, schedule: Schedule)
    requires s.queue != "" && AllHarmless(cs)
    ensures InMessage(s, Exec(s, cs, k, schedule))
    ensures s.current.delay != 0 && Player.PttOn in cs ==> Exec(s, cs, k, schedule).ptt.auto
    decreases |cs|
  {
    hide Perform, PlayTicks, OtherLines;
    if cs != [] {
      var p := Perform(s, cs[0], schedule(k).tones);
      PerformHolds(s, cs[0], schedule(k).tones);
      PlayTicksHold(p, schedule(k).ticks);
      ExecHolds(ExecOne(s, cs[0], schedule(k)), cs[1..], k + 1, schedule);
    }
  }

  /** The commands of a text request. */
  function Commands(s: State, text: string): (cs: seq<Player.Command>)
    ensures |cs| > 0
  {
    Player.Interp(text, Player.Cursor(0, s.current.speed, s.libcw.gap))
  }

  /** The state after the first `n` commands of a text that arrives in state `s`. */
  function After(s: State, text: string, n: nat, schedule: Schedule): State
    requires n <= |Commands(s, text)|
  {
    Exec(s.(queue := text), Commands(s, text)[..n], 0, schedule)
  }

  lemma DisjointPins(a: State, b: State)
    requires OnlyKeyLine(a, b) && OptValidate(a.dev.pins)
    ensures PttPinOn(b) == PttPinOn(a)
  {
    if a.dev.current.Tty? && a.dev.pins.ptt.Some? {
      var fd, k := a.dev.ttyFd, a.dev.pins.key;
      assert fd in OtherLines(a.os, k) <==> fd in a.os.open;
      assert fd in OtherLines(b.os, k) <==> fd in b.os.open;
      if fd in a.os.open {
        assert Others(a.os.open[fd], k) == OtherLines(a.os, k)[fd];
        assert Others(b.os.open[fd], k) == OtherLines(b.os, k)[fd];
        assert forall l :: l in Others(a.os.open[fd], k) <==> l in a.os.open[fd] && Some(l) != k;
        assert forall l :: l in Others(b.os.open[fd], k) <==> l in b.os.open[fd] && Some(l) != k;
      }
    }
  }

  /** With a PTT delay, once the m-th command has asked for PTT, then up to the command that empties the queue
      automatic PTT stays on and no line but the keying line changes, for every text and whatever libcw's thread
      does in between. With validated pins the PTT pin stays as it is. */
  lemma NoPttDropInsideMessage(s: State, text: string, schedule: Schedule, m: nat, n: nat)
    requires s.queue == "" && s.current.delay != 0
    requires m <= n < |Commands(s, text)| && Player.PttOn in Commands(s, text)[..m]
    ensures var a, b := After(s, text, m, schedule), After(s, text, n, schedule);
      && a.ptt.auto && b.ptt.auto && OnlyKeyLine(a, b)
      && (OptValidate(s.dev.pins) ==> PttPinOn(b) == PttPinOn(a))
  {
    var s1, cs := s.(queue := text), Commands(s, text);
    hide Exec, Player.Interp, AllHarmless, OtherLines, PttPinOn;
    var a := After(s, text, m, schedule);
    assert Player.PttOn in cs;
    MessageIsHarmless(text, Player.Cursor(0, s.current.speed, s.libcw.gap));
    PartsAreHarmless(cs, m, n);
    ExecInParts(s1, cs, m, n, 0, schedule);
    ExecHolds(s1, cs[..m], 0, schedule);
    ExecHolds(a, cs[m..n], m, schedule);
    ExecSameDevices(s1, cs[..m], 0, schedule);
    if OptValidate(s.dev.pins) {
      DisjointPins(a, After(s, text, n, schedule));
    }
  }

  /** A tty with both descriptor and PTT pin. */
  predicate HasPttPin(s: State) {
    s.dev.current.Tty? && s.dev.pins.ptt.Some? && s.dev.ttyFd in s.os.open.Keys && OptValidate(s.dev.pins)
  }

  lemma PerformRaises(s: State, c: Player.Command, tones: nat)
    requires HasPttPin(s) && !s.ptt.auto
    ensures var p := Perform(s, c, tones);
      && HasPttPin(p) && p.dev == s.dev
      && (if c.PttOn? && s.current.delay != 0 then p.ptt.auto && PttPinOn(p) else !p.ptt.auto)
  {
  }

  lemma FirstPttOn(s: State, c: Player.Command, slot: Slot)
    requires s.queue != "" && Harmless(c) && HasPttPin(s) && !s.ptt.auto
    ensures var t := ExecOne(s, c, slot); t.dev == s.dev && HasPttPin(t)
    ensures var t := ExecOne(s, c, slot);
      if c.PttOn? && s.current.delay != 0 then t.ptt.auto && PttPinOn(t) else !t.ptt.auto
  {
    hide Perform, PlayTicks, OtherLines, PttPinOn;
    var p := Perform(s, c, slot.tones);
    PerformHolds(s, c, slot.tones);
    PerformRaises(s, c, slot.tones);
    TicksKeepPttPin(p, slot.ticks);
    PlayTicksHold(p, slot.ticks);
    if p.ptt.auto {
      DisjointPins(p, PlayTicks(p, slot.ticks));
    }
  }

  lemma {:induction false} TicksKeepPttPin(s: State, ticks: seq<Tick>)
    requires HasPttPin(s)
    ensures var t := PlayTicks(s, ticks); HasPttPin(t) && t.dev == s.dev && (!s.ptt.auto ==> !t.ptt.auto)
    decreases |ticks|
  {
    if ticks != [] {
      OneTickKeepsPttPin(s, ticks[0]);
      hide PlayTick, HasPttPin;
      TicksKeepPttPin(PlayTick(s, ticks[0]), ticks[1..]);
    }
  }

  lemma OneTickKeepsPttPin(s: State, tick: Tick)
    requires HasPttPin(s)
    ensures var t := PlayTick(s, tick); HasPttPin(t) && t.dev == s.dev && (!s.ptt.auto ==> !t.ptt.auto)
  {
    hide DriveLine;
  }

  lemma {:induction false} ExecRaises(s: State, cs: seq<Player.Command>, k: nat, schedule: Schedule)
    requires s.queue != "" && s.current.delay != 0 && AllHarmless(cs) && HasPttPin(s) && Player.PttOn in cs
    ensures PttPinOn(Exec(s, cs, k, schedule)) <==> !s.ptt.auto || PttPinOn(s)
    decreases |cs|
  {
    hide ExecOne, PttPinOn, HasPttPin, OtherLines;
    if s.ptt.auto {
      HeldPin(s, cs, k, schedule);
    } else {
      var t := ExecOne(s, cs[0], schedule(k));
      FirstPttOn(s, cs[0], schedule(k));
      OneHolds(s, cs[0], schedule(k));
      if t.ptt.auto {
        HeldPin(t, cs[1..], k + 1, schedule);
      } else {
        ExecRaises(t, cs[1..], k + 1, schedule);
      }
    }
  }

  lemma OneHolds(s: State, c: Player.Command, slot: Slot)
    requires s.queue != "" && Harmless(c)
    ensures InMessage(s, ExecOne(s, c, slot))
  {
    hide Perform, PlayTicks, OtherLines;
    PerformHolds(s, c, slot.tones);
    PlayTicksHold(Perform(s, c, slot.tones), slot.ticks);
  }

  lemma HeldPin(s: State, cs: seq<Player.Command>, k: nat, schedule: Schedule)
    requires s.queue != "" && s.ptt.auto && AllHarmless(cs) && HasPttPin(s)
    ensures PttPinOn(Exec(s, cs, k, schedule)) == PttPinOn(s)
  {
    hide Exec, OtherLines, PttPinOn, AllHarmless;
    ExecHolds(s, cs, k, schedule);
    DisjointPins(s, Exec(s, cs, k, schedule));
  }

  /** With valid pins on an open tty: once PTT has been asked for, and up to the last command, the PTT pin is up,
      unless the message arrived with automatic PTT on and the pin down, as after a switch to another tty. */
  lemma PinIsUpExactly(s: State, text: string, schedule: Schedule, n: nat)
    requires s.queue == "" && s.current.delay != 0 && HasPttPin(s)
    requires n < |Commands(s, text)| && Player.PttOn in Commands(s, text)[..n]
    ensures PttPinOn(After(s, text, n, schedule)) <==> !s.ptt.auto || PttPinOn(s)
  {
    hide Exec, Commands, AllHarmless, PttPinOn, HasPttPin;
    QueuedPin(s, text);
    PrefixIsHarmless(s, text, n);
    ExecRaises(s.(queue := text), Commands(s, text)[..n], 0, schedule);
  }

  lemma QueuedPin(s: State, text: string)
    ensures PttPinOn(s.(queue := text)) == PttPinOn(s) && HasPttPin(s.(queue := text)) == HasPttPin(s)
  {
  }

  lemma PrefixIsHarmless(s: State, text: string, n: nat)
    requires n < |Commands(s, text)| && Player.PttOn in Commands(s, text)[..n]
    ensures text != "" && AllHarmless(Commands(s, text)[..n])
  {
    hide Player.Interp, AllHarmless;
    var cs := Commands(s, text);
    assert Player.PttOn in cs;
    MessageIsHarmless(text, Player.Cursor(0, s.current.speed, s.libcw.gap));
    PartsAreHarmless(cs, n, n);
  }

  lemma PartsAreHarmless(cs: seq<Player.Command>, m: nat, n: nat)
    requires m <= n < |cs| && AllHarmless(cs[..|cs| - 1])
    ensures AllHarmless(cs[..m]) && AllHarmless(cs[m..n])
  {
    assert forall x :: x in cs[..m] ==> x in cs[..|cs| - 1];
    assert forall x :: x in cs[m..n] ==> x in cs[..|cs| - 1];
  }

  lemma ExecInParts(s: State, cs: seq<Player.Command>, m: nat, n: nat, k: nat, schedule: Schedule)
    requires m <= n <= |cs|
    ensures Exec(s, cs[..n], k, schedule) == Exec(Exec(s, cs[..m], k, schedule), cs[m..n], k + m, schedule)
  {
    hide *;
    assert cs[..n] == cs[..m] + cs[m..n];
    ExecSplits(s, cs[..m], cs[m..n], k, schedule);
  }

  lemma {:induction false} ExecSameDevices(s: State, cs: seq<Player.Command>, k: nat, schedule: Schedule)
    ensures Exec(s, cs, k, schedule).dev == s.dev
    decreases |cs|
  {
    hide Perform, PlayTicks;
    if cs != [] {
      PerformKeepsDesk(s, cs[0], schedule(k).tones);
      TicksSameDevices(Perform(s, cs[0], schedule(k).tones), schedule(k).ticks);
      ExecSameDevices(ExecOne(s, cs[0], schedule(k)), cs[1..], k + 1, schedule);
    }
  }

  // ---------- why the pins have to differ ----------

  /** libcw keys a tty. */
  predicate Keys(s: State) {
    s.libcw.keying == Some(Tty) && s.libcw.gen.Running? && s.dev.current.Tty? && s.dev.ttyFd in s.os.open.Keys
  }

  lemma {:induction false} TicksKeepKeys(s: State, ticks: seq<Tick>)
    requires Keys(s)
    ensures Keys(PlayTicks(s, ticks)) && PlayTicks(s, ticks).dev == s.dev
    decreases |ticks|
  {
    if ticks != [] {
      assert Keys(PlayTick(s, ticks[0])) && PlayTick(s, ticks[0]).dev == s.dev;
      hide Keys, PlayTick;
      TicksKeepKeys(PlayTick(s, ticks[0]), ticks[1..]);
    }
  }

  lemma PerformKeepsKeys(s: State, c: Player.Command, tones: nat)
    requires Keys(s)
    ensures var p := Perform(s, c, tones);
      Keys(p) && p.dev == s.dev && (c.Send? ==> p.libcw.tones >= tones)
  {
    hide DriveLine;
  }

  lemma {:induction false} ExecKeepsKeys(s: State, cs: seq<Player.Command>, k: nat, schedule: Schedule)
    requires Keys(s)
    ensures Keys(Exec(s, cs, k, schedule)) && Exec(s, cs, k, schedule).dev == s.dev
    decreases |cs|
  {
    if cs != [] {
      hide Keys, Perform, PlayTicks;
      var p := Perform(s, cs[0], schedule(k).tones);
      PerformKeepsKeys(s, cs[0], schedule(k).tones);
      TicksKeepKeys(p, schedule(k).ticks);
      ExecKeepsKeys(ExecOne(s, cs[0], schedule(k)), cs[1..], k + 1, schedule);
    }
  }

  /** On a shared line the end of a mark lowers the PTT pin, and the start of one raises it. */
  lemma MarkMovesPin(s: State, c: Player.Command, slot: Slot)
    requires Keys(s) && !OptValidate(s.dev.pins) && slot.tones > 0
    ensures slot.ticks == [Mark(false)] ==> !PttPinOn(ExecOne(s, c, slot))
    ensures slot.ticks == [Mark(true)] && c.Send? ==> PttPinOn(ExecOne(s, c, slot))
  {
    hide Perform;
    var p := Perform(s, c, slot.tones);
    PerformKeepsKeys(s, c, slot.tones);
    if |slot.ticks| == 1 {
      assert slot.ticks[1..] == [];
      assert PlayTicks(p, slot.ticks) == KeyingEvent(p, slot.ticks[0] == Mark(true)) || slot.ticks[0].Tone?;
    }
  }

  lemma OneMore(s: State, text: string, n: nat, schedule: Schedule)
    requires n < |Commands(s, text)|
    ensures After(s, text, n + 1, schedule) == ExecOne(After(s, text, n, schedule), Commands(s, text)[n], schedule(n))
  {
    hide Exec, ExecOne, Player.Interp;
    var cs := Commands(s, text);
    ExecInParts(s.(queue := text), cs, n, n + 1, 0, schedule);
    assert cs[n..n + 1] == [cs[n]];
    ExecSingle(After(s, text, n, schedule), cs[n], n, schedule);
  }

  /** The schedule in which libcw keys once, right after the j-th command. */
  function MarkAt(j: nat): Schedule { (k: nat) => Slot(1, [Mark(k == j)]) }

  lemma PinMoves(s: State, text: string, j: nat)
    requires Keys(s) && !OptValidate(s.dev.pins)
    requires 0 < j < |Commands(s, text)| && Commands(s, text)[j - 1] == Player.PttOn && Commands(s, text)[j].Send?
    ensures !PttPinOn(After(s, text, j, MarkAt(j))) && PttPinOn(After(s, text, j + 1, MarkAt(j)))
  {
    var cs := Commands(s, text);
    var x, a := After(s, text, j - 1, MarkAt(j)), After(s, text, j, MarkAt(j));
    ExecKeepsKeys(s.(queue := text), cs[..j - 1], 0, MarkAt(j));
    ExecKeepsKeys(s.(queue := text), cs[..j], 0, MarkAt(j));
    OneMore(s, text, j - 1, MarkAt(j));
    OneMore(s, text, j, MarkAt(j));
    hide After, Commands, Keys, PttPinOn;
    MarkMovesPin(x, cs[j - 1], MarkAt(j)(j - 1));
    MarkMovesPin(a, cs[j], MarkAt(j)(j));
  }

  /** On every schedule, the PTT pin stays put from the first character to the end of the message. */
  ghost predicate PinHolds(s: State, text: string) {
    forall schedule, m: nat, n: nat | m <= n < |Commands(s, text)| && Player.PttOn in Commands(s, text)[..m] ::
      PttPinOn(After(s, text, n, schedule)) == PttPinOn(After(s, text, m, schedule))
  }

  /** While libcw keys a tty, that holds for a text with something to key if and only if the pins pass
      validation. */
  lemma PinHoldsExactly(s: State, text: string)
    requires s.queue == "" && s.current.delay != 0 && Keys(s)
    requires Player.Keyed(Commands(s, text)) != ""
    ensures PinHolds(s, text) <==> OptValidate(s.dev.pins)
  {
    hide After, Keys, PttPinOn;
    if OptValidate(s.dev.pins) {
      forall schedule, m: nat, n: nat | m <= n < |Commands(s, text)| && Player.PttOn in Commands(s, text)[..m]
        ensures PttPinOn(After(s, text, n, schedule)) == PttPinOn(After(s, text, m, schedule))
      {
        NoPttDropInsideMessage(s, text, schedule, m, n);
      }
    } else {
      var cs := Commands(s, text);
      var j := Player.KeyedMeansSent(cs);
      Player.InterpPttBeforeSend(text, Player.Cursor(0, s.current.speed, s.libcw.gap));
      assert cs[..j][j - 1] == Player.PttOn;
      PinMoves(s, text, j);
      assert cs[|cs| - 1] == Player.Cut(0);
    }
  }

  // ---------- release ----------

  /** The next tone that libcw finishes makes it call back. */
  predicate CallbackDue(s: State) { s.libcw.gen.Running? && s.libcw.lowCallback && s.libcw.tones == 2 }

  function Tones(ticks: seq<Tick>): nat {
    if ticks == [] then 0 else (if ticks[0].Tone? then 1 else 0) + Tones(ticks[1..])
  }

  /** How many low-queue callbacks happen meanwhile. */
  function Callbacks(s: State, ticks: seq<Tick>): nat
    decreases |ticks|
  {
    if ticks == [] then 0
    else (if ticks[0].Tone? && CallbackDue(s) then 1 else 0) + Callbacks(PlayTick(s, ticks[0]), ticks[1..])
  }

  /** The tones that have to be played: up to the first callback, and two more after a reply. */
  function TonesToRelease(s: State): nat {
    if s.libcw.tones < 2 then 0 else s.libcw.tones - 1 + (if s.ptt.auto && s.ptt.echo then 2 else 0)
  }

  function CallbacksToRelease(s: State): nat {
    if s.libcw.tones < 2 then 0 else if s.ptt.auto && s.ptt.echo then 2 else 1
  }

  /** What is sent while PTT is released. */
  predicate SendsFinalReply(s: State, t: State) {
    if s.ptt.echo then
      |t.mail| == |s.mail| + 1 && t.mail[..|s.mail|] == s.mail
      && t.mail[|s.mail|].Sent? && t.mail[|s.mail|].address == s.replyAddress
      && t.mail[|s.mail|].text == s.reply + "\r\n"
    else t.mail == s.mail
  }

  /** Nobody holds PTT, and libcw has enough to play to release it. */
  ghost predicate Releasing(s: State) {
    && Behaviour(s) && s.alive && s.hasAudio && s.queue == "" && !s.ptt.manual
    && (s.libcw.tones < 2 ==> s.ptt == PTT_IDLE)
  }

  /** One tick: a tone brings the release nearer by one, a mark leaves it where it is. */
  lemma TickReleases(s: State, tick: Tick)
    requires Releasing(s)
    ensures var t := PlayTick(s, tick);
      && t.alive && t.hasAudio && t.queue == "" && !t.ptt.manual && (t.libcw.tones < 2 ==> t.ptt == PTT_IDLE)
      && TonesToRelease(s) == TonesToRelease(t) + (if tick.Tone? && s.libcw.tones >= 2 then 1 else 0)
      && CallbacksToRelease(s) == CallbacksToRelease(t) + (if tick.Tone? && CallbackDue(s) then 1 else 0)
    ensures var t := PlayTick(s, tick);
      if tick.Tone? && CallbackDue(s) then SendsFinalReply(s, t) && !t.ptt.echo
      else t.mail == s.mail && t.ptt.echo == s.ptt.echo && t.reply == s.reply && t.replyAddress == s.replyAddress
  {
    hide DriveLine;
  }

  lemma {:induction false} Released(s: State, ticks: seq<Tick>)
    requires Releasing(s) && Tones(ticks) >= TonesToRelease(s)
    ensures var t := PlayTicks(s, ticks);
      t.ptt == PTT_IDLE && Callbacks(s, ticks) == CallbacksToRelease(s) && SendsFinalReply(s, t)
    decreases |ticks|
  {
    hide Behaviour, PlayTick, CallbackDue;
    if ticks != [] {
      PlayTickKeeps(s, ticks[0]);
      TickReleases(s, ticks[0]);
      Released(PlayTick(s, ticks[0]), ticks[1..]);
    }
  }

  /** With tones in the queue and no manual PTT, playing them releases PTT, whatever marks libcw makes meanwhile:
      one callback, or two when a reply is pending under automatic PTT, because the two tones queued after the
      reply make the second one due. The pending reply is sent once on the way, and nothing else is. */
  lemma ReleasedWithinTwoCallbacks(s: State, ticks: seq<Tick>)
    requires Inv(s) && s.alive && s.hasAudio && !s.ptt.manual && s.libcw.tones >= 2
    requires Tones(ticks) >= TonesToRelease(s)
    ensures var t := PlayTicks(s, ticks);
      && t.ptt == PTT_IDLE
      && (OptValidate(t.dev.pins) ==> !PttPinOn(t))
      && Callbacks(s, ticks) == (if s.ptt.auto && s.ptt.echo then 2 else 1)
      && SendsFinalReply(s, t)
  {
    hide Callbacks, PlayTicks, PttPinOn, SendsFinalReply;
    Released(s, ticks);
    PlayTicksKeeps(s, ticks);
    IdleMeansPinOff(PlayTicks(s, ticks));
  }

  lemma IdleMeansPinOff(t: State)
    requires Behaviour(t) && t.ptt == PTT_IDLE
    ensures OptValidate(t.dev.pins) ==> !PttPinOn(t)
  {
  }

  /** Without that, PTT stays as it is. */
  lemma {:induction false} NeverReleased(s: State, ticks: seq<Tick>)
    requires s.ptt.manual || !s.libcw.gen.Running? || s.libcw.tones < 2
    ensures var t := PlayTicks(s, ticks);
      t.ptt.auto == s.ptt.auto && t.ptt.manual == s.ptt.manual && (s.ptt.echo && !s.ptt.manual ==> t.ptt.echo)
    decreases |ticks|
  {
    if ticks != [] {
      OneTickReleasesNot(s, ticks[0]);
      hide PlayTick;
      NeverReleased(PlayTick(s, ticks[0]), ticks[1..]);
    }
  }

  lemma OneTickReleasesNot(s: State, tick: Tick)
    requires s.ptt.manual || !s.libcw.gen.Running? || s.libcw.tones < 2
    ensures var t := PlayTick(s, tick);
      && t.ptt.auto == s.ptt.auto && t.ptt.manual == s.ptt.manual && (s.ptt.echo && !s.ptt.manual ==> t.ptt.echo)
      && (t.ptt.manual || !t.libcw.gen.Running? || t.libcw.tones < 2)
  {
    hide DriveLine;
  }

  function Silence(n: nat): (ticks: seq<Tick>)
    ensures Tones(ticks) == n
  {
    if n == 0 then [] else [Tone] + Silence(n - 1)
  }

  /** PTT comes off some time, if libcw is left alone to play. */
  ghost predicate ComesOff(s: State) { exists ticks :: PlayTicks(s, ticks).ptt == PTT_IDLE }

  /** Left alone after a message, PTT is released exactly if it was not on, or nobody holds it manually and libcw
      still has two tones to play. */
  lemma ReleasedExactly(s: State)
    requires Inv(s) && s.alive
    ensures ComesOff(s) <==> s.ptt == PTT_IDLE || (s.hasAudio && !s.ptt.manual && s.libcw.tones >= 2)
  {
    hide PlayTicks, Callbacks, PttPinOn, SendsFinalReply;
    if s.ptt == PTT_IDLE {
      NoTicks(s);
    } else if s.hasAudio && !s.ptt.manual && s.libcw.tones >= 2 {
      ReleasedWithinTwoCallbacks(s, Silence(TonesToRelease(s)));
    } else {
      forall ticks ensures PlayTicks(s, ticks).ptt != PTT_IDLE {
        NeverReleased(s, ticks);
      }
    }
  }

  lemma NoTicks(s: State)
    ensures PlayTicks(s, []) == s
  {
  }
}
