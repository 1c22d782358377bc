/** Which descriptor number the tty has got makes no difference but in the ioctls themselves. So a RESET can also be
    compared with a daemon that was started with nothing but the current device and its `-o` options. */
module Renaming {
  import opened Basics
  import opened DriverOptions
  import opened World
  import opened Machine
  import opened Safety
  import opened DeviceBooks
  import opened KeyingTarget
  import opened Restart
  import Decimal
  import Player

  /** The descriptor open when the comparison starts has its own new number; those opened later are shifted. */
  datatype Renumbering = Renumbering(was: int, now: int, shift: int)

  function Renumber(r: Renumbering, fd: int): int { if fd == r.was then r.now else fd + r.shift }

  function RenameAction(r: Renumbering, a: Action): Action {
    match a
    case Ioctl(fd, line, on) => Ioctl(Renumber(r, fd), line, on)
    case Cw(call) => a
  }

  function RenameAll(r: Renumbering, out: seq<Action>): seq<Action> {
    seq(|out|, k requires 0 <= k < |out| => RenameAction(r, out[k]))
  }

  function RenameTrace(r: Renumbering, trace: seq<Deeds>): seq<Deeds> {
    seq(|trace|, k requires 0 <= k < |trace| => Deeds(RenameAll(r, trace[k].out), trace[k].mail))
  }

  /** Two states that differ in descriptor numbers, names and the state of the lines only. */
  predicate Twin(r: Renumbering, a: State, b: State) {
    && b == a.(dev := b.dev, os := b.os, out := b.out)
    && b.dev.current == a.dev.current && b.dev.pins == a.dev.pins
    && b.os.opens == a.os.opens + r.shift && r.was < a.os.opens
    && (a.alive && a.dev.current.Tty? ==> b.dev.ttyFd == Renumber(r, a.dev.ttyFd))
    && (a.alive && a.libcw.keying == Some(Tty) ==> a.dev.current.Tty?)
    && b.out == RenameAll(r, a.out)
  }

  // ---------- primitives ----------

  lemma RenameOneMore(r: Renumbering, out: seq<Action>, x: Action)
    ensures RenameAll(r, out + [x]) == RenameAll(r, out) + [RenameAction(r, x)]
  {
  }

  lemma TwinCall(r: Renumbering, a: State, b: State, c: CwCall)
    requires Twin(r, a, b) && (c == RegisterKeying(Some(Tty)) ==> a.dev.current.Tty?)
    ensures Twin(r, Call(a, c), Call(b, c))
  {
    hide RenameAll, Renumber;
    RenameOneMore(r, a.out, Cw(c));
  }

  lemma TwinDrive(r: Renumbering, a: State, b: State, line: Option<Line>, on: bool)
    requires Twin(r, a, b) && a.alive && a.dev.current.Tty?
    ensures Twin(r, DriveLine(a, line, on), DriveLine(b, line, on))
  {
    hide RenameAll, Renumber;
    if line.Some? {
      RenameOneMore(r, a.out, Ioctl(a.dev.ttyFd, line.value, on));
    }
  }

  lemma TwinReset(r: Renumbering, a: State, b: State)
    requires Twin(r, a, b) && a.alive && a.dev.current.Tty?
    ensures Twin(r, TtyReset(a), TtyReset(b))
  {
    hide Twin, DriveLine;
    TwinMeans(r, a, b);
    TwinDrive(r, a, b, a.dev.pins.key, false);
    var c, d := DriveLine(a, a.dev.pins.key, false), DriveLine(b, a.dev.pins.key, false);
    TwinDrive(r, c, d, a.dev.pins.ptt, false);
  }

  /** What twins share. */
  lemma TwinMeans(r: Renumbering, a: State, b: State)
    requires Twin(r, a, b)
    ensures b == a.(dev := b.dev, os := b.os, out := b.out) && |b.out| == |a.out|
    ensures b.dev.current == a.dev.current && b.dev.pins == a.dev.pins
  {
  }

  lemma TwinDevPtt(r: Renumbering, a: State, b: State, on: bool)
    requires Twin(r, a, b) && a.alive
    ensures Twin(r, DevPtt(a, on), DevPtt(b, on))
  {
    hide Twin, DriveLine;
    TwinMeans(r, a, b);
    if a.dev.current.Tty? {
      TwinDrive(r, a, b, a.dev.pins.ptt, on);
    }
  }

  lemma TwinSetPtt(r: Renumbering, a: State, b: State)
    requires Twin(r, a, b) && a.alive
    ensures Twin(r, SetPttOn(a), SetPttOn(b)) && Twin(r, SetPttOff(a), SetPttOff(b))
  {
    hide RenameAll, Renumber, DriveLine;
    TwinDevPtt(r, a, b, true);
    TwinDevPtt(r, a, b, false);
  }

  // ---------- libcw's thread and the player ----------

  lemma TwinSendReply(r: Renumbering, a: State, b: State)
    requires Twin(r, a, b)
    ensures Twin(r, SendReply(a), SendReply(b))
  {
    hide RenameAll, Renumber, Call, BoundedAppend;
    TwinMeans(r, a, b);
    var text := BoundedAppend(a.reply, CRLF, REPLY_SIZE_MAX);
    var letters := a.mail + [Sent(|a.out|, a.replyAddress, text)];
    var ptt := a.ptt.(echo := false);
    var c, d := a.(ptt := ptt, reply := text, mail := letters), b.(ptt := ptt, reply := text, mail := letters);
    TwinCall(r, c, d, QueueTone(1, 0));
    TwinCall(r, Call(c, QueueTone(1, 0)), Call(d, QueueTone(1, 0)), QueueTone(1, 0));
  }

  lemma TwinPlayTone(r: Renumbering, a: State, b: State)
    requires Twin(r, a, b) && a.alive
    ensures Twin(r, PlayTone(a), PlayTone(b))
  {
    hide RenameAll, Renumber, SetPttOff, SendReply;
    var n := if a.libcw.tones > 0 then a.libcw.tones - 1 else 0;
    var c, d := a.(libcw := a.libcw.(tones := n)), b.(libcw := b.libcw.(tones := n));
    TwinSetPtt(r, c, d);
    TwinSendReply(r, c, d);
  }

  lemma TwinTick(r: Renumbering, a: State, b: State, tick: Tick)
    requires Twin(r, a, b) && a.alive
    ensures Twin(r, PlayTick(a, tick), PlayTick(b, tick))
  {
    hide RenameAll, Renumber, PlayTone, DriveLine;
    match tick
    case Tone => TwinPlayTone(r, a, b);
    case Mark(on) =>
      if a.dev.current.Tty? {
        TwinDrive(r, a, b, a.dev.pins.key, on);
      }
  }

  lemma TickAlive(s: State, tick: Tick)
    ensures PlayTick(s, tick).alive == s.alive
  {
  }

  lemma {:induction false} TwinTicks(r: Renumbering, a: State, b: State, ticks: seq<Tick>)
    requires Twin(r, a, b) && a.alive
    ensures Twin(r, PlayTicks(a, ticks), PlayTicks(b, ticks)) && PlayTicks(a, ticks).alive
    decreases |ticks|
  {
    hide Twin, PlayTick;
    if ticks != [] {
      TwinTick(r, a, b, ticks[0]);
      TickAlive(a, ticks[0]);
      TwinTicks(r, PlayTick(a, ticks[0]), PlayTick(b, ticks[0]), ticks[1..]);
    }
  }

  lemma TwinPerform(r: Renumbering, a: State, b: State, c: Player.Command, tones: nat)
    requires Twin(r, a, b) && a.alive
    ensures Twin(r, Perform(a, c, tones), Perform(b, c, tones)) && Perform(a, c, tones).alive
  {
    hide RenameAll, Renumber, Call, SetPttOn;
    match c
    case Speed(wpm) =>
      var p := a.current.(speed := wpm);
      TwinCall(r, a.(current := p), b.(current := p), SetSpeed(wpm));
    case Gap(dots) => TwinCall(r, a, b, SetGap(dots));
    case PttOn => TwinSetPtt(r, a, b);
    case Send(ch) => TwinCall(r, a, b, SendCharacter(ch, tones));
    case _ =>
  }

  lemma {:induction false} TwinExec(r: Renumbering, a: State, b: State, cs: seq<Player.Command>, k: nat,
                                    schedule: Schedule)
    requires Twin(r, a, b) && a.alive
    ensures Twin(r, Exec(a, cs, k, schedule), Exec(b, cs, k, schedule))
    decreases |cs|
  {
    hide Twin, Perform, PlayTicks;
    if cs != [] {
      var c, d := Perform(a, cs[0], schedule(k).tones), Perform(b, cs[0], schedule(k).tones);
      TwinPerform(r, a, b, cs[0], schedule(k).tones);
      TwinTicks(r, c, d, schedule(k).ticks);
      TwinExec(r, ExecOne(a, cs[0], schedule(k)), ExecOne(b, cs[0], schedule(k)), cs[1..], k + 1, schedule);
    }
  }

  lemma TwinText(r: Renumbering, a: State, b: State, text: string, schedule: Schedule)
    requires Twin(r, a, b) && a.alive
    ensures Twin(r, TextRequest(a, text, schedule), TextRequest(b, text, schedule))
  {
    hide RenameAll, Renumber, Exec, Player.Interp;
    var c, d := a.(queue := a.queue + text), b.(queue := b.queue + text);
    TwinExec(r, c, d, Player.Interp(c.queue, Player.Cursor(0, c.current.speed, c.libcw.gap)), 0, schedule);
  }

  // ---------- requests ----------

  lemma TwinOpen(r: Renumbering, a: State, b: State, system: AudioSystem, o: OpenResult)
    requires Twin(r, a, b)
    ensures Twin(r, OpenOutput(CloseOutput(a), system, o), OpenOutput(CloseOutput(b), system, o))
  {
    hide Twin, Call;
    TwinCall(r, a, b, StopGenerator);
    var a1, b1 := Call(a, StopGenerator), Call(b, StopGenerator);
    TwinCall(r, a1, b1, DeleteGenerator);
    var a2, b2 := Call(a1, DeleteGenerator), Call(b1, DeleteGenerator);
    TwinCall(r, a2, b2, NewGenerator(system, !o.CreateFailed?));
    var a3, b3 := Call(a2, NewGenerator(system, !o.CreateFailed?)), Call(b2, NewGenerator(system, !o.CreateFailed?));
    TwinCall(r, a3, b3, StartGenerator(o.Opened?));
  }

  lemma TwinConfigure(r: Renumbering, a: State, b: State, p: Params)
    requires Twin(r, a, b)
    ensures var c, d := ConfigureOutput(a, p), ConfigureOutput(b, p);
      Twin(r, Call(c, RegisterKeying(Some(a.dev.current))), Call(d, RegisterKeying(Some(b.dev.current))))
  {
    hide Twin, Call;
    TwinMeans(r, a, b);
    TwinCall(r, a, b, RegisterLowCallback);
    var a1, b1 := Call(a, RegisterLowCallback), Call(b, RegisterLowCallback);
    TwinCall(r, a1, b1, SetFrequency(p.tone));
    var a2, b2 := Call(a1, SetFrequency(p.tone)), Call(b1, SetFrequency(p.tone));
    TwinCall(r, a2, b2, SetSpeed(p.speed));
    var a3, b3 := Call(a2, SetSpeed(p.speed)), Call(b2, SetSpeed(p.speed));
    TwinCall(r, a3, b3, SetVolume(p.volume));
    var a4, b4 := Call(a3, SetVolume(p.volume)), Call(b3, SetVolume(p.volume));
    TwinCall(r, a4, b4, SetGap(0));
    var a5, b5 := Call(a4, SetGap(0)), Call(b4, SetGap(0));
    var w := SetWeighting(LibcwWeighting(p.weighting));
    TwinCall(r, a5, b5, w);
    TwinCall(r, Call(a5, w), Call(b5, w), RegisterKeying(Some(a.dev.current)));
  }

  lemma TwinResetAlmostAll(r: Renumbering, a: State, b: State, o: OpenResult)
    requires Twin(r, a, b)
    ensures Twin(r, ResetAlmostAll(a, o), ResetAlmostAll(b, o))
  {
    hide RenameAll, Renumber, Call, OpenOutput, CloseOutput;
    var p := a.defaults;
    var a1, b1 := a.(current := p), b.(current := p);
    TwinOpen(r, a1, b1, p.system, o);
    var a2, b2 := OpenOutput(CloseOutput(a1), p.system, o), OpenOutput(CloseOutput(b1), p.system, o);
    var a3, b3 := a2.(hasAudio := true), b2.(hasAudio := true);
    TwinConfigure(r, a3, b3, p);
    ResetOpened(a, o);
    ResetOpened(b, o);
  }

  /** Setting the flag before or after the calls makes no difference. */
  lemma ResetOpened(s: State, o: OpenResult)
    ensures var p := s.defaults; var t := OpenOutput(CloseOutput(s.(current := p)), p.system, o);
      ResetAlmostAll(s, o) ==
        if o.Opened? then
          Call(ConfigureOutput(t.(hasAudio := true), p), RegisterKeying(Some(s.dev.current)))
        else t.(hasAudio := false)
  {
    hide OpenOutput, CloseOutput;
  }

  lemma TwinResetRequest(r: Renumbering, a: State, b: State, o: OpenResult)
    requires Twin(r, a, b) && a.alive
    ensures Twin(r, Reset(a, o), Reset(b, o))
  {
    hide RenameAll, Renumber, ResetAlmostAll, TtyReset;
    TwinResetAlmostAll(r, a.(queue := ""), b.(queue := ""), o);
    var c := ResetAlmostAll(a.(queue := ""), o).(wordmode := false);
    var d := ResetAlmostAll(b.(queue := ""), o).(wordmode := false);
    assert Twin(r, c, d);
    TwinDevReset(r, c, d);
    TwinIdle(r, DevReset(c), DevReset(d));
  }

  lemma TwinIdle(r: Renumbering, a: State, b: State)
    requires Twin(r, a, b)
    ensures Twin(r, a.(ptt := PTT_IDLE), b.(ptt := PTT_IDLE))
  {
  }

  lemma TwinDevReset(r: Renumbering, a: State, b: State)
    requires Twin(r, a, b) && a.alive
    ensures Twin(r, DevReset(a), DevReset(b))
  {
    hide Twin, TtyReset;
    TwinMeans(r, a, b);
    if a.dev.current.Tty? {
      TwinReset(r, a, b);
    }
  }

  lemma TwinSetTone(r: Renumbering, a: State, b: State, hz: int)
    requires Twin(r, a, b)
    ensures Twin(r, SetTone(a, hz), SetTone(b, hz))
  {
    hide RenameAll, Renumber, Call;
    var p := a.current.(tone := hz);
    var c, d := a.(current := p), b.(current := p);
    TwinCall(r, c, d, SetFrequency(hz));
    TwinCall(r, Call(c, SetFrequency(hz)), Call(d, SetFrequency(hz)), SetVolume(p.volume));
    TwinCall(r, c, d, SetVolume(0));
  }

  /** The requests that set one parameter and tell libcw. */
  lemma TwinParameter(r: Renumbering, a: State, b: State, p: Params, c: CwCall)
    requires Twin(r, a, b) && !c.RegisterKeying?
    ensures Twin(r, Call(a.(current := p), c), Call(b.(current := p), c))
  {
    hide RenameAll, Renumber, Call;
    TwinCall(r, a.(current := p), b.(current := p), c);
  }

  lemma TwinSpeed(r: Renumbering, a: State, b: State, payload: string)
    requires Twin(r, a, b)
    ensures Twin(r, SpeedRequest(a, payload), SpeedRequest(b, payload))
  {
    hide Twin, Call, Machine.InRange;
    TwinMeans(r, a, b);
    var v := Machine.InRange(payload, CW.speedMin, CW.speedMax);
    if v.Some? {
      TwinParameter(r, a, b, a.current.(speed := v.value), SetSpeed(v.value));
    }
  }

  lemma TwinTone(r: Renumbering, a: State, b: State, payload: string)
    requires Twin(r, a, b)
    ensures Twin(r, ToneRequest(a, payload), ToneRequest(b, payload))
  {
    hide Twin, SetTone, Machine.InRange;
    var v := Machine.InRange(payload, 0, CW.frequencyMax);
    if v.Some? {
      TwinSetTone(r, a, b, v.value);
    }
  }

  lemma TwinWeighting(r: Renumbering, a: State, b: State, payload: string)
    requires Twin(r, a, b)
    ensures Twin(r, WeightingRequest(a, payload), WeightingRequest(b, payload))
  {
    hide Twin, Call, Machine.InRange;
    TwinMeans(r, a, b);
    var v := Machine.InRange(payload, -50, 50);
    if v.Some? {
      TwinParameter(r, a, b, a.current.(weighting := v.value), SetWeighting(LibcwWeighting(v.value)));
    }
  }

  lemma TwinVolume(r: Renumbering, a: State, b: State, payload: string)
    requires Twin(r, a, b)
    ensures Twin(r, VolumeRequest(a, payload), VolumeRequest(b, payload))
  {
    hide Twin, Call, Machine.InRange;
    TwinMeans(r, a, b);
    var v := Machine.InRange(payload, CW.volumeMin, CW.volumeMax);
    if v.Some? {
      TwinParameter(r, a, b, a.current.(volume := v.value), SetVolume(v.value));
    }
  }

  lemma TwinAbort(r: Renumbering, a: State, b: State)
    requires Twin(r, a, b) && a.alive
    ensures Twin(r, Abort(a), Abort(b))
  {
    hide RenameAll, Renumber, Call, SetPttOff;
    TwinMeans(r, a, b);
    var letters := if a.ptt.echo then a.mail + [Sent(|a.out|, a.replyAddress, BREAK)] else a.mail;
    var c, d := a.(mail := letters, queue := ""), b.(mail := letters, queue := "");
    TwinCall(r, c, d, FlushQueue);
    var c1, d1 := Call(c, FlushQueue), Call(d, FlushQueue);
    TwinCall(r, c1, d1, WaitForQueue);
    var c2, d2 := Call(c1, WaitForQueue), Call(d1, WaitForQueue);
    TwinSetPtt(r, c2, d2);
    TwinIdle(r, c2, d2);
    TwinIdle(r, SetPttOff(c2), SetPttOff(d2));
  }

  lemma TwinManual(r: Renumbering, a: State, b: State)
    requires Twin(r, a, b) && a.alive
    ensures Twin(r, ManualOn(a), ManualOn(b)) && Twin(r, ManualOff(a), ManualOff(b))
  {
    hide Twin, ManualOn, ManualOff;
    TwinManualOn(r, a, b);
    TwinManualOff(r, a, b);
  }

  lemma TwinManualOn(r: Renumbering, a: State, b: State)
    requires Twin(r, a, b) && a.alive
    ensures Twin(r, ManualOn(a), ManualOn(b))
  {
    hide RenameAll, Renumber, SetPttOn;
    TwinSetPtt(r, a, b);
  }

  lemma TwinManualOff(r: Renumbering, a: State, b: State)
    requires Twin(r, a, b) && a.alive
    ensures Twin(r, ManualOff(a), ManualOff(b))
  {
    hide RenameAll, Renumber, SetPttOff;
    var ptt := a.ptt.(manual := false);
    TwinSetPtt(r, a.(ptt := ptt), b.(ptt := ptt));
  }

  lemma TwinDelay(r: Renumbering, a: State, b: State, payload: string)
    requires Twin(r, a, b) && a.alive
    ensures Twin(r, DelayRequest(a, payload), DelayRequest(b, payload))
  {
    hide RenameAll, Renumber, SetPttOff, ParseDelay;
    var v := ParseDelay(payload);
    if !v.Rejection? {
      var p := a.current.(delay := v.ms);
      TwinSetPtt(r, a.(current := p), b.(current := p));
    }
  }

  lemma {:induction false} TwinQueueTones(r: Renumbering, a: State, b: State, us: nat, hz: int, n: nat)
    requires Twin(r, a, b)
    ensures Twin(r, QueueTones(a, us, hz, n), QueueTones(b, us, hz, n))
  {
    hide Twin, Call;
    if n > 0 {
      TwinQueueTones(r, a, b, us, hz, n - 1);
      TwinCall(r, QueueTones(a, us, hz, n - 1), QueueTones(b, us, hz, n - 1), QueueTone(us, hz));
    }
  }

  lemma TwinTune(r: Renumbering, a: State, b: State, payload: string, tones: nat)
    requires Twin(r, a, b) && a.alive
    ensures Twin(r, TuneRequest(a, payload, tones), TuneRequest(b, payload, tones))
  {
    hide Twin, Call, SetPttOn, QueueTones, Machine.InRange;
    var v := Machine.InRange(payload, 0, TUNE_SECONDS_MAX);
    if v.Some? && v.value > 0 {
      TwinCall(r, a, b, FlushQueue);
      var c, d := Call(a, FlushQueue), Call(b, FlushQueue);
      TwinSetPtt(r, c, d);
      var c1, d1 := SetPttOn(c), SetPttOn(d);
      TwinMeans(r, c1, d1);
      TwinQueueTones(r, c1, d1, 1_000_000, c1.current.tone, v.value);
      var c2 := QueueTones(c1, 1_000_000, c1.current.tone, v.value);
      var d2 := QueueTones(d1, 1_000_000, d1.current.tone, v.value);
      TwinCall(r, c2, d2, SendCharacter('e', tones));
    }
  }

  lemma TwinReopen(r: Renumbering, a: State, b: State, system: AudioSystem, env: Env)
    requires Twin(r, a, b)
    ensures Twin(r, Reopen(a, system, env), Reopen(b, system, env))
  {
    hide RenameAll, Renumber, OpenOutput, CloseOutput;
    var p := a.current.(system := system);
    var c, d := a.(current := p), b.(current := p);
    TwinOpen(r, c, d, system, env.open);
    var c1, d1 := OpenOutput(CloseOutput(c), system, env.open), OpenOutput(CloseOutput(d), system, env.open);
    TwinOpen(r, c1, d1, NullAudio, env.fallback);
  }

  lemma TwinSoundSystem(r: Renumbering, a: State, b: State, payload: string, env: Env)
    requires Twin(r, a, b)
    ensures Twin(r, SoundSystemRequest(a, payload, env), SoundSystemRequest(b, payload, env))
  {
    hide Twin, Call, Reopen, ConfigureOutput;
    var system := ParseSystem(payload);
    if system.Some? {
      TwinReopen(r, a, b, system.value, env);
      var c, d := Reopen(a, system.value, env), Reopen(b, system.value, env);
      TwinMeans(r, c, d);
      TwinConfigure(r, c, d, c.current);
    }
  }

  // ---------- devices ----------

  /** Closing the old device resets it first. */
  lemma FreedTwins(r: Renumbering, a: State, b: State)
    requires Twin(r, a, b) && a.alive
    ensures var x, y := DevFree(a), DevFree(b);
      && y == x.(dev := y.dev, os := y.os, out := y.out)
      && y.dev.current == x.dev.current && y.dev.pins == x.dev.pins
      && y.os.opens == x.os.opens + r.shift && x.os.opens == a.os.opens
      && y.out == RenameAll(r, x.out) && x.alive && x.libcw == a.libcw
  {
    hide RenameAll, Renumber, DriveLine;
    if a.dev.current.Tty? {
      TwinReset(r, a, b);
    }
  }

  lemma TwinSwitch(r: Renumbering, a: State, b: State, name: string, probe: Probe)
    requires Twin(r, a, b) && a.alive && a.libcw.keying == None
    ensures Twin(r, CwdeviceSet(a, name, probe), CwdeviceSet(b, name, probe))
  {
    hide RenameAll, Renumber, DevFree, Renamed, TtyReset;
    var k := if probe.IsTty? then Tty else NullDevice;
    var a1, b1 := Probed(a, probe), Probed(b, probe);
    ProbedTwins(r, a, b, probe);
    FreedTwins(r, a1, b1);
    var a2, b2 := DevFree(a1), DevFree(b1);
    var a3, b3 := Renamed(a2, a.dev.current, k, name), Renamed(b2, a.dev.current, k, name);
    RenamedFrame(a2, a.dev.current, k, name);
    RenamedFrame(b2, a.dev.current, k, name);
    if probe.IsTty? {
      var c, d := a3.(dev := a3.dev.(current := k, ttyFd := a.os.opens)),
                  b3.(dev := b3.dev.(current := k, ttyFd := b.os.opens));
      NewNumber(r, a.os.opens);
      assert Twin(r, c, d);
      TwinReset(r, c, d);
    }
  }

  lemma NewNumber(r: Renumbering, fd: int)
    requires r.was < fd
    ensures Renumber(r, fd) == fd + r.shift
  {
  }

  lemma ProbedTwins(r: Renumbering, a: State, b: State, probe: Probe)
    requires Twin(r, a, b)
    ensures Twin(r, Probed(a, probe), Probed(b, probe))
  {
    hide RenameAll, Renumber;
  }

  lemma RenamedFrame(s: State, was: Kind, k: Kind, name: string)
    ensures var t := Renamed(s, was, k, name);
      && t == s.(os := t.os, dev := t.dev) && t.os.opens == s.os.opens
      && t.dev.current == s.dev.current && t.dev.pins == s.dev.pins
  {
    hide FreeDesc, NameDevice;
    FreedFrame(s, was);
    FreedFrame(FreeDesc(s, was), k);
    NamedFrame(FreeDesc(FreeDesc(s, was), k), k, name);
  }

  lemma FreedFrame(s: State, k: Kind)
    ensures var t := FreeDesc(s, k);
      && t == s.(os := t.os, dev := t.dev) && t.os.opens == s.os.opens
      && t.dev.current == s.dev.current && t.dev.pins == s.dev.pins
  {
  }

  lemma NamedFrame(s: State, k: Kind, name: string)
    ensures var t := NameDevice(s, k, name);
      && t == s.(os := t.os, dev := t.dev) && t.os.opens == s.os.opens
      && t.dev.current == s.dev.current && t.dev.pins == s.dev.pins
  {
  }

  lemma TwinCwdevice(r: Renumbering, a: State, b: State, payload: string, probe: Probe)
    requires Twin(r, a, b) && a.alive
    ensures Twin(r, CwdeviceRequest(a, payload, probe), CwdeviceRequest(b, payload, probe))
  {
    var c, d := Call(a, RegisterKeying(None)), Call(b, RegisterKeying(None));
    assert c.libcw.keying == None && c.alive;
    hide Twin, Call, CwdeviceSet;
    TwinCall(r, a, b, RegisterKeying(None));
    if payload != "" {
      TwinSwitch(r, c, d, payload, probe);
      var c1, d1 := CwdeviceSet(c, payload, probe), CwdeviceSet(d, payload, probe);
      TwinMeans(r, c1, d1);
      TwinCall(r, c1, d1, RegisterKeying(Some(c1.dev.current)));
    }
  }

  lemma TwinExit(r: Renumbering, a: State, b: State)
    requires Twin(r, a, b) && a.alive
    ensures Twin(r, Exit(a), Exit(b))
  {
    hide RenameAll, Renumber, DevFree, FreeDesc, Call;
    TwinCall(r, a, b, StopGenerator);
    TwinCall(r, Call(a, StopGenerator), Call(b, StopGenerator), DeleteGenerator);
    var c, d := CloseOutput(a), CloseOutput(b);
    FreedTwins(r, c, d);
    ExitIs(a);
    ExitIs(b);
    FreedFrame(DevFree(c), Tty);
    FreedFrame(FreeDesc(DevFree(c), Tty), NullDevice);
    FreedFrame(DevFree(d), Tty);
    FreedFrame(FreeDesc(DevFree(d), Tty), NullDevice);
  }

  lemma TwinPrepare(r: Renumbering, a: State, b: State, text: string)
    requires Twin(r, a, b)
    ensures Twin(r, PrepareReply(a, text), PrepareReply(b, text)) && Twin(r, WordMode(a), WordMode(b))
  {
    hide RenameAll, Renumber;
  }

  lemma TwinPtt(r: Renumbering, a: State, b: State, payload: string)
    requires Twin(r, a, b) && a.alive
    ensures Twin(r, PttRequest(a, payload), PttRequest(b, payload))
  {
    hide Twin, ManualOn, ManualOff;
    TwinManual(r, a, b);
  }

  lemma TwinEscaped(r: Renumbering, a: State, b: State, text: string, env: Env)
    requires Twin(r, a, b) && a.alive && text != ""
    ensures Twin(r, Escaped(a, text, env), Escaped(b, text, env))
  {
    hide Twin, Reset, SpeedRequest, ToneRequest, WeightingRequest, VolumeRequest, Abort, Exit, CwdeviceRequest,
      PttRequest, TuneRequest, DelayRequest, SoundSystemRequest, PrepareReply, WordMode;
    var payload := Payload(text);
    match Code(text)
    case '0' => TwinResetRequest(r, a, b, env.open);
    case '2' => TwinSpeed(r, a, b, payload);
    case '3' => TwinTone(r, a, b, payload);
    case '4' => TwinAbort(r, a, b);
    case '5' => TwinExit(r, a, b);
    case '6' => TwinPrepare(r, a, b, "");
    case '7' => TwinWeighting(r, a, b, payload);
    case '8' => TwinCwdevice(r, a, b, payload, env.probe);
    case 'a' => TwinPtt(r, a, b, payload);
    case 'c' => TwinTune(r, a, b, payload, env.schedule(0).tones);
    case 'd' => TwinDelay(r, a, b, payload);
    case 'f' => TwinSoundSystem(r, a, b, payload, env);
    case 'g' => TwinVolume(r, a, b, payload);
    case 'h' => TwinPrepare(r, a, b, text[1..]);
    case _ =>
  }

  // ---------- steps and traces ----------

  lemma TwinFresh(r: Renumbering, a: State, b: State, client: Address)
    requires Twin(r, a, b)
    ensures Twin(r, a.(out := [], mail := []), b.(out := [], mail := []))
    ensures Twin(r, a.(out := [], mail := [], requestAddress := client),
                 b.(out := [], mail := [], requestAddress := client))
    ensures b.alive == a.alive
  {
  }

  /** Twins do the same in one step, up to the renumbering, and stay twins. */
  lemma StepTwins(r: Renumbering, a: State, b: State, e: Event)
    requires Twin(r, a, b)
    ensures Twin(r, Step(a, e), Step(b, e))
  {
    hide Twin, PlayTick, TextRequest, Escaped, CStr, TrimEnd, Stored;
    TwinFresh(r, a, b, if e.Datagram? then e.client else 0);
    if a.alive {
      match e
      case Thread(tick) => TwinTick(r, a.(out := [], mail := []), b.(out := [], mail := []), tick);
      case Datagram(bytes, client, env) =>
        var c := a.(out := [], mail := [], requestAddress := client);
        var d := b.(out := [], mail := [], requestAddress := client);
        var t := TrimEnd(Stored(bytes));
        if t != "" {
          if t[0] != ESC {
            TwinText(r, c, d, CStr(t), env.schedule);
          } else {
            assert CStr(t) != "";
            TwinEscaped(r, c, d, CStr(t), env);
          }
        }
    }
  }

  lemma {:induction false} TraceTwins(r: Renumbering, a: State, b: State, es: seq<Event>)
    requires Twin(r, a, b)
    ensures Trace(b, es) == RenameTrace(r, Trace(a, es))
    decreases |es|
  {
    hide Step, RenameAll;
    if es != [] {
      var t, u := Step(a, es[0]), Step(b, es[0]);
      StepTwins(r, a, b, es[0]);
      TraceTwins(r, t, u, es[1..]);
      DeedsOfTwins(r, t, u);
      RenameLonger(r, Deeds(t.out, t.mail), Trace(t, es[1..]));
    }
  }

  lemma DeedsOfTwins(r: Renumbering, t: State, u: State)
    requires Twin(r, t, u)
    ensures u.out == RenameAll(r, t.out) && u.mail == t.mail
  {
  }

  lemma RenameLonger(r: Renumbering, first: Deeds, rest: seq<Deeds>)
    ensures RenameTrace(r, [first] + rest) == [Deeds(RenameAll(r, first.out), first.mail)] + RenameTrace(r, rest)
  {
    hide RenameAll;
  }

  // ---------- the shortest command line ----------

  function LineName(line: Option<Line>): string {
    match line
    case None => "none"
    case Some(Dtr) => "dtr"
    case Some(Rts) => "rts"
  }

  /** `-d tty -o key=.. -o ptt=..`, and `-d null` if that is the current device. */
  function ShortLine(kind: Kind, pins: Pins, tty: string, lines: set<Line>): seq<Argument> {
    [Device(tty, IsTty(lines)), DriverOption("key=" + LineName(pins.key)), DriverOption("ptt=" + LineName(pins.ptt))]
      + (if kind.NullDevice? then [Device("null", Rejected)] else [])
  }

  lemma NameIsLine(line: Option<Line>)
    ensures ParseLine(LineName(line)) == Some(line)
  {
    assert Lower("dtr") == "dtr" && Lower("rts") == "rts" && Lower("none") == "none";
    assert "rts"[0] != "dtr"[0] && "none"[0] != "dtr"[0] && "none"[0] != "rts"[0];
  }

  lemma OptionsAreRead(line: Option<Line>)
    ensures OptParse("key=" + LineName(line)) == Key(line) && OptParse("ptt=" + LineName(line)) == Ptt(line)
  {
    hide Lower, FindOptValue;
    NameIsLine(line);
    OptionIsFound("key", LineName(line));
    OptionIsFound("ptt", LineName(line));
    OtherIsNotFound(LineName(line));
    assert "key=" + LineName(line) == "key" + "=" + LineName(line);
    assert "ptt=" + LineName(line) == "ptt" + "=" + LineName(line);
  }

  lemma OptionIsFound(k: string, value: string)
    requires k == "key" || k == "ptt"
    requires value != "" ==> !Decimal.IsSpace(value[0])
    ensures FindOptValue(k + "=" + value, k) == Success(value)
  {
    hide FindOptValue;
    FoundIf(k, k, value);
  }

  lemma OtherIsNotFound(value: string)
    ensures !FindOptValue("ptt=" + value, "key").Success?
  {
    var input := "ptt=" + value;
    FirstEqualIs(input, 3);
    assert Lower(input[..3])[0] == 'p' && Lower("key")[0] == 'k';
  }

  /** What a switch does to number, kind and pins. */
  lemma SwitchNumbers(s: State, name: string, probe: Probe)
    ensures var t := CwdeviceSet(s, name, probe);
      && t.dev.current == (if probe.IsTty? then Tty else NullDevice) && t.dev.pins == s.dev.pins
      && (probe.IsTty? ==> t.dev.ttyFd == s.os.opens)
      && t.os.opens == s.os.opens + (if probe.OpenFails? then 0 else 1)
  {
    hide DevFree, Renamed, DriveLine;
    var k := if probe.IsTty? then Tty else NullDevice;
    var x := DevFree(Probed(s, probe));
    FreedOs(Probed(s, probe));
    RenamedFrame(x, s.dev.current, k, name);
  }

  /** A state of the command line before the sound output is opened. */
  lemma ShortLineGives(defaults: Params, kind: Kind, pins: Pins, tty: string, lines: set<Line>)
    requires InRangeParams(defaults) && tty != ""
    ensures var t := ArgueAll(Boot(defaults), ShortLine(kind, pins, tty, lines));
      && t.Some? && t.value == Boot(defaults).(dev := t.value.dev, os := t.value.os, out := t.value.out)
      && t.value.dev.current == kind && t.value.dev.pins == pins
      && (kind.Tty? ==> t.value.dev.ttyFd == 0)
      && t.value.os.opens == (if kind.Tty? then 1 else 2)
  {
    hide CwdeviceSet, OptParse, Booting, Argue;
    var args := ShortLine(kind, pins, tty, lines);
    var s0 := Boot(defaults);
    SwitchNumbers(s0, tty, IsTty(lines));
    var s1 := CwdeviceSet(s0, tty, IsTty(lines));
    OptionsAreRead(pins.key);
    OptionsAreRead(pins.ptt);
    DeviceIs(s0, tty, IsTty(lines));
    KeyIs(s1, pins.key);
    var s2 := Argue(s1, args[1]).value;
    PttIs(s2, pins.ptt);
    var s3 := Argue(s2, args[2]).value;
    DeviceIs(s3, "null", Rejected);
    SwitchNumbers(s3, "null", Rejected);
    ArgumentsInTurn(s0, args);
    BootIsBooting(defaults);
    BootRests(defaults);
    ArgumentsRest(s0, args);
    BootingMeans(ArgueAll(s0, args).value);
  }

  lemma BootingMeans(s: State)
    requires Booting(s)
    ensures s == Boot(s.defaults).(dev := s.dev, os := s.os, out := s.out)
  {
  }

  lemma DeviceIs(s: State, name: string, probe: Probe)
    requires name != ""
    ensures Argue(s, Device(name, probe)) == Some(CwdeviceSet(s, name, probe))
  {
    hide CwdeviceSet;
  }

  lemma KeyIs(s: State, line: Option<Line>)
    requires s.dev.current.Tty? && OptParse("key=" + LineName(line)) == Key(line)
    ensures var t := Argue(s, DriverOption("key=" + LineName(line)));
      && t.Some? && t.value.dev == s.dev.(pins := s.dev.pins.(key := line)) && t.value.os.opens == s.os.opens
  {
    hide OptParse, LineName;
  }

  lemma PttIs(s: State, line: Option<Line>)
    requires s.dev.current.Tty? && OptParse("ptt=" + LineName(line)) == Ptt(line)
    ensures var t := Argue(s, DriverOption("ptt=" + LineName(line)));
      && t.Some? && t.value.dev == s.dev.(pins := s.dev.pins.(ptt := line)) && t.value.os.opens == s.os.opens
  {
    hide OptParse, LineName;
  }

  /** Three arguments, or four. */
  lemma ArgumentsInTurn(s: State, args: seq<Argument>)
    requires 3 <= |args| <= 4 && Argue(s, args[0]).Some? && Argue(Argue(s, args[0]).value, args[1]).Some?
    requires Argue(Argue(Argue(s, args[0]).value, args[1]).value, args[2]).Some?
    ensures var t := Argue(Argue(Argue(s, args[0]).value, args[1]).value, args[2]);
      ArgueAll(s, args) == if |args| == 3 then t else Argue(t.value, args[3])
  {
    hide Argue;
    var t1 := Argue(s, args[0]).value;
    var t2 := Argue(t1, args[1]).value;
    var t3 := Argue(t2, args[2]).value;
    assert args[1..][1..] == args[2..] && args[2..][1..] == args[3..];
    assert ArgueAll(s, args) == ArgueAll(t1, args[1..]) == ArgueAll(t2, args[2..]) == ArgueAll(t3, args[3..]);
    if |args| == 4 {
      var t4 := Argue(t3, args[3]);
      assert args[3..][0] == args[3] && args[3..][1..] == [];
      assert t4.Some? ==> ArgueAll(t4.value, []) == t4;
    } else {
      assert args[3..] == [];
    }
  }

  // ---------- the restart ----------

  /** From the numbers of a running daemon to those of one that was started with the short command line. */
  function Numbering(s: State): Renumbering {
    if s.dev.current.Tty? then Renumbering(s.dev.ttyFd, 0, 1 - s.os.opens) else Renumbering(-1, 0, 2 - s.os.opens)
  }

  /** It tells apart all numbers that are still in use or to come. */
  lemma NumberingIsOneToOne(s: State, x: int, y: int)
    requires Inv(s) && s.alive
    requires x >= s.os.opens || (s.dev.current.Tty? && x == s.dev.ttyFd)
    requires y >= s.os.opens || (s.dev.current.Tty? && y == s.dev.ttyFd)
    ensures Renumber(Numbering(s), x) == Renumber(Numbering(s), y) <==> x == y
  {
    if s.dev.current.Tty? {
      TtyIsOld(s);
    }
  }

  lemma TtyIsOld(s: State)
    requires Resources(s) && s.alive && s.dev.current.Tty?
    ensures 0 <= s.dev.ttyFd < s.os.opens
  {
    assert s.dev.ttyFd in s.os.open.Keys;
  }

  lemma TwinStart(r: Renumbering, a: State, b: State, bind: Address)
    requires Twin(r, a, b) && Start(a, bind, Opened).Some?
    ensures Start(b, bind, Opened).Some? && Twin(r, Start(a, bind, Opened).value, Start(b, bind, Opened).value)
  {
    hide RenameAll, Renumber, ResetAlmostAll;
    TwinResetAlmostAll(r, a.(requestAddress := bind), b.(requestAddress := bind), Opened);
  }

  lemma BootedTwins(s: State, b: State)
    requires Inv(s) && s.alive
    requires b == Boot(s.defaults).(dev := b.dev, os := b.os)
    requires b.dev.current == s.dev.current && b.dev.pins == s.dev.pins
    requires b.os.opens == (if s.dev.current.Tty? then 1 else 2) && (s.dev.current.Tty? ==> b.dev.ttyFd == 0)
    ensures Twin(Numbering(s), BootedLike(s), b)
  {
    if s.dev.current.Tty? {
      TtyIsOld(s);
    }
    BootedResources(s);
    assert RenameAll(Numbering(s), []) == [];
  }

  lemma StartIgnoresOut(b: State, bind: Address)
    requires Start(b, bind, Opened).Some?
    ensures var c := b.(out := []);
      Start(c, bind, Opened).Some? && Alike(Start(c, bind, Opened).value, Start(b, bind, Opened).value)
  {
    hide OpenOutput, CloseOutput, ConfigureOutput;
    ResetIgnoresOut(b.(requestAddress := bind));
  }

  lemma ResetIgnoresOut(s: State)
    ensures SameButOut(ResetAlmostAll(s.(out := []), Opened), ResetAlmostAll(s, Opened))
  {
  }

  /** The same RESET as in `Restart.ResetIsRestart`, compared with a daemon that was started with the same defaults and
      only the current kind of device and its pins on the command line, whatever the clients did before: it does the
      same, event by event, up to descriptor numbers. Such a daemon can be started exactly if the device is null or
      the pins pass validation. */
  lemma ResetIsPlainRestart(
      defaults: Params, args: seq<Argument>, bind: Address, r: OpenResult, es: seq<Event>,
      bytes: string, client: Address, env: Env, later: seq<Event>, tty: string, lines: set<Line>)
    requires InRangeParams(defaults) && Launch(defaults, args, bind, r).Some? && tty != ""
    requires Reached(defaults, args, bind, r, es).alive
    requires RequestCode(bytes) == '0' && env.open.Opened?
    ensures var s := Reached(defaults, args, bind, r, es);
      var anew := Launch(defaults, ShortLine(s.dev.current, s.dev.pins, tty, lines), bind, Opened);
      && (anew.Some? <==> s.dev.current.NullDevice? || OptValidate(s.dev.pins))
      && (anew.Some? ==> Trace(anew.value, later)
                          == RenameTrace(Numbering(s), Trace(Step(s, Datagram(bytes, client, env)), later)))
  {
    hide Trace, Step, Reset, Start, BootedLike, Run, Inv, ArgueAll, ShortLine, OptValidate, Numbering;
    var s := Reached(defaults, args, bind, r, es);
    EveryRunIsSafe(defaults, args, bind, r, es);
    DefaultsStay(defaults, args, bind, r, es);
    ShortLineGives(defaults, s.dev.current, s.dev.pins, tty, lines);
    var b := ArgueAll(Boot(defaults), ShortLine(s.dev.current, s.dev.pins, tty, lines)).value;
    StartExactly(b, bind);
    if Start(b, bind, Opened).Some? {
      PlainRestart(s, b, bind, bytes, client, env, later);
    }
  }

  lemma StartExactly(b: State, bind: Address)
    ensures Start(b, bind, Opened).Some? <==> b.dev.current.NullDevice? || OptValidate(b.dev.pins)
  {
    hide ResetAlmostAll;
  }

  lemma DefaultsStay(defaults: Params, args: seq<Argument>, bind: Address, r: OpenResult, es: seq<Event>)
    requires InRangeParams(defaults) && Launch(defaults, args, bind, r).Some?
    requires Reached(defaults, args, bind, r, es).alive
    ensures Reached(defaults, args, bind, r, es).defaults == defaults
  {
    hide Run, ArgueAll, DeviceArgs, DevReset;
    RunningLike(defaults, args, bind, r, es);
    BootIsBooting(defaults);
    BootRests(defaults);
    ArgumentsRest(Boot(defaults), args + DeviceArgs(es));
  }

  lemma PlainRestart(s: State, b: State, bind: Address, bytes: string, client: Address, env: Env, later: seq<Event>)
    requires Inv(s) && s.alive && RequestCode(bytes) == '0' && env.open.Opened?
    requires b == Boot(s.defaults).(dev := b.dev, os := b.os, out := b.out)
    requires b.dev.current == s.dev.current && b.dev.pins == s.dev.pins && Start(b, bind, Opened).Some?
    requires b.os.opens == (if s.dev.current.Tty? then 1 else 2) && (s.dev.current.Tty? ==> b.dev.ttyFd == 0)
    ensures Trace(Start(b, bind, Opened).value, later)
      == RenameTrace(Numbering(s), Trace(Step(s, Datagram(bytes, client, env)), later))
  {
    BootedSame(s);
    hide Trace, Step, Reset, Start, BootedLike, Inv, Numbering, RequestCode, Twin;
    var s1 := s.(out := [], mail := [], requestAddress := client);
    var a, c := BootedLike(s), b.(out := []);
    RequestKeepsInv(s, client);
    ResetStep(s, bytes, client, env);
    RestedAlike(s, s1);
    StartExactly(b, bind);
    StartExactly(a, bind);
    ResetIsStart(s1, a, bind);
    TraceAlike(Reset(s1, Opened), Start(a, bind, Opened).value, later);
    BootedTwins(s, c);
    TwinStart(Numbering(s), a, c, bind);
    TraceTwins(Numbering(s), Start(a, bind, Opened).value, Start(c, bind, Opened).value, later);
    StartIgnoresOut(b, bind);
    TraceAlike(Start(c, bind, Opened).value, Start(b, bind, Opened).value, later);
  }

  lemma BootedSame(s: State)
    ensures BootedLike(s).dev == s.dev && SameButOut(BootedLike(s), BootedLike(s))
  {
  }
}
