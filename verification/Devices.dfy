/** Descriptors, names and pins over whole runs, from the command line to exit. */
module DeviceBooks {
  import opened Basics
  import opened Decimal
  import opened DriverOptions
  import opened World
  import opened Machine
  import opened Safety
  import Player

  // ---------- counting ----------

  function Numbers(n: nat): (r: set<int>)
    ensures forall x :: x in r <==> 0 <= x < n
    ensures |r| == n
  {
    if n == 0 then {} else Numbers(n - 1) + {n - 1}
  }

  lemma {:induction false} DistinctCount(h: seq<int>)
    requires NoRepeats(h)
    ensures |set x | x in h| == |h|
  {
    if h != [] {
      var init := h[..|h| - 1];
      DistinctCount(init);
      assert (set x | x in h) == (set x | x in init) + {h[|h| - 1]};
    }
  }

  lemma {:induction false} OnceEach(h: seq<int>, x: int)
    requires NoRepeats(h)
    ensures multiset(h)[x] == if x in h then 1 else 0
  {
    if h != [] {
      assert h == h[..|h| - 1] + [h[|h| - 1]];
      OnceEach(h[..|h| - 1], x);
    }
  }

  // ---------- descriptors ----------

  /** Opened minus closed descriptors is 1 with a tty and 0 otherwise, and no descriptor is closed twice. */
  lemma DescriptorsBalance(s: State)
    requires Inv(s)
    ensures s.os.opens - |s.os.closed| == if s.alive && s.dev.current.Tty? then 1 else 0
    ensures s.alive && s.dev.current.Tty? ==> s.os.open.Keys == {s.dev.ttyFd}
    ensures forall fd :: multiset(s.os.closed)[fd] <= 1
  {
    OpenAndClosed(s.os);
    forall fd ensures multiset(s.os.closed)[fd] <= 1 {
      OnceEach(s.os.closed, fd);
    }
  }

  lemma OpenAndClosed(os: Os)
    requires FdLedger(os)
    ensures os.opens == |os.open.Keys| + |os.closed|
  {
    var c := set x | x in os.closed;
    DistinctCount(os.closed);
    assert Numbers(os.opens) == os.open.Keys + c;
    assert os.open.Keys !! c;
  }

  /** After exit every descriptor that was ever opened has been closed once, and every name that was ever
      allocated has been freed once. */
  lemma NothingLeaksAtExit(defaults: Params, args: seq<Argument>, bind: Address, r: OpenResult, es: seq<Event>)
    requires InRangeParams(defaults) && Launch(defaults, args, bind, r).Some?
    requires !Run(Launch(defaults, args, bind, r).value, es).alive
    ensures var os := Run(Launch(defaults, args, bind, r).value, es).os;
      && (forall fd :: multiset(os.closed)[fd] == if 0 <= fd < os.opens then 1 else 0)
      && (forall id: int :: multiset(os.freed)[id] == if 0 <= id < os.strings then 1 else 0)
  {
    var s := Run(Launch(defaults, args, bind, r).value, es);
    EveryRunIsSafe(defaults, args, bind, r, es);
    forall x: int ensures multiset(s.os.closed)[x] == if 0 <= x < s.os.opens then 1 else 0 {
      assert x !in s.os.open.Keys;
      OnceEach(s.os.closed, x);
    }
    forall x: int ensures multiset(s.os.freed)[x] == if 0 <= x < s.os.strings then 1 else 0 {
      OnceEach(s.os.freed, x);
    }
  }

  // ---------- the desk: devices, names and descriptors ----------

  /** The same devices, pins and descriptors, and the same lines once the pins are reset: what callbacks and all
      requests but CWDEVICE and EXIT leave alone. */
  predicate SameDesk(s: State, t: State) {
    t.dev == s.dev && t.defaults == s.defaults && DevReset(t).os == DevReset(s).os
  }

  /** The same, with keying registered as before. */
  predicate SameKeyedDesk(s: State, t: State) {
    SameDesk(s, t) && t.libcw.keying == s.libcw.keying && t.alive == s.alive
  }

  lemma SameOsSameDesk(s: State, t: State)
    requires t.dev == s.dev && t.defaults == s.defaults && t.os == s.os
    ensures SameDesk(s, t)
  {
  }

  lemma ResetsAgree(os: Os, fd: int, key: Option<Line>, ptt: Option<Line>, line: Option<Line>, on: bool)
    requires line == key || line == ptt
    ensures Low(Low(Driven(os, fd, line, on), fd, key), fd, ptt) == Low(Low(os, fd, key), fd, ptt)
  {
    if fd in os.open && line.Some? {
      var a := Low(Low(Driven(os, fd, line, on), fd, key), fd, ptt);
      var b := Low(Low(os, fd, key), fd, ptt);
      assert a.open[fd] == b.open[fd];
      assert a.open == b.open;
    }
  }

  function Driven(os: Os, fd: int, line: Option<Line>, on: bool): Os {
    if line.None? then os else SetLine(os, fd, line.value, on)
  }

  function Low(os: Os, fd: int, line: Option<Line>): Os { Driven(os, fd, line, false) }

  lemma DriveLineKeepsDesk(s: State, line: Option<Line>, on: bool)
    requires s.dev.current.Tty? && (line == s.dev.pins.key || line == s.dev.pins.ptt)
    ensures SameKeyedDesk(s, DriveLine(s, line, on))
  {
    ResetsAgree(s.os, s.dev.ttyFd, s.dev.pins.key, s.dev.pins.ptt, line, on);
  }

  lemma DevPttKeepsDesk(s: State, on: bool)
    ensures SameKeyedDesk(s, DevPtt(s, on))
  {
    if s.dev.current.Tty? {
      DriveLineKeepsDesk(s, s.dev.pins.ptt, on);
    }
  }

  lemma DevResetKeepsDesk(s: State)
    ensures SameKeyedDesk(s, DevReset(s))
  {
    if s.dev.current.Tty? {
      DriveLineKeepsDesk(s, s.dev.pins.key, false);
      DriveLineKeepsDesk(DriveLine(s, s.dev.pins.key, false), s.dev.pins.ptt, false);
    }
  }

  lemma SetPttKeepsDesk(s: State)
    ensures SameKeyedDesk(s, SetPttOn(s)) && SameKeyedDesk(s, SetPttOff(s))
  {
    hide DevPtt;
    DevPttKeepsDesk(s, true);
    DevPttKeepsDesk(s, false);
    SameOsSameDesk(if SetPttOn(s) == s then s else DevPtt(s, true), SetPttOn(s));
    SameOsSameDesk(s, s);
    SameOsSameDesk(DevPtt(s, false), SetPttOff(s));
  }

  lemma PlayToneKeepsDesk(s: State)
    ensures SameKeyedDesk(s, PlayTone(s))
  {
    hide DevReset, SetPttOff;
    var s1 := s.(libcw := s.libcw.(tones := if s.libcw.tones > 0 then s.libcw.tones - 1 else 0));
    SetPttKeepsDesk(s1);
    SameOsSameDesk(s, s1);
    SameOsSameDesk(s, SendReply(s1));
  }

  lemma PlayTickKeepsDesk(s: State, tick: Tick)
    requires KeyingInv(s)
    ensures SameKeyedDesk(s, PlayTick(s, tick))
  {
    hide PlayTone, DevReset, DriveLine;
    match tick
    case Tone => PlayToneKeepsDesk(s);
    case Mark(on) =>
      if s.dev.current.Tty? {
        DriveLineKeepsDesk(s, s.dev.pins.key, on);
      }
  }

  lemma {:induction false} PlayTicksKeepDesk(s: State, ticks: seq<Tick>)
    requires KeyingInv(s)
    ensures SameKeyedDesk(s, PlayTicks(s, ticks))
    decreases |ticks|
  {
    hide PlayTick, DevReset;
    if ticks != [] {
      PlayTickKeepsDesk(s, ticks[0]);
      PlayTicksKeepDesk(PlayTick(s, ticks[0]), ticks[1..]);
    }
  }

  lemma {:induction false} TicksSameDevices(s: State, ticks: seq<Tick>)
    ensures PlayTicks(s, ticks).dev == s.dev
    decreases |ticks|
  {
    if ticks != [] {
      TicksSameDevices(PlayTick(s, ticks[0]), ticks[1..]);
    }
  }

  lemma PerformKeepsDesk(s: State, c: Player.Command, tones: nat)
    ensures SameKeyedDesk(s, Perform(s, c, tones))
  {
    hide DevReset, SetPttOn;
    SetPttKeepsDesk(s);
    if !c.PttOn? {
      SameOsSameDesk(s, Perform(s, c, tones));
    }
  }

  lemma {:induction false} ExecKeepsDesk(s: State, cs: seq<Player.Command>, k: nat, schedule: Schedule)
    requires KeyingInv(s)
    ensures SameKeyedDesk(s, Exec(s, cs, k, schedule))
    decreases |cs|
  {
    hide DevReset, Perform, PlayTicks;
    if cs != [] {
      PerformKeepsDesk(s, cs[0], schedule(k).tones);
      PlayTicksKeepDesk(Perform(s, cs[0], schedule(k).tones), schedule(k).ticks);
      ExecKeepsDesk(ExecOne(s, cs[0], schedule(k)), cs[1..], k + 1, schedule);
    }
  }

  lemma TextKeepsDesk(s: State, text: string, schedule: Schedule)
    requires KeyingInv(s)
    ensures SameKeyedDesk(s, TextRequest(s, text, schedule))
  {
    hide DevReset, Exec, Player.Interp;
    var s1 := s.(queue := s.queue + text);
    SameOsSameDesk(s, s1);
    SameOsSameDesk(s, s);
    ExecKeepsDesk(s1, Player.Interp(s1.queue, Player.Cursor(0, s.current.speed, s.libcw.gap)), 0, schedule);
  }

  lemma {:induction false} QueueTonesKeepDesk(s: State, us: nat, hz: int, n: nat)
    ensures var t := QueueTones(s, us, hz, n); t.dev == s.dev && t.defaults == s.defaults && t.os == s.os
    ensures QueueTones(s, us, hz, n).libcw.keying == s.libcw.keying && QueueTones(s, us, hz, n).alive == s.alive
  {
    if n > 0 {
      QueueTonesKeepDesk(s, us, hz, n - 1);
    }
  }

  lemma TuneKeepsDesk(s: State, payload: string, tones: nat)
    ensures SameDesk(s, TuneRequest(s, payload, tones))
  {
    hide DevReset, SetPttOn, QueueTones, Machine.InRange;
    var v := Machine.InRange(payload, 0, TUNE_SECONDS_MAX);
    SameOsSameDesk(s, s);
    if v.Some? && v.value > 0 {
      var s1 := Call(s, FlushQueue);
      SameOsSameDesk(s, s1);
      SetPttKeepsDesk(s1);
      QueueTonesKeepDesk(SetPttOn(s1), 1_000_000, SetPttOn(s1).current.tone, v.value);
      SameOsSameDesk(SetPttOn(s1), Tune(s, v.value, tones));
    }
  }

  lemma SoundKeepsDesk(s: State, payload: string, env: Env)
    ensures SameDesk(s, SoundSystemRequest(s, payload, env))
  {
    hide DevReset;
    SameOsSameDesk(s, SoundSystemRequest(s, payload, env));
  }

  lemma ResetKeepsDesk(s: State, r: OpenResult)
    ensures SameDesk(s, Reset(s, r))
  {
    hide ResetOutput, DevReset;
    var s1 := ResetAlmostAll(s.(queue := ""), r).(wordmode := false);
    SameOsSameDesk(s, s1);
    DevResetKeepsDesk(s1);
    SameOsSameDesk(DevReset(s1), Reset(s, r));
  }

  lemma ParametersKeepDesk(s: State, payload: string)
    ensures SameDesk(s, SpeedRequest(s, payload)) && SameDesk(s, ToneRequest(s, payload))
    ensures SameDesk(s, WeightingRequest(s, payload)) && SameDesk(s, VolumeRequest(s, payload))
  {
    hide Machine.InRange, DevReset;
    SameOsSameDesk(s, SpeedRequest(s, payload));
    SameOsSameDesk(s, ToneRequest(s, payload));
    SameOsSameDesk(s, WeightingRequest(s, payload));
    SameOsSameDesk(s, VolumeRequest(s, payload));
  }

  lemma PttKeepsDesk(s: State, payload: string)
    ensures SameDesk(s, PttRequest(s, payload))
  {
    hide DevReset, ManualOn, ManualOff, GetLong;
    ManualKeepsDesk(s);
    SameOsSameDesk(s, s);
  }

  lemma ManualKeepsDesk(s: State)
    ensures SameDesk(s, ManualOn(s)) && SameDesk(s, ManualOff(s))
  {
    hide DevReset, SetPttOn, SetPttOff;
    var s1 := if s.current.delay != 0 then SetPttOn(s) else s;
    var s2 := s.(ptt := s.ptt.(manual := false));
    SetPttKeepsDesk(s);
    SetPttKeepsDesk(s2);
    SameOsSameDesk(s, s);
    SameOsSameDesk(s, s2);
    SameOsSameDesk(s1, ManualOn(s));
    if ManualOff(s) != SetPttOff(s2) {
      SameOsSameDesk(s, ManualOff(s));
    }
  }

  lemma DelayKeepsDesk(s: State, payload: string)
    ensures SameDesk(s, DelayRequest(s, payload))
  {
    hide DevReset, SetPttOff, ParseDelay;
    var v := ParseDelay(payload);
    SameOsSameDesk(s, s);
    if !v.Rejection? {
      var s1 := s.(current := s.current.(delay := v.ms));
      SameOsSameDesk(s, s1);
      SetPttKeepsDesk(s1);
    }
  }

  lemma AbortKeepsDesk(s: State)
    ensures SameDesk(s, Abort(s))
  {
    hide DevReset, SetPttOff;
    SameOsSameDesk(s, s);
    if !s.wordmode {
      var s1 := if s.ptt.echo then s.(mail := s.mail + [Sent(|s.out|, s.replyAddress, BREAK)]) else s;
      var s2 := Call(Call(s1.(queue := ""), FlushQueue), WaitForQueue);
      SameOsSameDesk(s, s2);
      SetPttKeepsDesk(s2);
      SameOsSameDesk(if s2.ptt != PTT_IDLE then SetPttOff(s2) else s2, Abort(s));
    }
  }

  /** All requests but CWDEVICE and EXIT. */
  lemma EscapedKeepsDesk(s: State, text: string, env: Env)
    requires Code(text) != '5' && Code(text) != '8'
    ensures SameDesk(s, Escaped(s, text, env))
  {
    hide Reset, ToneRequest, SpeedRequest, WeightingRequest, VolumeRequest, Abort, PttRequest, DelayRequest,
      TuneRequest, SoundSystemRequest, DevReset;
    var payload := Payload(text);
    match Code(text)
    case '0' => ResetKeepsDesk(s, env.open);
    case '4' => AbortKeepsDesk(s);
    case 'a' => PttKeepsDesk(s, payload);
    case 'c' => TuneKeepsDesk(s, payload, env.schedule(0).tones);
    case 'd' => DelayKeepsDesk(s, payload);
    case 'f' => SoundKeepsDesk(s, payload, env);
    case 'h' => SameOsSameDesk(s, Escaped(s, text, env));
    case _ =>
      ParametersKeepDesk(s, payload);
      SameOsSameDesk(s, s);
      SameOsSameDesk(s, WordMode(s));
  }

  // ---------- pins ----------

  lemma EscapedKeepsPins(s: State, text: string, env: Env)
    ensures Escaped(s, text, env).dev.pins == s.dev.pins
  {
    hide Reset, ToneRequest, SpeedRequest, WeightingRequest, VolumeRequest, Abort, PttRequest, DelayRequest,
      TuneRequest, SoundSystemRequest, DevReset;
    if Code(text) != '5' && Code(text) != '8' {
      EscapedKeepsDesk(s, text, env);
    }
  }

  lemma StepKeepsPins(s: State, e: Event)
    requires KeyingInv(s)
    ensures Step(s, e).dev.pins == s.dev.pins
  {
    hide PlayTick, TextRequest, Escaped, DevReset;
    if s.alive {
      match e
      case Thread(tick) => PlayTickKeepsDesk(s.(out := [], mail := []), tick);
      case Datagram(bytes, client, env) =>
        var s1 := s.(out := [], mail := [], requestAddress := client);
        var text := CStr(TrimEnd(Stored(bytes)));
        TextKeepsDesk(s1, text, env.schedule);
        EscapedKeepsPins(s1, text, env);
    }
  }

  lemma {:induction false} RunKeepsPins(s: State, es: seq<Event>)
    requires Inv(s)
    ensures Run(s, es).dev.pins == s.dev.pins
    decreases |es|
  {
    hide Step, Resources, Behaviour;
    if es != [] {
      InvKeying(s);
      StepKeepsPins(s, es[0]);
      StepKeeps(s, es[0]);
      RunKeepsPins(Step(s, es[0]), es[1..]);
    }
  }

  lemma InvKeying(s: State)
    requires Inv(s)
    ensures KeyingInv(s)
  {
  }

  predicate KeyPinOn(s: State) {
    && s.dev.current.Tty? && s.dev.pins.key.Some?
    && s.dev.ttyFd in s.os.open && s.dev.pins.key.value in s.os.open[s.dev.ttyFd]
  }

  /** On an open tty that libcw is playing to, keying leaves the PTT pin alone and PTT leaves the keying pin
      alone exactly when the pins pass validation. */
  lemma PinsAreIndependent(s: State)
    requires s.dev.current.Tty? && s.dev.ttyFd in s.os.open && s.libcw.keying == Some(Tty)
    requires s.libcw.gen.Running? && s.libcw.tones > 0
    ensures OptValidate(s.dev.pins) <==>
      && (forall on :: PttPinOn(KeyingEvent(s, on)) == PttPinOn(s))
      && (forall on :: KeyPinOn(DevPtt(s, on)) == KeyPinOn(s))
  {
    if !OptValidate(s.dev.pins) {
      assert PttPinOn(KeyingEvent(s, true)) && !PttPinOn(KeyingEvent(s, false));
    }
  }

  /** On every run of a daemon that was launched on a tty, whatever `-o` options it was given and whatever
      devices it is switched to, keying never changes the PTT pin and PTT never changes the keying pin. */
  lemma PinsStaySeparate(defaults: Params, args: seq<Argument>, bind: Address, r: OpenResult, es: seq<Event>, on: bool)
    requires InRangeParams(defaults) && Launch(defaults, args, bind, r).Some?
    requires Launch(defaults, args, bind, r).value.dev.current.Tty?
    ensures var s := Run(Launch(defaults, args, bind, r).value, es);
      && s.dev.pins == Launch(defaults, args, bind, r).value.dev.pins
      && OptValidate(s.dev.pins)
      && PttPinOn(KeyingEvent(s, on)) == PttPinOn(s)
      && KeyPinOn(DevPtt(s, on)) == KeyPinOn(s)
  {
    var s0 := Launch(defaults, args, bind, r).value;
    LaunchIsSafe(defaults, args, bind, r);
    LaunchedPins(defaults, args, bind, r);
    hide Launch, Run, Inv, PttPinOn, KeyPinOn, KeyingEvent, DevPtt;
    RunKeepsPins(s0, es);
    ApartIfValid(Run(s0, es), on);
  }

  lemma LaunchedPins(defaults: Params, args: seq<Argument>, bind: Address, r: OpenResult)
    requires InRangeParams(defaults) && Launch(defaults, args, bind, r).Some?
    ensures var s := Launch(defaults, args, bind, r).value; s.dev.current.Tty? ==> OptValidate(s.dev.pins)
  {
    hide ArgueAll, ResetAlmostAll;
  }

  lemma ApartIfValid(s: State, on: bool)
    requires OptValidate(s.dev.pins)
    ensures PttPinOn(KeyingEvent(s, on)) == PttPinOn(s) && KeyPinOn(DevPtt(s, on)) == KeyPinOn(s)
  {
  }

  /** Options are validated only if the device is a tty when the command line ends. `-d ttyS0 -o key=rts -d null`
      starts a daemon whose two pins are the same line, and a later CWDEVICE request puts them to use. */
  lemma UnvalidatedPins(defaults: Params)
    ensures var args := [Device("ttyS0", IsTty({})), DriverOption("key=rts"), Device("null", Rejected)];
      var s := Launch(defaults, args, 0, Opened);
      s.Some? && !OptValidate(s.value.dev.pins) && s.value.dev.current.NullDevice?
  {
    hide CwdeviceSet, OptParse, ResetAlmostAll;
    var a1, a2, a3 := Device("ttyS0", IsTty({})), DriverOption("key=rts"), Device("null", Rejected);
    var s0 := Boot(defaults);
    var s1 := CwdeviceSet(s0, "ttyS0", IsTty({}));
    KeyRts();
    SetDevice(s0, "ttyS0", IsTty({}));
    var s2 := Argue(s1, a2).value;
    var s3 := CwdeviceSet(s2, "null", Rejected);
    SetDevice(s2, "null", Rejected);
    assert [a1, a2, a3][1..] == [a2, a3] && [a2, a3][1..] == [a3] && [a3][1..] == [];
    assert ArgueAll(s3, []) == Some(s3);
    assert ArgueAll(s2, [a3]) == Some(s3);
    assert ArgueAll(s1, [a2, a3]) == Some(s3);
    assert ArgueAll(s0, [a1, a2, a3]) == Some(s3);
  }

  lemma SetDevice(s: State, name: string, probe: Probe)
    ensures CwdeviceSet(s, name, probe).dev.current == if probe.IsTty? then Tty else NullDevice
  {
    hide Probed, DevFree, Renamed;
  }

  lemma KeyRts()
    ensures OptParse("key=rts") == Key(Some(Rts))
  {
    FirstEqualIs("key=rts", 3);
    assert "key=rts"[..3] == "key" && "key=rts"[4..] == "rts";
    assert Lower("rts") == "rts";
    assert "rts"[0] != "dtr"[0];
  }
}
