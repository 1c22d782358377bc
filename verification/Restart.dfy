/** RESET as a restart: afterwards nobody can tell the daemon from a freshly started one. */
module Restart {
  import opened Basics
  import opened DriverOptions
  import opened World
  import opened Machine
  import opened Safety
  import opened KeyingTarget
  import opened DeviceBooks
  import Player

  /** The same state with another stale reply in the buffer. */
  function Veil(s: State, reply: string, address: Address): State { s.(reply := reply, replyAddress := address) }

  /** Two states that differ at most in a reply that is not pending. */
  predicate Lockstep(a: State, b: State) {
    b == Veil(a, b.reply, b.replyAddress) && (a.ptt.echo ==> a == b)
  }

  /** As seen between events: the last client's address and the record of the last step do not matter either. */
  predicate Alike(a: State, b: State) {
    && b == a.(reply := b.reply, replyAddress := b.replyAddress, requestAddress := b.requestAddress,
               out := b.out, mail := b.mail)
    && (a.ptt.echo ==> a.reply == b.reply && a.replyAddress == b.replyAddress)
  }

  // ---------- callbacks and the player ----------

  lemma PlayToneVeiled(s: State, r: string, ra: Address)
    requires !s.ptt.echo
    ensures PlayTone(Veil(s, r, ra)) == Veil(PlayTone(s), r, ra) && !PlayTone(s).ptt.echo
  {
  }

  lemma PlayTickVeiled(s: State, tick: Tick, r: string, ra: Address)
    requires !s.ptt.echo
    ensures PlayTick(Veil(s, r, ra), tick) == Veil(PlayTick(s, tick), r, ra) && !PlayTick(s, tick).ptt.echo
  {
    hide PlayTone;
    PlayToneVeiled(s, r, ra);
  }

  lemma {:induction false} PlayTicksVeiled(s: State, ticks: seq<Tick>, r: string, ra: Address)
    requires !s.ptt.echo
    ensures PlayTicks(Veil(s, r, ra), ticks) == Veil(PlayTicks(s, ticks), r, ra) && !PlayTicks(s, ticks).ptt.echo
    decreases |ticks|
  {
    hide PlayTick;
    if ticks != [] {
      PlayTickVeiled(s, ticks[0], r, ra);
      PlayTicksVeiled(PlayTick(s, ticks[0]), ticks[1..], r, ra);
    }
  }

  lemma PerformVeiled(s: State, c: Player.Command, tones: nat, r: string, ra: Address)
    requires !s.ptt.echo
    ensures Lockstep(Perform(s, c, tones), Perform(Veil(s, r, ra), c, tones))
  {
  }

  lemma {:induction false} ExecInLockstep(a: State, b: State, cs: seq<Player.Command>, k: nat, schedule: Schedule)
    requires Lockstep(a, b)
    ensures Lockstep(Exec(a, cs, k, schedule), Exec(b, cs, k, schedule))
    decreases |cs|
  {
    if cs != [] && !a.ptt.echo {
      var p, q := Perform(a, cs[0], schedule(k).tones), Perform(b, cs[0], schedule(k).tones);
      PerformVeiled(a, cs[0], schedule(k).tones, b.reply, b.replyAddress);
      if !p.ptt.echo {
        PlayTicksVeiled(p, schedule(k).ticks, q.reply, q.replyAddress);
      }
      ExecInLockstep(ExecOne(a, cs[0], schedule(k)), ExecOne(b, cs[0], schedule(k)), cs[1..], k + 1, schedule);
    }
  }

  lemma TextInLockstep(a: State, b: State, text: string, schedule: Schedule)
    requires Lockstep(a, b)
    ensures Lockstep(TextRequest(a, text, schedule), TextRequest(b, text, schedule))
  {
    var a1, b1 := a.(queue := a.queue + text), b.(queue := b.queue + text);
    ExecInLockstep(a1, b1, Player.Interp(a1.queue, Player.Cursor(0, a.current.speed, a.libcw.gap)), 0, schedule);
  }

  // ---------- escaped requests ----------

  lemma {:induction false} QueueTonesVeiled(s: State, us: nat, hz: int, n: nat, r: string, ra: Address)
    ensures QueueTones(Veil(s, r, ra), us, hz, n) == Veil(QueueTones(s, us, hz, n), r, ra)
  {
    if n > 0 {
      QueueTonesVeiled(s, us, hz, n - 1, r, ra);
    }
  }

  lemma SetPttOnVeiled(s: State, r: string, ra: Address)
    ensures SetPttOn(Veil(s, r, ra)) == Veil(SetPttOn(s), r, ra) && SetPttOn(s).ptt.echo == s.ptt.echo
    ensures SetPttOn(s).current == s.current
  {
  }

  lemma TuneVeiled(s: State, payload: string, tones: nat, r: string, ra: Address)
    ensures TuneRequest(Veil(s, r, ra), payload, tones) == Veil(TuneRequest(s, payload, tones), r, ra)
    ensures TuneRequest(s, payload, tones).ptt.echo == s.ptt.echo
  {
    hide Machine.InRange, QueueTones, SetPttOn;
    SetPttOnVeiled(Call(s, FlushQueue), r, ra);
    var v := Machine.InRange(payload, 0, TUNE_SECONDS_MAX);
    if v.Some? {
      QueueTonesVeiled(SetPttOn(Call(s, FlushQueue)), 1_000_000, s.current.tone, v.value, r, ra);
    }
  }

  lemma OutputVeiled(s: State, system: AudioSystem, o: OpenResult, p: Params, r: string, ra: Address)
    ensures OpenOutput(CloseOutput(Veil(s, r, ra)), system, o) == Veil(OpenOutput(CloseOutput(s), system, o), r, ra)
    ensures ConfigureOutput(Veil(s, r, ra), p) == Veil(ConfigureOutput(s, p), r, ra)
  {
  }

  lemma ResetAlmostAllVeiled(s: State, o: OpenResult, r: string, ra: Address)
    ensures ResetAlmostAll(Veil(s, r, ra), o) == Veil(ResetAlmostAll(s, o), r, ra)
  {
    var s1 := s.(current := s.defaults);
    OutputVeiled(s1, s.defaults.system, o, s.defaults, r, ra);
    OutputVeiled(OpenOutput(CloseOutput(s1), s.defaults.system, o), s.defaults.system, o, s.defaults, r, ra);
  }

  lemma DevResetVeiled(s: State, r: string, ra: Address)
    ensures DevReset(Veil(s, r, ra)) == Veil(DevReset(s), r, ra)
  {
  }

  lemma ResetVeiled(s: State, o: OpenResult, r: string, ra: Address)
    ensures Reset(Veil(s, r, ra), o) == Veil(Reset(s, o), r, ra) && !Reset(s, o).ptt.echo
  {
    var s1 := s.(queue := "");
    ResetAlmostAllVeiled(s1, o, r, ra);
    DevResetVeiled(ResetAlmostAll(s1, o).(wordmode := false), r, ra);
  }

  lemma ReopenVeiled(s: State, system: AudioSystem, env: Env, r: string, ra: Address)
    ensures Reopen(Veil(s, r, ra), system, env) == Veil(Reopen(s, system, env), r, ra)
  {
    hide OpenOutput, CloseOutput;
    var s0 := s.(current := s.current.(system := system));
    OutputVeiled(s0, system, env.open, s.current, r, ra);
    OutputVeiled(OpenOutput(CloseOutput(s0), system, env.open), NullAudio, env.fallback, s.current, r, ra);
  }

  lemma SoundSystemVeiled(s: State, payload: string, env: Env, r: string, ra: Address)
    ensures SoundSystemRequest(Veil(s, r, ra), payload, env) == Veil(SoundSystemRequest(s, payload, env), r, ra)
  {
    var system := ParseSystem(payload);
    if system.Some? {
      ReopenVeiled(s, system.value, env, r, ra);
      var s1 := Reopen(s, system.value, env);
      OutputVeiled(s1, system.value, env.open, s1.current, r, ra);
    }
  }

  lemma SpeedVeiled(s: State, payload: string, r: string, ra: Address)
    ensures SpeedRequest(Veil(s, r, ra), payload) == Veil(SpeedRequest(s, payload), r, ra)
    ensures SpeedRequest(s, payload).ptt == s.ptt
  {
    hide Machine.InRange;
  }

  lemma ToneVeiled(s: State, payload: string, r: string, ra: Address)
    ensures ToneRequest(Veil(s, r, ra), payload) == Veil(ToneRequest(s, payload), r, ra)
    ensures ToneRequest(s, payload).ptt == s.ptt
  {
    hide Machine.InRange, SetTone;
    var v := Machine.InRange(payload, 0, CW.frequencyMax);
    if v.Some? {
      SetToneVeiled(s, v.value, r, ra);
    }
  }

  lemma SetToneVeiled(s: State, hz: int, r: string, ra: Address)
    ensures SetTone(Veil(s, r, ra), hz) == Veil(SetTone(s, hz), r, ra) && SetTone(s, hz).ptt == s.ptt
  {
  }

  lemma WeightingVeiled(s: State, payload: string, r: string, ra: Address)
    ensures WeightingRequest(Veil(s, r, ra), payload) == Veil(WeightingRequest(s, payload), r, ra)
    ensures WeightingRequest(s, payload).ptt == s.ptt
  {
    hide Machine.InRange;
  }

  lemma VolumeVeiled(s: State, payload: string, r: string, ra: Address)
    ensures VolumeRequest(Veil(s, r, ra), payload) == Veil(VolumeRequest(s, payload), r, ra)
    ensures VolumeRequest(s, payload).ptt == s.ptt
  {
    hide Machine.InRange;
  }

  lemma ManualOnVeiled(s: State, r: string, ra: Address)
    ensures ManualOn(Veil(s, r, ra)) == Veil(ManualOn(s), r, ra) && ManualOn(s).ptt.echo == s.ptt.echo
  {
  }

  lemma ManualOffVeiled(s: State, r: string, ra: Address)
    requires !s.ptt.echo
    ensures ManualOff(Veil(s, r, ra)) == Veil(ManualOff(s), r, ra) && !ManualOff(s).ptt.echo
  {
  }

  lemma PttVeiled(s: State, payload: string, r: string, ra: Address)
    requires !s.ptt.echo
    ensures PttRequest(Veil(s, r, ra), payload) == Veil(PttRequest(s, payload), r, ra)
    ensures !PttRequest(s, payload).ptt.echo
  {
    ManualOnVeiled(s, r, ra);
    ManualOffVeiled(s, r, ra);
  }

  lemma DelayVeiled(s: State, payload: string, r: string, ra: Address)
    requires !s.ptt.echo
    ensures DelayRequest(Veil(s, r, ra), payload) == Veil(DelayRequest(s, payload), r, ra)
    ensures !DelayRequest(s, payload).ptt.echo
  {
  }

  lemma AbortVeiled(s: State, r: string, ra: Address)
    requires !s.ptt.echo
    ensures Abort(Veil(s, r, ra)) == Veil(Abort(s), r, ra) && !Abort(s).ptt.echo
  {
  }

  lemma DevFreeVeiled(s: State, r: string, ra: Address)
    ensures DevFree(Veil(s, r, ra)) == Veil(DevFree(s), r, ra) && DevFree(s).ptt == s.ptt
  {
  }

  lemma FreeDescVeiled(s: State, k: Kind, r: string, ra: Address)
    ensures FreeDesc(Veil(s, r, ra), k) == Veil(FreeDesc(s, k), r, ra) && FreeDesc(s, k).ptt == s.ptt
  {
  }

  lemma RenamedVeiled(s: State, was: Kind, k: Kind, name: string, r: string, ra: Address)
    ensures Renamed(Veil(s, r, ra), was, k, name) == Veil(Renamed(s, was, k, name), r, ra)
    ensures Renamed(s, was, k, name).ptt == s.ptt
  {
    FreeDescVeiled(s, was, r, ra);
    FreeDescVeiled(FreeDesc(s, was), k, r, ra);
  }

  lemma DevInitVeiled(s: State, k: Kind, fd: int, r: string, ra: Address)
    ensures DevInit(Veil(s, r, ra), k, fd) == Veil(DevInit(s, k, fd), r, ra) && DevInit(s, k, fd).ptt == s.ptt
  {
  }

  lemma CwdeviceSetVeiled(s: State, name: string, probe: Probe, r: string, ra: Address)
    ensures CwdeviceSet(Veil(s, r, ra), name, probe) == Veil(CwdeviceSet(s, name, probe), r, ra)
    ensures CwdeviceSet(s, name, probe).ptt == s.ptt
  {
    var k := if probe.IsTty? then Tty else NullDevice;
    var fd := if probe.IsTty? then s.os.opens else if name == "null" then 0 else -1;
    var s1 := Probed(s, probe);
    assert Probed(Veil(s, r, ra), probe) == Veil(s1, r, ra);
    DevFreeVeiled(s1, r, ra);
    RenamedVeiled(DevFree(s1), s.dev.current, k, name, r, ra);
    DevInitVeiled(Renamed(DevFree(s1), s.dev.current, k, name), k, fd, r, ra);
  }

  lemma CwdeviceVeiled(s: State, payload: string, probe: Probe, r: string, ra: Address)
    ensures CwdeviceRequest(Veil(s, r, ra), payload, probe) == Veil(CwdeviceRequest(s, payload, probe), r, ra)
    ensures CwdeviceRequest(s, payload, probe).ptt == s.ptt
  {
    hide CwdeviceSet;
    CwdeviceSetVeiled(Call(s, RegisterKeying(None)), payload, probe, r, ra);
  }

  lemma ExitVeiled(s: State, r: string, ra: Address)
    ensures Exit(Veil(s, r, ra)) == Veil(Exit(s), r, ra) && Exit(s).ptt == s.ptt
  {
    DevFreeVeiled(CloseOutput(s), r, ra);
    FreeDescVeiled(DevFree(CloseOutput(s)), Tty, r, ra);
    FreeDescVeiled(FreeDesc(DevFree(CloseOutput(s)), Tty), NullDevice, r, ra);
  }

  lemma EscapedInLockstep(a: State, b: State, text: string, env: Env)
    requires Lockstep(a, b) && text != ""
    ensures Lockstep(Escaped(a, text, env), Escaped(b, text, env))
  {
    hide Reset, SpeedRequest, ToneRequest, WeightingRequest, VolumeRequest, Abort, Exit, CwdeviceRequest, PttRequest,
      TuneRequest, DelayRequest, SoundSystemRequest;
    if !a.ptt.echo {
      var payload, r, ra := Payload(text), b.reply, b.replyAddress;
      match Code(text)
      case '0' => ResetVeiled(a, env.open, r, ra);
      case '2' => SpeedVeiled(a, payload, r, ra);
      case '3' => ToneVeiled(a, payload, r, ra);
      case '4' => AbortVeiled(a, r, ra);
      case '5' => ExitVeiled(a, r, ra);
      case '7' => WeightingVeiled(a, payload, r, ra);
      case '8' => CwdeviceVeiled(a, payload, env.probe, r, ra);
      case 'a' => PttVeiled(a, payload, r, ra);
      case 'c' => TuneVeiled(a, payload, env.schedule(0).tones, r, ra);
      case 'd' => DelayVeiled(a, payload, r, ra);
      case 'f' => SoundSystemVeiled(a, payload, env, r, ra);
      case 'g' => VolumeVeiled(a, payload, r, ra);
      case _ =>
    }
  }

  // ---------- steps and runs ----------

  lemma SetPttOffIgnoresRequests(s: State, address: Address)
    ensures SetPttOff(s.(requestAddress := address)) == SetPttOff(s).(requestAddress := address)
  {
  }

  lemma SendReplyIgnoresRequests(s: State, address: Address)
    ensures SendReply(s.(requestAddress := address)) == SendReply(s).(requestAddress := address)
  {
  }

  lemma PlayTickIgnoresRequests(s: State, tick: Tick, address: Address)
    ensures PlayTick(s.(requestAddress := address), tick) == PlayTick(s, tick).(requestAddress := address)
  {
    hide PlayTone, DriveLine;
    PlayToneIgnoresRequests(s, address);
    DriveLineIgnoresRequests(s, s.dev.pins.key, tick == Mark(true), address);
  }

  lemma DriveLineIgnoresRequests(s: State, line: Option<Line>, on: bool, address: Address)
    ensures DriveLine(s.(requestAddress := address), line, on) == DriveLine(s, line, on).(requestAddress := address)
  {
  }

  lemma PlayToneIgnoresRequests(s: State, address: Address)
    ensures PlayTone(s.(requestAddress := address)) == PlayTone(s).(requestAddress := address)
  {
    hide SetPttOff, SendReply;
    var s1 := s.(libcw := s.libcw.(tones := if s.libcw.tones > 0 then s.libcw.tones - 1 else 0));
    SetPttOffIgnoresRequests(s1, address);
    SendReplyIgnoresRequests(s1, address);
  }

  lemma PlayTickAlike(a: State, b: State, tick: Tick)
    requires Alike(a, b) && a.out == b.out && a.mail == b.mail
    ensures var t, u := PlayTick(a, tick), PlayTick(b, tick); Alike(t, u) && t.out == u.out && t.mail == u.mail
  {
    hide PlayTick;
    var c := a.(requestAddress := b.requestAddress);
    PlayTickIgnoresRequests(a, tick, b.requestAddress);
    if !a.ptt.echo {
      PlayTickVeiled(c, tick, b.reply, b.replyAddress);
    }
  }

  /** Alike states do the same in one step and stay alike. */
  lemma StepAlike(a: State, b: State, e: Event)
    requires Alike(a, b)
    ensures var t, u := Step(a, e), Step(b, e); Alike(t, u) && t.out == u.out && t.mail == u.mail
  {
    hide PlayTick, TextRequest, Escaped;
    var a0, b0 := a.(out := [], mail := []), b.(out := [], mail := []);
    if a.alive {
      match e
      case Thread(tick) => PlayTickAlike(a0, b0, tick);
      case Datagram(bytes, client, env) =>
        var a1, b1 := a0.(requestAddress := client), b0.(requestAddress := client);
        assert Lockstep(a1, b1);
        var d := TrimEnd(Stored(bytes));
        if d != "" {
          if d[0] != ESC {
            TextInLockstep(a1, b1, CStr(d), env.schedule);
          } else {
            assert CStr(d) != "";
            EscapedInLockstep(a1, b1, CStr(d), env);
          }
        }
    }
  }

  lemma {:induction false} TraceAlike(a: State, b: State, es: seq<Event>)
    requires Alike(a, b)
    ensures Trace(a, es) == Trace(b, es)
    decreases |es|
  {
    if es != [] {
      StepAlike(a, b, es[0]);
      TraceAlike(Step(a, es[0]), Step(b, es[0]), es[1..]);
    }
  }

  // ---------- the command line that leads to the same place ----------

  /** A daemon about to open its sound output, with the device that `s` has, its pins at rest. */
  function BootedLike(s: State): State {
    Boot(s.defaults).(dev := s.dev, os := DevReset(s).os)
  }

  predicate SameButOut(a: State, b: State) { b == a.(out := b.out) }

  /** The argument `-d` that does what an event did: one for every CWDEVICE request with a name. */
  function DeviceArg(e: Event): seq<Argument> {
    if e.Datagram? && RequestCode(e.bytes) == '8' && Payload(RequestText(e.bytes)) != "" then
      [Device(Payload(RequestText(e.bytes)), e.env.probe)]
    else []
  }

  function DeviceArgs(es: seq<Event>): seq<Argument> {
    if es == [] then [] else DeviceArg(es[0]) + DeviceArgs(es[1..])
  }

  lemma {:induction false} ArgueInParts(s: State, args: seq<Argument>, more: seq<Argument>)
    requires ArgueAll(s, args).Some?
    ensures ArgueAll(s, args + more) == ArgueAll(ArgueAll(s, args).value, more)
    decreases |args|
  {
    hide Argue;
    if args == [] {
      assert args + more == more;
    } else {
      assert (args + more)[1..] == args[1..] + more;
      ArgueInParts(Argue(s, args[0]).value, args[1..], more);
    }
  }

  /** The pins of a tty are low, so that resetting them changes nothing. */
  predicate AtRest(s: State) { DevReset(s).os == s.os }

  lemma LowIsAtRest(s: State)
    requires s.dev.current.Tty? && s.dev.ttyFd in s.os.open
    requires s.dev.pins.key.Some? ==> s.dev.pins.key.value !in s.os.open[s.dev.ttyFd]
    requires s.dev.pins.ptt.Some? ==> s.dev.pins.ptt.value !in s.os.open[s.dev.ttyFd]
    ensures AtRest(s)
  {
    var fd, lines := s.dev.ttyFd, s.os.open[s.dev.ttyFd];
    assert s.os.open[fd := lines] == s.os.open;
    assert forall l :: l !in lines ==> lines - {l} == lines;
  }

  lemma RestIsLow(s: State)
    requires AtRest(s) && s.dev.current.Tty? && s.dev.ttyFd in s.os.open
    ensures s.dev.pins.key.Some? ==> s.dev.pins.key.value !in s.os.open[s.dev.ttyFd]
    ensures s.dev.pins.ptt.Some? ==> s.dev.pins.ptt.value !in s.os.open[s.dev.ttyFd]
  {
    assert DevReset(s).os.open[s.dev.ttyFd] == s.os.open[s.dev.ttyFd];
  }

  lemma InitRests(s: State, k: Kind, fd: int)
    requires k.Tty? ==> fd in s.os.open
    ensures AtRest(DevInit(s, k, fd)) && DevInit(s, k, fd).defaults == s.defaults
  {
    if k.Tty? {
      LowIsAtRest(DevInit(s, k, fd));
    }
  }

  lemma SwitchRests(s: State, name: string, probe: Probe)
    requires Resources(s) && s.alive
    ensures AtRest(CwdeviceSet(s, name, probe)) && CwdeviceSet(s, name, probe).defaults == s.defaults
  {
    hide DevInit, AtRest;
    var k := if probe.IsTty? then Tty else NullDevice;
    var s1 := Probed(s, probe);
    ProbedKeeps(s, probe);
    DevFreeKeeps(s1);
    RenamedKeeps(DevFree(s1), s.dev.current, k, name);
    var fd := if probe.IsTty? then s.os.opens else if name == "null" then 0 else -1;
    assert fd in DevFree(s1).os.open.Keys || !probe.IsTty?;
    InitRests(Renamed(DevFree(s1), s.dev.current, k, name), k, fd);
  }

  lemma OptionRests(s: State, text: string)
    requires Booting(s) && AtRest(s) && Argue(s, DriverOption(text)).Some?
    ensures var t := Argue(s, DriverOption(text)).value; AtRest(t) && t.defaults == s.defaults
  {
    hide OptParse;
    var t := Argue(s, DriverOption(text)).value;
    assert s.dev.ttyFd in s.os.open.Keys;
    RestIsLow(s);
    LowIsAtRest(t);
  }

  lemma {:induction false} ArgumentsRest(s: State, args: seq<Argument>)
    requires Booting(s) && AtRest(s) && ArgueAll(s, args).Some?
    ensures var t := ArgueAll(s, args).value; Booting(t) && AtRest(t) && t.defaults == s.defaults
    decreases |args|
  {
    if args != [] {
      ArgueKeeps(s, args[0]);
      ArgumentRests(s, args[0]);
      hide Argue, Booting, AtRest;
      ArgumentsRest(Argue(s, args[0]).value, args[1..]);
    }
  }

  lemma ArgumentRests(s: State, a: Argument)
    requires Booting(s) && AtRest(s) && Argue(s, a).Some?
    ensures AtRest(Argue(s, a).value) && Argue(s, a).value.defaults == s.defaults
  {
    hide CwdeviceSet, AtRest, OptParse;
    if a.Device? {
      SwitchRests(s, a.name, a.probe);
    } else {
      OptionRests(s, a.text);
    }
  }

  /** The command line leaves the daemon exactly so. */
  lemma LaunchedLike(defaults: Params, args: seq<Argument>, bind: Address, r: OpenResult)
    requires InRangeParams(defaults) && Launch(defaults, args, bind, r).Some?
    ensures SameButOut(BootedLike(Launch(defaults, args, bind, r).value), ArgueAll(Boot(defaults), args).value)
    ensures Booting(ArgueAll(Boot(defaults), args).value)
  {
    hide DevReset, CwdeviceSet, OptParse, ArgueAll;
    var b := ArgueAll(Boot(defaults), args).value;
    var t := Start(b, bind, r).value;
    BootIsBooting(defaults);
    BootRests(defaults);
    ArgumentsRest(Boot(defaults), args);
    ResetAlmostAllIs(b.(requestAddress := bind), r);
    assert t.dev == b.dev && t.os == b.os && t.defaults == b.defaults;
    SameReset(b, t);
  }

  lemma BootRests(defaults: Params)
    ensures AtRest(Boot(defaults)) && Boot(defaults).defaults == defaults
  {
  }

  lemma SameReset(a: State, b: State)
    requires a.dev == b.dev && a.os == b.os
    ensures DevReset(a).os == DevReset(b).os
  {
  }

  // ---------- switching devices, by request and by argument ----------

  predicate SameOffice(a: State, b: State) { a.dev == b.dev && a.os == b.os }

  /** Once the old device is closed, it makes no difference how its lines stood. */
  lemma FreedAlike(s: State, probe: Probe)
    requires Resources(s) && s.alive
    ensures SameOffice(DevFree(Probed(s, probe)), DevFree(Probed(BootedLike(s), probe)))
  {
    hide DevFree, Probed, DevReset;
    var b := BootedLike(s);
    BootedResources(s);
    ProbedKeeps(s, probe);
    ProbedKeeps(b, probe);
    FreedOs(Probed(s, probe));
    FreedOs(Probed(b, probe));
    if s.dev.current.NullDevice? {
      NullIsAtRest(s);
    }
    ProbedAlike(s, b, probe);
  }

  lemma NullIsAtRest(s: State)
    requires s.dev.current.NullDevice?
    ensures DevReset(s).os == s.os
  {
  }

  /** Closing the device takes its lines away, however they stood. */
  lemma FreedOs(s: State)
    ensures var t := DevFree(s); var fd := s.dev.ttyFd;
      if s.dev.current.Tty? then
        t.os == s.os.(open := s.os.open - {fd}, closed := s.os.closed + [fd]) && t.dev == s.dev.(ttyFd := -1)
      else t == s
  {
    if s.dev.current.Tty? {
      assert DevFree(s).os.open == s.os.open - {s.dev.ttyFd};
    }
  }

  /** Two desks that differ in the lines of the tty only, after probing. */
  lemma ProbedAlike(s: State, b: State, probe: Probe)
    requires b.dev == s.dev && b.os == s.os.(open := b.os.open)
    requires s.os.opens !in s.os.open && s.os.opens !in b.os.open
    requires s.os.open - {s.dev.ttyFd} == b.os.open - {s.dev.ttyFd}
    ensures var x, y := Probed(s, probe), Probed(b, probe);
      && y.dev == x.dev && y.os == x.os.(open := y.os.open) && x.os.open - {s.dev.ttyFd} == y.os.open - {s.dev.ttyFd}
      && (s.os == b.os ==> x.os == y.os)
  {
    var x, y := Probed(s, probe), Probed(b, probe);
    if probe.Rejected? {
      assert x.os.open == s.os.open && y.os.open == b.os.open;
    }
    assert forall fd :: fd in s.os.open && fd != s.dev.ttyFd <==> fd in (s.os.open - {s.dev.ttyFd});
    assert forall fd | fd in (s.os.open - {s.dev.ttyFd}) :: s.os.open[fd] == (b.os.open - {s.dev.ttyFd})[fd];
    assert x.os.open - {s.dev.ttyFd} == y.os.open - {s.dev.ttyFd};
  }

  lemma BootedResources(s: State)
    requires Resources(s) && s.alive
    ensures Resources(BootedLike(s)) && SameResources(s, BootedLike(s))
  {
    DevResetKeeps(s);
    SameResourcesKeeps(s, BootedLike(s));
  }

  lemma RenamedInOffice(a: State, b: State, was: Kind, k: Kind, name: string)
    requires SameOffice(a, b)
    ensures SameOffice(Renamed(a, was, k, name), Renamed(b, was, k, name))
  {
    hide FreeDesc;
    FreeDescInOffice(a, b, was);
    FreeDescInOffice(FreeDesc(a, was), FreeDesc(b, was), k);
  }

  lemma FreeDescInOffice(a: State, b: State, k: Kind)
    requires SameOffice(a, b)
    ensures SameOffice(FreeDesc(a, k), FreeDesc(b, k))
  {
  }

  lemma InitInOffice(a: State, b: State, k: Kind, fd: int)
    requires SameOffice(a, b)
    ensures SameOffice(DevInit(a, k, fd), DevInit(b, k, fd))
  {
  }

  lemma SwitchInOffice(a: State, b: State, name: string, probe: Probe)
    requires a.dev.current == b.dev.current && a.os.opens == b.os.opens
    requires SameOffice(DevFree(Probed(a, probe)), DevFree(Probed(b, probe)))
    ensures SameOffice(CwdeviceSet(a, name, probe), CwdeviceSet(b, name, probe))
  {
    hide DevFree, Probed, Renamed, DevInit;
    var k := if probe.IsTty? then Tty else NullDevice;
    var fd := if probe.IsTty? then a.os.opens else if name == "null" then 0 else -1;
    var x, y := DevFree(Probed(a, probe)), DevFree(Probed(b, probe));
    RenamedInOffice(x, y, a.dev.current, k, name);
    InitInOffice(Renamed(x, a.dev.current, k, name), Renamed(y, a.dev.current, k, name), k, fd);
  }

  /** A switch of the running daemon and the same switch on a command line end at the same place. */
  lemma SwitchIsArgument(s: State, b: State, name: string, probe: Probe)
    requires Resources(s) && s.alive && SameButOut(BootedLike(s), b)
    ensures SameButOut(BootedLike(CwdeviceSet(s, name, probe)), CwdeviceSet(b, name, probe))
    ensures Resources(b)
  {
    hide CwdeviceSet, DevFree, Probed, DevReset, Resources;
    var t, u := CwdeviceSet(s, name, probe), CwdeviceSet(b, name, probe);
    var c := BootedLike(s);
    BootedResources(s);
    SameResourcesKeeps(c, b);
    CwdeviceSetKeeps(s, name, probe);
    CwdeviceSetKeeps(b, name, probe);
    SwitchRests(s, name, probe);
    FreedAlike(s, probe);
    FreedIgnoresOut(c, b, probe);
    SwitchInOffice(s, b, name, probe);
  }

  lemma FreedIgnoresOut(a: State, b: State, probe: Probe)
    requires SameButOut(a, b)
    ensures SameOffice(DevFree(Probed(a, probe)), DevFree(Probed(b, probe)))
  {
    hide DevFree;
    FreedOs(Probed(a, probe));
    FreedOs(Probed(b, probe));
  }

  lemma SwitchStep(s: State, e: Event)
    requires s.alive && e.Datagram? && DeviceArg(e) != []
    ensures Step(s, e) == CwdeviceRequest(s.(out := [], mail := [], requestAddress := e.client),
                                          DeviceArg(e)[0].name, DeviceArg(e)[0].probe)
    ensures DeviceArg(e)[0].Device? && DeviceArg(e)[0].name != ""
  {
    hide CwdeviceRequest;
  }

  lemma SwitchRequest(s: State, b: State, name: string, probe: Probe)
    requires Resources(s) && s.alive && SameButOut(BootedLike(s), b) && name != ""
    ensures SameButOut(BootedLike(CwdeviceRequest(s, name, probe)), CwdeviceSet(b, name, probe))
  {
    hide CwdeviceSet, DevReset, Resources;
    var s1 := Call(s, RegisterKeying(None));
    SameResourcesKeeps(s, s1);
    SameReset(s, s1);
    SwitchIsArgument(s1, b, name, probe);
    var t := CwdeviceSet(s1, name, probe);
    SameReset(t, Call(t, RegisterKeying(Some(t.dev.current))));
  }

  lemma DeskStep(s: State, e: Event)
    requires Inv(s) && s.alive && DeviceArg(e) == [] && Step(s, e).alive
    ensures SameDesk(s, Step(s, e))
  {
    hide PlayTick, TextRequest, Escaped, DevReset, Inv;
    InvKeying(s);
    var s0 := s.(out := [], mail := []);
    SameOsSameDesk(s, s0);
    match e
    case Thread(tick) => PlayTickKeepsDesk(s0, tick);
    case Datagram(bytes, client, env) =>
      var s1 := s0.(requestAddress := client);
      SameOsSameDesk(s, s1);
      var b := TrimEnd(Stored(bytes));
      if b != "" {
        if b[0] != ESC {
          TextKeepsDesk(s1, CStr(b), env.schedule);
        } else {
          assert CStr(b) != "" && CStr(b)[0] == ESC;
          NamelessKeepsDesk(s1, CStr(b), env);
        }
      }
  }

  lemma NamelessKeepsDesk(s: State, text: string, env: Env)
    requires Escaped(s, text, env).alive && (Code(text) == '8' ==> Payload(text) == "")
    ensures SameDesk(s, Escaped(s, text, env))
  {
    hide DevReset;
    if Code(text) == '8' {
      SameOsSameDesk(s, Call(s, RegisterKeying(None)));
    } else if Code(text) == '5' {
      ExitEnds(s, text, env);
    } else {
      hide Escaped;
      EscapedKeepsDesk(s, text, env);
    }
  }

  /** One event of the running daemon against its argument on the command line. */
  lemma StepIsArgument(s: State, b: State, e: Event)
    requires Inv(s) && s.alive && Step(s, e).alive && SameButOut(BootedLike(s), b)
    ensures ArgueAll(b, DeviceArg(e)).Some?
    ensures SameButOut(BootedLike(Step(s, e)), ArgueAll(b, DeviceArg(e)).value)
  {
    if DeviceArg(e) == [] {
      hide Step, DevReset, Inv;
      DeskStep(s, e);
    } else {
      hide Step, CwdeviceSet, CwdeviceRequest, DevReset;
      var a := DeviceArg(e)[0];
      var s1 := s.(out := [], mail := [], requestAddress := e.client);
      SwitchStep(s, e);
      SameResourcesKeeps(s, s1);
      SameReset(s, s1);
      SwitchRequest(s1, b, a.name, a.probe);
      assert DeviceArg(e)[1..] == [];
    }
  }

  lemma {:induction false} RunIsArguments(s: State, b: State, es: seq<Event>)
    requires Inv(s) && s.alive && Run(s, es).alive && SameButOut(BootedLike(s), b)
    ensures ArgueAll(b, DeviceArgs(es)).Some?
    ensures SameButOut(BootedLike(Run(s, es)), ArgueAll(b, DeviceArgs(es)).value)
    decreases |es|
  {
    if es != [] {
      hide Step, Inv, BootedLike, SameButOut, DeviceArg, Argue;
      StaysDead(Step(s, es[0]), es[1..]);
      StepKeeps(s, es[0]);
      StepIsArgument(s, b, es[0]);
      var c := ArgueAll(b, DeviceArg(es[0])).value;
      RunIsArguments(Step(s, es[0]), c, es[1..]);
      ArgueInParts(b, DeviceArg(es[0]), DeviceArgs(es[1..]));
    }
  }

  /** The state of the running daemon, but for sound and PTT, is the one that its command line leads to when every
      device that clients switched to since is added as a further `-d`. */
  lemma RunningLike(defaults: Params, args: seq<Argument>, bind: Address, r: OpenResult, es: seq<Event>)
    requires InRangeParams(defaults) && Launch(defaults, args, bind, r).Some?
    requires Reached(defaults, args, bind, r, es).alive
    ensures var b := ArgueAll(Boot(defaults), args + DeviceArgs(es));
      b.Some? && SameButOut(BootedLike(Reached(defaults, args, bind, r, es)), b.value)
  {
    hide Inv, Run, ArgueAll, BootedLike, DeviceArgs;
    LaunchIsSafe(defaults, args, bind, r);
    LaunchedLike(defaults, args, bind, r);
    RunIsArguments(Launch(defaults, args, bind, r).value, ArgueAll(Boot(defaults), args).value, es);
    ArgueInParts(Boot(defaults), args, DeviceArgs(es));
  }

  // ---------- the restart ----------

  lemma ResetIsStart(s: State, b: State, bind: Address)
    requires Inv(s) && s.alive && SameButOut(BootedLike(s), b) && Start(b, bind, Opened).Some?
    ensures Alike(Reset(s, Opened), Start(b, bind, Opened).value)
  {
    hide ResetAlmostAll, DevReset;
    ResetAlmostAllIs(s.(queue := ""), Opened);
    ResetAlmostAllIs(b.(requestAddress := bind), Opened);
    var t := ResetAlmostAll(s.(queue := ""), Opened).(wordmode := false);
    SameReset(s, t);
    DevResetKeeps(t);
  }

  lemma ResetStep(s: State, bytes: string, client: Address, env: Env)
    requires s.alive && RequestCode(bytes) == '0'
    ensures Step(s, Datagram(bytes, client, env))
      == Reset(s.(out := [], mail := [], requestAddress := client), env.open)
  {
    hide Reset;
  }

  lemma RestedAlike(s: State, t: State)
    requires t == s.(out := t.out, mail := t.mail, requestAddress := t.requestAddress)
    ensures BootedLike(s) == BootedLike(t)
  {
    SameReset(s, t);
  }

  /** After a RESET that could open the sound output, at any point of any run: whatever requests and callbacks
      come next, the daemon does exactly what one does that was started afresh, with the same defaults and the same
      command line followed by a `-d` for every device that clients switched to: the same line changes, libcw calls
      and datagrams, event by event. */
  lemma ResetIsRestart(
      defaults: Params, args: seq<Argument>, bind: Address, r: OpenResult, es: seq<Event>,
      bytes: string, client: Address, env: Env, later: seq<Event>)
    requires InRangeParams(defaults) && Launch(defaults, args, bind, r).Some?
    requires Reached(defaults, args, bind, r, es).alive
    requires RequestCode(bytes) == '0' && env.open.Opened?
    requires Launch(defaults, args + DeviceArgs(es), bind, Opened).Some?
    ensures Trace(Step(Reached(defaults, args, bind, r, es), Datagram(bytes, client, env)), later)
      == Trace(Launch(defaults, args + DeviceArgs(es), bind, Opened).value, later)
  {
    hide Trace, Step, Reset, Start, BootedLike, Run, Inv, ArgueAll, DeviceArgs;
    var s := Reached(defaults, args, bind, r, es);
    var s1 := s.(out := [], mail := [], requestAddress := client);
    var b := ArgueAll(Boot(defaults), args + DeviceArgs(es)).value;
    EveryRunIsSafe(defaults, args, bind, r, es);
    RunningLike(defaults, args, bind, r, es);
    RequestKeepsInv(s, client);
    ResetStep(s, bytes, client, env);
    RestedAlike(s, s1);
    ResetIsStart(s1, b, bind);
    TraceAlike(Reset(s1, Opened), Start(b, bind, Opened).value, later);
  }

  lemma RequestKeepsInv(s: State, client: Address)
    requires Inv(s)
    ensures Inv(s.(out := [], mail := [], requestAddress := client))
  {
    SameResourcesKeeps(s, s.(out := [], mail := [], requestAddress := client));
  }

  /** That fresh daemon can be launched exactly if the running one has the null device or pins that pass validation;
      so always if the running one was launched on a tty. */
  lemma FreshLaunchExactly(defaults: Params, args: seq<Argument>, bind: Address, r: OpenResult, es: seq<Event>)
    requires InRangeParams(defaults) && Launch(defaults, args, bind, r).Some?
    requires Reached(defaults, args, bind, r, es).alive
    ensures var s := Reached(defaults, args, bind, r, es);
      Launch(defaults, args + DeviceArgs(es), bind, Opened).Some? <==>
        s.dev.current.NullDevice? || OptValidate(s.dev.pins)
    ensures Launch(defaults, args, bind, r).value.dev.current.Tty? ==>
      Launch(defaults, args + DeviceArgs(es), bind, Opened).Some?
  {
    var s0 := Launch(defaults, args, bind, r).value;
    hide Run, Inv, ArgueAll, DeviceArgs, DevReset, ResetAlmostAll;
    RunningLike(defaults, args, bind, r, es);
    LaunchIsSafe(defaults, args, bind, r);
    RunKeepsPins(s0, es);
    LaunchedPins(defaults, args, bind, r);
  }
}
