/** What holds in every reachable state: an inductive invariant over start, requests and callbacks, with the
    callbacks interleaved at any point of the player. */
module Safety {
  import opened Basics
  import opened DriverOptions
  import opened World
  import opened Machine
  import Player

  // ---------- the invariant ----------

  predicate PttPinOn(s: State) {
    && s.dev.current.Tty? && s.dev.pins.ptt.Some?
    && s.dev.ttyFd in s.os.open && s.dev.pins.ptt.value in s.os.open[s.dev.ttyFd]
  }

  /** The PTT pin is raised only for automatic PTT with a delay, provided keying does not use the same line. */
  predicate PinInv(s: State) {
    OptValidate(s.dev.pins) && PttPinOn(s) ==> s.ptt.auto && s.current.delay > 0
  }

  /** libcw works with the daemon's current parameters. */
  predicate Mirrored(s: State) {
    && s.libcw.gen == Running(s.current.system)
    && s.libcw.lowCallback
    && s.libcw.speed == s.current.speed
    && s.libcw.weighting == LibcwWeighting(s.current.weighting)
    && 20 <= s.libcw.weighting <= 80
    && (s.libcw.volume == s.current.volume || (s.libcw.volume == 0 && s.current.tone == 0))
    && (s.current.tone != 0 ==> s.libcw.frequency == s.current.tone)
  }

  predicate AudioInv(s: State) {
    && (s.libcw.gap == 0 || s.libcw.gap == 2)
    && (s.alive ==> if s.hasAudio then Mirrored(s) else !s.libcw.gen.Running?)
  }

  /** Keying never goes to a device that is not the current one. */
  predicate KeyingInv(s: State) {
    s.libcw.keying == None || (s.alive && s.libcw.keying == Some(s.dev.current))
  }

  /** A pending reply still has room for CRLF and NUL in the buffer of 258 bytes. */
  predicate ReplyInv(s: State) {
    s.ptt.echo ==> |s.reply| + 2 <= REPLY_SIZE_MAX && NUL !in s.reply
  }

  ghost predicate ParamInv(s: State) { InRangeParams(s.defaults) && InRangeParams(s.current) }

  /** No two positions hold the same number. */
  predicate NoRepeats(h: seq<int>) { forall i, j :: 0 <= i < j < |h| ==> h[i] != h[j] }

  /** open() and close() match: every descriptor ever opened is either open or was closed exactly once. */
  ghost predicate FdLedger(os: Os) {
    && NoRepeats(os.closed)
    && (forall fd :: 0 <= fd < os.opens <==> fd in os.open || fd in os.closed)
    && (forall fd :: fd in os.open ==> fd !in os.closed)
  }

  /** The only open descriptor is the tty's, while the tty is the current device. */
  ghost predicate FdInv(s: State) {
    FdLedger(s.os) && s.os.open.Keys == if s.alive && s.dev.current.Tty? then {s.dev.ttyFd} else {}
  }

  /** strdup() and free() match: every name ever allocated is either owned or was freed exactly once. */
  ghost predicate NameLedger(os: Os, owned: set<int>) {
    && NoRepeats(os.freed)
    && (forall id :: 0 <= id < os.strings <==> id in owned || id in os.freed)
    && (forall id :: id in owned ==> id !in os.freed)
  }

  function DescId(d: Option<Str>): set<int> { if d.Some? then {d.value.id} else {} }

  function Owned(d: Devices): set<int> { DescId(d.ttyDesc) + DescId(d.nullDesc) }

  /** The names are owned by the two devices, each its own; the current device has one; none is left at exit. */
  ghost predicate NameInv(s: State) {
    && NameLedger(s.os, Owned(s.dev))
    && DescId(s.dev.ttyDesc) !! DescId(s.dev.nullDesc)
    && (s.alive ==> if s.dev.current.Tty? then s.dev.ttyDesc.Some? else s.dev.nullDesc.Some?)
    && (!s.alive ==> Owned(s.dev) == {})
  }

  ghost predicate Resources(s: State) { FdInv(s) && NameInv(s) }

  ghost predicate Behaviour(s: State) { PinInv(s) && AudioInv(s) && KeyingInv(s) && ReplyInv(s) && ParamInv(s) }

  /** Everything but the emptiness of the queue, which does not hold inside the player. */
  ghost predicate Mid(s: State) { Resources(s) && Behaviour(s) }

  ghost predicate Inv(s: State) { Mid(s) && s.queue == "" }

  /** A step that opens, closes, names and frees nothing. */
  predicate SameResources(s: State, t: State) {
    && t.dev == s.dev && t.alive == s.alive
    && t.os == s.os.(open := t.os.open) && t.os.open.Keys == s.os.open.Keys
  }

  lemma SameResourcesKeeps(s: State, t: State)
    requires Resources(s) && SameResources(s, t)
    ensures Resources(t)
  {
    assert forall fd :: fd in t.os.open <==> fd in s.os.open.Keys;
  }

  // ---------- callbacks ----------

  lemma SetPttOffKeeps(s: State)
    requires AudioInv(s) && KeyingInv(s) && ParamInv(s)
    ensures Behaviour(SetPttOff(s)) && SameResources(s, SetPttOff(s)) && SetPttOff(s).queue == s.queue
    ensures !PttPinOn(SetPttOff(s))
  {
  }

  lemma SendReplyKeeps(s: State)
    requires Behaviour(s) && s.ptt.echo && s.libcw.gen.Running?
    ensures Behaviour(SendReply(s)) && SameResources(s, SendReply(s)) && SendReply(s).queue == s.queue
  {
  }

  lemma PlayToneKeeps(s: State)
    requires Behaviour(s)
    ensures Behaviour(PlayTone(s)) && SameResources(s, PlayTone(s)) && PlayTone(s).queue == s.queue
  {
    if s.libcw.gen.Running? && s.libcw.tones > 0 {
      var s1 := s.(libcw := s.libcw.(tones := s.libcw.tones - 1));
      assert Behaviour(s1);
      SetPttOffKeeps(s1);
      if s1.ptt.echo {
        SendReplyKeeps(s1);
      }
    }
  }

  lemma KeyingEventKeeps(s: State, on: bool)
    requires Behaviour(s)
    ensures var t := KeyingEvent(s, on); Behaviour(t) && SameResources(s, t) && t.queue == s.queue
  {
  }

  lemma PlayTickKeeps(s: State, tick: Tick)
    requires Behaviour(s)
    ensures Behaviour(PlayTick(s, tick)) && SameResources(s, PlayTick(s, tick)) && PlayTick(s, tick).queue == s.queue
  {
    hide *;
    match tick
    case Tone => PlayToneKeeps(s); TickIs(s, true);
    case Mark(on) => KeyingEventKeeps(s, on); TickIs(s, on);
  }

  lemma TickIs(s: State, on: bool)
    ensures PlayTick(s, Tone) == PlayTone(s) && PlayTick(s, Mark(on)) == KeyingEvent(s, on)
  {
    hide PlayTone, KeyingEvent;
  }

  lemma {:induction false} PlayTicksKeeps(s: State, ticks: seq<Tick>)
    requires Behaviour(s)
    ensures Behaviour(PlayTicks(s, ticks)) && SameResources(s, PlayTicks(s, ticks))
    ensures PlayTicks(s, ticks).queue == s.queue
    decreases |ticks|
  {
    hide Behaviour, PlayTick;
    if ticks != [] {
      PlayTickKeeps(s, ticks[0]);
      PlayTicksKeeps(PlayTick(s, ticks[0]), ticks[1..]);
    }
  }

  // ---------- requests ----------

  lemma SetPttOnKeeps(s: State)
    requires Behaviour(s)
    ensures var t := SetPttOn(s);
      Behaviour(t) && SameResources(s, t) && t == s.(os := t.os, out := t.out, ptt := s.ptt.(auto := t.ptt.auto))
  {
  }

  lemma ConfigureMirrors(s: State, p: Params, k: Kind)
    requires InRangeParams(p)
    ensures var t := Call(ConfigureOutput(s, p), RegisterKeying(Some(k)));
      && t == s.(libcw := t.libcw, out := t.out)
      && t.libcw == Libcw(s.libcw.gen, p.speed, p.tone, p.volume, 0, LibcwWeighting(p.weighting), true, Some(k),
                          s.libcw.tones)
  {
  }

  lemma OpenAfterClose(s: State, system: AudioSystem, r: OpenResult)
    ensures var t := OpenOutput(CloseOutput(s), system, r);
      && t == s.(libcw := t.libcw, out := t.out)
      && t.libcw == (if r.CreateFailed? then s.libcw else NewLibcw(s.libcw, system)).(
           gen := if r.Opened? then Running(system) else if r.StartFailed? then Idle(system) else NoGenerator,
           lowCallback := false, keying := None, tones := 0)
  {
  }

  lemma ResetAlmostAllIs(s: State, r: OpenResult)
    requires InRangeParams(s.defaults)
    ensures var t := ResetAlmostAll(s, r); var p := s.defaults;
      && t == s.(current := p, hasAudio := r.Opened?, libcw := t.libcw, out := t.out)
      && (r.Opened? ==> t.libcw == Libcw(Running(p.system), p.speed, p.tone, p.volume, 0, LibcwWeighting(p.weighting),
                                         true, Some(s.dev.current), 0))
      && (!r.Opened? ==> t.libcw.keying == None && (t.libcw.gap == 0 || t.libcw.gap == s.libcw.gap)
                         && !t.libcw.gen.Running? && t.libcw.tones == 0)
  {
    var s1 := s.(current := s.defaults);
    OpenAfterClose(s1, s.defaults.system, r);
    var s2 := OpenOutput(CloseOutput(s1), s.defaults.system, r);
    if r.Opened? {
      ConfigureMirrors(s2.(hasAudio := true), s.defaults, s.dev.current);
    }
  }

  lemma DevResetKeeps(s: State)
    ensures var t := DevReset(s);
      && t == s.(os := t.os, out := t.out) && SameResources(s, t)
      && (s.dev.current.Tty? ==> !PttPinOn(t))
  {
  }

  lemma ResetKeeps(s: State, r: OpenResult)
    requires Behaviour(s) && s.alive
    ensures var t := Reset(s, r); Behaviour(t) && SameResources(s, t) && t.queue == ""
  {
    var s1 := s.(queue := "");
    ResetAlmostAllIs(s1, r);
    DevResetKeeps(ResetAlmostAll(s1, r).(wordmode := false));
  }

  lemma SpeedKeeps(s: State, payload: string)
    requires Behaviour(s) && s.alive
    ensures var t := SpeedRequest(s, payload); Behaviour(t) && SameResources(s, t) && t.queue == s.queue
  {
  }

  lemma SetToneKeeps(s: State, hz: int)
    requires Behaviour(s) && s.alive && 0 <= hz <= CW.frequencyMax
    ensures var t := SetTone(s, hz); Behaviour(t) && SameResources(s, t) && t.queue == s.queue
  {
  }

  lemma ToneKeeps(s: State, payload: string)
    requires Behaviour(s) && s.alive
    ensures var t := ToneRequest(s, payload); Behaviour(t) && SameResources(s, t) && t.queue == s.queue
  {
    var v := Machine.InRange(payload, 0, CW.frequencyMax);
    if v.Some? {
      SetToneKeeps(s, v.value);
    }
  }

  lemma AbortKeeps(s: State)
    requires Behaviour(s) && s.alive
    ensures var t := Abort(s); Behaviour(t) && SameResources(s, t) && (s.queue == "" ==> t.queue == "")
  {
    if !s.wordmode {
      var s1 := if s.ptt.echo then s.(mail := s.mail + [Sent(|s.out|, s.replyAddress, BREAK)]) else s;
      var s2 := Call(Call(s1.(queue := ""), FlushQueue), WaitForQueue);
      assert Behaviour(s2) && SameResources(s, s2);
      SetPttOffKeeps(s2);
    }
  }

  lemma WeightingKeeps(s: State, payload: string)
    requires Behaviour(s) && s.alive
    ensures var t := WeightingRequest(s, payload); Behaviour(t) && SameResources(s, t) && t.queue == s.queue
  {
  }

  lemma VolumeKeeps(s: State, payload: string)
    requires Behaviour(s) && s.alive
    ensures var t := VolumeRequest(s, payload); Behaviour(t) && SameResources(s, t) && t.queue == s.queue
  {
  }

  lemma ManualOnKeeps(s: State)
    requires Behaviour(s)
    ensures var t := ManualOn(s); Behaviour(t) && SameResources(s, t) && t.queue == s.queue
  {
    SetPttOnKeeps(s);
  }

  lemma ManualOffKeeps(s: State)
    requires Behaviour(s)
    ensures var t := ManualOff(s); Behaviour(t) && SameResources(s, t) && t.queue == s.queue
  {
    SetPttOffKeeps(s.(ptt := s.ptt.(manual := false)));
  }

  lemma PttKeeps(s: State, payload: string)
    requires Behaviour(s) && s.alive
    ensures var t := PttRequest(s, payload); Behaviour(t) && SameResources(s, t) && t.queue == s.queue
  {
    ManualOnKeeps(s);
    ManualOffKeeps(s);
  }

  lemma DelayKeeps(s: State, payload: string)
    requires Behaviour(s) && s.alive
    ensures var t := DelayRequest(s, payload); Behaviour(t) && SameResources(s, t) && t.queue == s.queue
  {
    var v := Machine.ParseDelay(payload);
    if !v.Rejection? {
      SetPttOffKeeps(s.(current := s.current.(delay := v.ms)));
    }
  }

  lemma {:induction false} QueueTonesKeeps(s: State, hz: int, n: nat)
    requires Behaviour(s) && s.alive
    ensures var t := QueueTones(s, 1_000_000, hz, n); Behaviour(t) && SameResources(s, t) && t.queue == s.queue
  {
    if n > 0 {
      QueueTonesKeeps(s, hz, n - 1);
    }
  }

  lemma TuneKeeps(s: State, payload: string, tones: nat)
    requires Behaviour(s) && s.alive
    ensures var t := TuneRequest(s, payload, tones); Behaviour(t) && SameResources(s, t) && t.queue == s.queue
  {
    hide QueueTones, SetPttOn;
    var v := Machine.InRange(payload, 0, TUNE_SECONDS_MAX);
    if v.Some? && v.value != 0 {
      var s1 := Call(s, FlushQueue);
      assert Behaviour(s1);
      SetPttOnKeeps(s1);
      QueueTonesKeeps(SetPttOn(s1), s.current.tone, v.value);
    }
  }

  lemma SoundSystemKeeps(s: State, payload: string, env: Env)
    requires Behaviour(s) && s.alive
    ensures var t := SoundSystemRequest(s, payload, env); Behaviour(t) && SameResources(s, t) && t.queue == s.queue
  {
    hide OpenOutput, CloseOutput, ConfigureOutput;
    var system := ParseSystem(payload);
    if system.Some? {
      var s0 := s.(current := s.current.(system := system.value));
      OpenAfterClose(s0, system.value, env.open);
      var s1 := OpenOutput(CloseOutput(s0), system.value, env.open);
      if env.open.Opened? {
        ConfigureMirrors(s1.(hasAudio := true), s0.current, s.dev.current);
      } else {
        OpenAfterClose(s1, NullAudio, env.fallback);
        var f := OpenOutput(CloseOutput(s1), NullAudio, env.fallback);
        var s2 := f.(current := f.current.(system := NullAudio), hasAudio := true);
        ConfigureMirrors(s2, s2.current, s.dev.current);
      }
    }
  }

  // ---------- devices ----------

  lemma OpenFdKeeps(os: Os, lines: set<Line>)
    requires FdLedger(os)
    ensures FdLedger(OpenFd(os, lines)) && OpenFd(os, lines).open.Keys == os.open.Keys + {os.opens}
    ensures os.opens !in os.open
  {
  }

  lemma CloseFdKeeps(os: Os, fd: int)
    requires FdLedger(os) && fd in os.open
    ensures FdLedger(CloseFd(os, fd)) && CloseFd(os, fd).open.Keys == os.open.Keys - {fd}
  {
  }

  lemma StrdupKeeps(os: Os, owned: set<int>)
    requires NameLedger(os, owned)
    ensures NameLedger(Strdup(os), owned + {os.strings}) && os.strings !in owned
  {
  }

  lemma FreeKeeps(os: Os, owned: set<int>, id: nat)
    requires NameLedger(os, owned) && id in owned
    ensures NameLedger(Free(os, id), owned - {id})
  {
  }

  lemma FdLedgerSameKeys(os: Os, t: Os)
    requires FdLedger(os) && t == os.(open := t.open) && t.open.Keys == os.open.Keys
    ensures FdLedger(t)
  {
    assert forall fd :: fd in t.open <==> fd in os.open.Keys;
  }

  lemma DevFreeKeeps(s: State)
    requires FdLedger(s.os) && (s.dev.current.Tty? ==> s.dev.ttyFd in s.os.open)
    ensures var t := DevFree(s);
      && FdLedger(t.os)
      && t.os.open.Keys == (if s.dev.current.Tty? then s.os.open.Keys - {s.dev.ttyFd} else s.os.open.Keys)
      && t == s.(os := s.os.(open := t.os.open, closed := t.os.closed), dev := s.dev.(ttyFd := t.dev.ttyFd),
                 out := t.out)
  {
    if s.dev.current.Tty? {
      var s1 := TtyReset(s);
      FdLedgerSameKeys(s.os, s1.os);
      CloseFdKeeps(s1.os, s.dev.ttyFd);
    }
  }

  lemma FreeDescKeeps(s: State, k: Kind)
    requires NameLedger(s.os, Owned(s.dev)) && DescId(s.dev.ttyDesc) !! DescId(s.dev.nullDesc)
    ensures var t := FreeDesc(s, k);
      && NameLedger(t.os, Owned(t.dev)) && DescId(t.dev.ttyDesc) !! DescId(t.dev.nullDesc)
      && t.dev == (if k.Tty? then s.dev.(ttyDesc := None) else s.dev.(nullDesc := None))
      && t == s.(os := s.os.(freed := t.os.freed), dev := t.dev)
  {
    var d := if k.Tty? then s.dev.ttyDesc else s.dev.nullDesc;
    if d.Some? {
      FreeKeeps(s.os, Owned(s.dev), d.value.id);
      assert Owned(FreeDesc(s, k).dev) == Owned(s.dev) - {d.value.id};
    } else {
      assert FreeDesc(s, k).dev == s.dev;
    }
  }

  lemma NameDeviceKeeps(s: State, k: Kind, text: string)
    requires NameLedger(s.os, Owned(s.dev)) && DescId(s.dev.ttyDesc) !! DescId(s.dev.nullDesc)
    requires if k.Tty? then s.dev.ttyDesc.None? else s.dev.nullDesc.None?
    ensures var t := NameDevice(s, k, text);
      && NameLedger(t.os, Owned(t.dev)) && DescId(t.dev.ttyDesc) !! DescId(t.dev.nullDesc)
      && (if k.Tty? then t.dev.ttyDesc.Some? && t.dev == s.dev.(ttyDesc := t.dev.ttyDesc)
          else t.dev.nullDesc.Some? && t.dev == s.dev.(nullDesc := t.dev.nullDesc))
      && t == s.(os := s.os.(strings := t.os.strings), dev := t.dev)
  {
    StrdupKeeps(s.os, Owned(s.dev));
    assert Owned(NameDevice(s, k, text).dev) == Owned(s.dev) + {s.os.strings};
  }

  lemma ProbedKeeps(s: State, probe: Probe)
    requires FdLedger(s.os)
    ensures var t := Probed(s, probe);
      && FdLedger(t.os) && t == s.(os := s.os.(opens := t.os.opens, open := t.os.open, closed := t.os.closed))
      && t.os.open.Keys == (if probe.IsTty? then s.os.open.Keys + {s.os.opens} else s.os.open.Keys)
    ensures s.os.opens !in s.os.open
  {
    if !probe.OpenFails? {
      var lines := if probe.IsTty? then probe.lines else {};
      OpenFdKeeps(s.os, lines);
      if probe.Rejected? {
        CloseFdKeeps(OpenFd(s.os, {}), s.os.opens);
      }
    }
  }

  /** Switching devices: the books balance, and the pins of the new device are at rest. */
  lemma CwdeviceSetKeeps(s: State, name: string, probe: Probe)
    requires Resources(s) && s.alive
    ensures var t := CwdeviceSet(s, name, probe);
      && Resources(t)
      && t == s.(os := t.os, dev := t.dev, out := t.out)
      && t.dev.current == (if probe.IsTty? then Tty else NullDevice)
      && t.dev.pins == s.dev.pins
      && !PttPinOn(t)
  {
    var k := if probe.IsTty? then Tty else NullDevice;
    var s1 := Probed(s, probe);
    ProbedKeeps(s, probe);
    DevFreeKeeps(s1);
    var s3 := Renamed(DevFree(s1), s.dev.current, k, name);
    RenamedKeeps(DevFree(s1), s.dev.current, k, name);
    var fd := if probe.IsTty? then s.os.opens else if name == "null" then 0 else -1;
    InitKeeps(s3, k, fd);
  }

  lemma RenamedKeeps(s: State, was: Kind, k: Kind, name: string)
    requires NameLedger(s.os, Owned(s.dev)) && DescId(s.dev.ttyDesc) !! DescId(s.dev.nullDesc)
    ensures var t := Renamed(s, was, k, name);
      && NameLedger(t.os, Owned(t.dev)) && DescId(t.dev.ttyDesc) !! DescId(t.dev.nullDesc)
      && (if k.Tty? then t.dev.ttyDesc.Some? else t.dev.nullDesc.Some?)
      && t == s.(os := s.os.(strings := t.os.strings, freed := t.os.freed), dev := t.dev)
      && t.dev == s.dev.(ttyDesc := t.dev.ttyDesc, nullDesc := t.dev.nullDesc)
  {
    FreeDescKeeps(s, was);
    FreeDescKeeps(FreeDesc(s, was), k);
    NameDeviceKeeps(FreeDesc(FreeDesc(s, was), k), k, name);
  }

  lemma InitKeeps(s: State, k: Kind, fd: int)
    requires s.alive && FdLedger(s.os) && s.os.open.Keys == if k.Tty? then {fd} else {}
    requires NameLedger(s.os, Owned(s.dev)) && DescId(s.dev.ttyDesc) !! DescId(s.dev.nullDesc)
    requires if k.Tty? then s.dev.ttyDesc.Some? else s.dev.nullDesc.Some?
    ensures var t := DevInit(s, k, fd);
      && Resources(t)
      && t == s.(os := t.os, dev := t.dev, out := t.out)
      && t.dev == s.dev.(current := k, ttyFd := t.dev.ttyFd, nullFd := t.dev.nullFd)
      && !PttPinOn(t)
  {
    var t := DevInit(s, k, fd);
    FdLedgerSameKeys(s.os, t.os);
    assert Owned(t.dev) == Owned(s.dev);
  }

  lemma CwdeviceRequestKeeps(s: State, payload: string, probe: Probe)
    requires Mid(s) && s.alive
    ensures var t := CwdeviceRequest(s, payload, probe); Mid(t) && t.queue == s.queue
  {
    hide CwdeviceSet, Resources;
    var s1 := Call(s, RegisterKeying(None));
    SameResourcesKeeps(s, s1);
    if payload != "" {
      CwdeviceSetKeeps(s1, payload, probe);
      var s2 := CwdeviceSet(s1, payload, probe);
      SameResourcesKeeps(s2, CwdeviceRequest(s, payload, probe));
    }
  }

  lemma ExitKeeps(s: State)
    requires Mid(s) && s.alive
    ensures Mid(Exit(s)) && Exit(s).queue == s.queue && !Exit(s).alive
    ensures Exit(s).os.open == map[] && Owned(Exit(s).dev) == {}
  {
    var s1 := CloseOutput(s);
    SameResourcesKeeps(s, s1);
    ExitBalances(s1);
    ExitIs(s);
    assert Exit(s).os.open.Keys == {};
  }

  lemma ExitIs(s: State)
    ensures Exit(s) == FreeDesc(FreeDesc(DevFree(CloseOutput(s)), Tty), NullDevice).(alive := false)
  {
    hide FreeDesc, DevFree, CloseOutput;
  }

  lemma ExitBalances(s: State)
    requires Resources(s) && s.alive
    ensures var t := FreeDesc(FreeDesc(DevFree(s), Tty), NullDevice);
      && FdLedger(t.os) && NameLedger(t.os, {}) && t.os.open.Keys == {} && Owned(t.dev) == {}
      && t == s.(os := t.os, dev := t.dev, out := t.out)
  {
    hide DevFree, FreeDesc, FdLedger, NameLedger;
    var s1 := DevFree(s);
    DevFreeKeeps(s);
    LedgerOf(s, s1);
    FreeDescKeeps(s1, Tty);
    var s2 := FreeDesc(s1, Tty);
    FreeDescKeeps(s2, NullDevice);
    LedgerOf2(s1, FreeDesc(s2, NullDevice));
    assert Owned(FreeDesc(s2, NullDevice).dev) == {};
  }

  lemma LedgerOf(s: State, t: State)
    requires NameLedger(s.os, Owned(s.dev)) && t.os.strings == s.os.strings && t.os.freed == s.os.freed
    requires t.dev == s.dev.(ttyFd := t.dev.ttyFd)
    ensures NameLedger(t.os, Owned(t.dev))
  {
  }

  lemma LedgerOf2(s: State, t: State)
    requires FdLedger(s.os) && t.os == s.os.(freed := t.os.freed)
    ensures FdLedger(t.os)
  {
  }

  // ---------- the player ----------

  /** What the commands of a request look like. */
  ghost predicate Sound(c: Player.Command) {
    && (c.Speed? ==> CW.speedMin <= c.wpm <= CW.speedMax)
    && (c.Gap? ==> c.dots == 0 || c.dots == 2)
    && (c.Reply? ==> |c.text| + 2 <= REPLY_SIZE_MAX && NUL !in c.text)
  }

  ghost predicate AllSound(cs: seq<Player.Command>) { forall c :: c in cs ==> Sound(c) }

  lemma ItemIsSound(t: string, c: Player.Cursor)
    requires c.at < |t| <= REQUEST_SIZE_MAX && NUL !in t
    ensures AllSound(Player.Item(t, c))
  {
    var r := Player.Rewritten(t[..c.at]);
    assert forall k :: 0 <= k < |r| ==> r[k] == Player.KeyedAs(t[k]) && t[k] != NUL;
  }

  lemma {:induction false} InterpIsSound(t: string, c: Player.Cursor)
    requires c.at <= |t| <= REQUEST_SIZE_MAX && NUL !in t
    ensures AllSound(Player.Interp(t, c))
    decreases |t| - c.at
  {
    if c.at < |t| {
      ItemIsSound(t, c);
      InterpIsSound(t, Player.Next(t, c));
    }
  }

  lemma PerformKeeps(s: State, c: Player.Command, tones: nat)
    requires Behaviour(s) && Sound(c)
    ensures Behaviour(Perform(s, c, tones)) && SameResources(s, Perform(s, c, tones))
  {
    hide SetPttOn;
    match c
    case PttOn => SetPttOnKeeps(s);
    case Rewrite(at) => EditKeeps(s, c, tones);
    case Cut(at) => EditKeeps(s, c, tones);
    case Reply(text) => PrepareReplyKeeps(s, text);
    case Speed(wpm) => SpeedCallKeeps(s, wpm);
    case _ =>
  }

  lemma SpeedCallKeeps(s: State, wpm: int)
    requires Behaviour(s) && CW.speedMin <= wpm <= CW.speedMax
    ensures var t := Call(s.(current := s.current.(speed := wpm)), SetSpeed(wpm)); Behaviour(t) && SameResources(s, t)
  {
  }

  /** The edits of the queue. */
  lemma EditKeeps(s: State, c: Player.Command, tones: nat)
    requires Behaviour(s) && (c.Rewrite? || c.Cut?)
    ensures Behaviour(Perform(s, c, tones)) && SameResources(s, Perform(s, c, tones))
  {
    assert Perform(s, c, tones) == s.(queue := Perform(s, c, tones).queue);
  }

  lemma PrepareReplyKeeps(s: State, text: string)
    requires Behaviour(s) && |text| + 2 <= REPLY_SIZE_MAX && NUL !in text
    ensures Behaviour(PrepareReply(s, text)) && SameResources(s, PrepareReply(s, text))
  {
  }

  lemma {:induction false} ExecKeeps(s: State, cs: seq<Player.Command>, k: nat, schedule: Schedule)
    requires Behaviour(s) && AllSound(cs)
    ensures Behaviour(Exec(s, cs, k, schedule)) && SameResources(s, Exec(s, cs, k, schedule))
    ensures cs != [] && cs[|cs| - 1] == Player.Cut(0) ==> Exec(s, cs, k, schedule).queue == ""
    decreases |cs|
  {
    if cs != [] {
      var p := Perform(s, cs[0], schedule(k).tones);
      PerformKeeps(s, cs[0], schedule(k).tones);
      PlayTicksKeeps(p, schedule(k).ticks);
      ExecKeeps(ExecOne(s, cs[0], schedule(k)), cs[1..], k + 1, schedule);
    }
  }

  lemma {:induction false} ExecSplits(s: State, a: seq<Player.Command>, b: seq<Player.Command>, k: nat,
                                          schedule: Schedule)
    ensures Exec(s, a + b, k, schedule) == Exec(Exec(s, a, k, schedule), b, k + |a|, schedule)
    decreases |a|
  {
    if a == [] {
      assert a + b == b;
    } else {
      assert (a + b)[1..] == a[1..] + b;
      ExecSplits(ExecOne(s, a[0], schedule(k)), a[1..], b, k + 1, schedule);
    }
  }

  lemma ExecSingle(s: State, c: Player.Command, k: nat, schedule: Schedule)
    ensures Exec(s, [c], k, schedule) == ExecOne(s, c, schedule(k))
  {
    assert [c][1..] == [];
  }

  lemma ExecPair(s: State, c: Player.Command, d: Player.Command, k: nat, schedule: Schedule)
    ensures Exec(s, [c, d], k, schedule) == ExecOne(ExecOne(s, c, schedule(k)), d, schedule(k + 1))
  {
    assert [c, d][1..] == [d];
    ExecSingle(ExecOne(s, c, schedule(k)), d, k + 1, schedule);
  }

  /** After the item under the cursor, the rest of the text remains to be done. */
  lemma ItemDone(s: State, t: State, text: string, c: Player.Cursor, k: nat, schedule: Schedule)
    requires c.at < |text| && t == Exec(s, Player.Item(text, c), k, schedule)
    ensures Exec(t, Player.Interp(text, Player.Next(text, c)), k + |Player.Item(text, c)|, schedule)
      == Exec(s, Player.Interp(text, c), k, schedule)
  {
    hide Exec, Player.Item, Player.Next;
    var item, rest := Player.Item(text, c), Player.Interp(text, Player.Next(text, c));
    assert Player.Interp(text, c) == item + rest;
    hide Player.Interp;
    ExecSplits(s, item, rest, k, schedule);
  }

  /** A text request is the commands of its text, run with the text in the queue. */
  lemma TextRequestIs(s: State, text: string, schedule: Schedule)
    requires s.queue == "" && |text| <= REQUEST_SIZE_MAX
    ensures TextRequest(s, text, schedule)
      == Exec(s.(queue := text), Player.Interp(text, Player.Cursor(0, s.current.speed, s.libcw.gap)), 0, schedule)
  {
    hide Exec, Player.Interp;
    assert s.queue + text == text;
  }

  lemma TextRequestKeeps(s: State, text: string, schedule: Schedule)
    requires Behaviour(s) && s.queue == "" && |text| <= REQUEST_SIZE_MAX && NUL !in text
    ensures var t := TextRequest(s, text, schedule); Behaviour(t) && SameResources(s, t) && t.queue == ""
  {
    QueuedKeeps(s, text);
    hide Exec, Player.Interp, TextRequest, Behaviour, AllSound;
    var c := Player.Cursor(0, s.current.speed, s.libcw.gap);
    InterpIsSound(text, c);
    TextRequestIs(s, text, schedule);
    ExecKeeps(s.(queue := text), Player.Interp(text, c), 0, schedule);
  }

  lemma QueuedKeeps(s: State, text: string)
    requires Behaviour(s)
    ensures Behaviour(s.(queue := text)) && SameResources(s, s.(queue := text))
  {
  }

  // ---------- steps, runs and start ----------

  lemma ReplyRequestKeeps(s: State, text: string)
    requires Behaviour(s) && 0 < |text| <= REQUEST_SIZE_MAX && NUL !in text
    ensures var t := PrepareReply(s, text[1..]); Behaviour(t) && SameResources(s, t) && t.queue == s.queue
  {
    PrepareReplyKeeps(s, text[1..]);
  }

  lemma EscapedKeeps(s: State, text: string, env: Env)
    requires Inv(s) && s.alive && 0 < |text| <= REQUEST_SIZE_MAX && NUL !in text
    ensures Inv(Escaped(s, text, env))
  {
    var payload := Payload(text);
    var t := Escaped(s, text, env);
    match Code(text)
    case '0' => ResetKeeps(s, env.open); SameResourcesKeeps(s, t);
    case '2' => SpeedKeeps(s, payload); SameResourcesKeeps(s, t);
    case '3' => ToneKeeps(s, payload); SameResourcesKeeps(s, t);
    case '4' => AbortKeeps(s); SameResourcesKeeps(s, t);
    case '5' => ExitKeeps(s);
    case '6' => SameResourcesKeeps(s, t);
    case '7' => WeightingKeeps(s, payload); SameResourcesKeeps(s, t);
    case '8' => CwdeviceRequestKeeps(s, payload, env.probe);
    case 'a' => PttKeeps(s, payload); SameResourcesKeeps(s, t);
    case 'c' => TuneKeeps(s, payload, env.schedule(0).tones); SameResourcesKeeps(s, t);
    case 'd' => DelayKeeps(s, payload); SameResourcesKeeps(s, t);
    case 'f' => SoundSystemKeeps(s, payload, env); SameResourcesKeeps(s, t);
    case 'g' => VolumeKeeps(s, payload); SameResourcesKeeps(s, t);
    case 'h' => ReplyRequestKeeps(s, text); SameResourcesKeeps(s, t);
    case _ =>
  }

  lemma ReceiveKeeps(s: State, datagram: string, client: Address, env: Env)
    requires Inv(s) && s.alive
    ensures Inv(Receive(s, datagram, client, env))
  {
    var s1 := s.(requestAddress := client);
    SameResourcesKeeps(s, s1);
    var b := TrimEnd(Stored(datagram));
    if b != "" {
      if b[0] != ESC {
        TextRequestKeeps(s1, CStr(b), env.schedule);
        SameResourcesKeeps(s1, TextRequest(s1, CStr(b), env.schedule));
      } else {
        assert |CStr(b)| > 0;
        EscapedKeeps(s1, CStr(b), env);
      }
    }
  }

  /** Every event keeps the invariant. */
  lemma StepKeeps(s: State, e: Event)
    requires Inv(s)
    ensures Inv(Step(s, e))
  {
    var s0 := s.(out := [], mail := []);
    SameResourcesKeeps(s, s0);
    if s.alive {
      match e
      case Datagram(bytes, client, env) => ReceiveKeeps(s0, bytes, client, env);
      case Thread(tick) => PlayTickKeeps(s0, tick); SameResourcesKeeps(s0, PlayTick(s0, tick));
    }
  }

  lemma {:induction false} RunKeeps(s: State, es: seq<Event>)
    requires Inv(s)
    ensures Inv(Run(s, es))
    decreases |es|
  {
    if es != [] {
      StepKeeps(s, es[0]);
      RunKeeps(Step(s, es[0]), es[1..]);
    }
  }

  /** Before the sound output is opened. */
  ghost predicate Booting(s: State) {
    && Resources(s) && s.alive && InRangeParams(s.defaults)
    && s == Boot(s.defaults).(dev := s.dev, os := s.os, out := s.out)
    && !PttPinOn(s)
  }

  lemma BootIsBooting(defaults: Params)
    requires InRangeParams(defaults)
    ensures Booting(Boot(defaults))
  {
    assert Owned(Boot(defaults).dev) == {0, 1};
  }

  lemma ArgueKeeps(s: State, a: Argument)
    requires Booting(s) && Argue(s, a).Some?
    ensures Booting(Argue(s, a).value)
  {
    var t := Argue(s, a).value;
    match a
    case Device(name, probe) => CwdeviceSetKeeps(s, name, probe);
    case DriverOption(text) =>
      FdLedgerSameKeys(s.os, t.os);
      assert Owned(t.dev) == Owned(s.dev);
  }

  lemma {:induction false} ArgueAllKeeps(s: State, args: seq<Argument>)
    requires Booting(s) && ArgueAll(s, args).Some?
    ensures Booting(ArgueAll(s, args).value)
    decreases |args|
  {
    if args != [] {
      ArgueKeeps(s, args[0]);
      ArgueAllKeeps(Argue(s, args[0]).value, args[1..]);
    }
  }

  lemma StartKeeps(s: State, bind: Address, r: OpenResult)
    requires Booting(s) && Start(s, bind, r).Some?
    ensures var t := Start(s, bind, r).value; Inv(t) && t.alive && t.dev == s.dev && t.defaults == s.defaults
  {
    var s1 := s.(requestAddress := bind);
    ResetAlmostAllIs(s1, r);
    SameResourcesKeeps(s, Start(s, bind, r).value);
  }

  /** Whatever the command line, a daemon that starts is in a safe state. */
  lemma LaunchIsSafe(defaults: Params, args: seq<Argument>, bind: Address, r: OpenResult)
    requires InRangeParams(defaults) && Launch(defaults, args, bind, r).Some?
    ensures Inv(Launch(defaults, args, bind, r).value) && Launch(defaults, args, bind, r).value.alive
  {
    BootIsBooting(defaults);
    ArgueAllKeeps(Boot(defaults), args);
    StartKeeps(ArgueAll(Boot(defaults), args).value, bind, r);
  }

  lemma LaunchedIdle(defaults: Params, args: seq<Argument>, bind: Address, r: OpenResult)
    requires InRangeParams(defaults) && Launch(defaults, args, bind, r).Some?
    ensures var s := Launch(defaults, args, bind, r).value; Inv(s) && s.alive && s.hasAudio && s.ptt == PTT_IDLE
  {
    BootIsBooting(defaults);
    ArgueAllKeeps(Boot(defaults), args);
    LaunchIsSafe(defaults, args, bind, r);
    ResetAlmostAllIs(ArgueAll(Boot(defaults), args).value.(requestAddress := bind), r);
  }

  /** Any state of any run of a launched daemon. */
  function Reached(defaults: Params, args: seq<Argument>, bind: Address, r: OpenResult, es: seq<Event>): State
    requires Launch(defaults, args, bind, r).Some?
  {
    Run(Launch(defaults, args, bind, r).value, es)
  }

  /** Every state of every run of a launched daemon satisfies the invariant, wherever callbacks strike. */
  lemma EveryRunIsSafe(defaults: Params, args: seq<Argument>, bind: Address, r: OpenResult, es: seq<Event>)
    requires InRangeParams(defaults) && Launch(defaults, args, bind, r).Some?
    ensures Inv(Reached(defaults, args, bind, r, es))
  {
    LaunchIsSafe(defaults, args, bind, r);
    RunKeeps(Launch(defaults, args, bind, r).value, es);
  }
}
