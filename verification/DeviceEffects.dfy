/** What the requests do that rebuild the sound output or the device, what the command line does, and that no tty is
    let go with a pin up. */
module DeviceEffects {
  import opened Basics
  import opened DriverOptions
  import opened World
  import opened Machine
  import opened Safety
  import opened KeyingTarget
  import opened Requests
  import opened Effects
  import DeviceBooks
  import Restart
  import Renaming

  // ---------- sound output ----------

  /** Closing the output and opening another. */
  function OpenCalls(system: AudioSystem, r: OpenResult): seq<Action> {
    [Cw(StopGenerator), Cw(DeleteGenerator), Cw(NewGenerator(system, !r.CreateFailed?))]
      + (if r.CreateFailed? then [] else [Cw(StartGenerator(r.Opened?))])
  }

  /** Setting it up. */
  function SetUpCalls(p: Params, k: Kind): seq<Action> {
    [Cw(RegisterLowCallback), Cw(SetFrequency(p.tone)), Cw(SetSpeed(p.speed)), Cw(SetVolume(p.volume)), Cw(SetGap(0)),
     Cw(SetWeighting((p.weighting as real * 0.6 + 50.0).Floor)), Cw(RegisterKeying(Some(k)))]
  }

  /** libcw as it then is. */
  function SetUp(p: Params, k: Kind): Libcw {
    Libcw(Running(p.system), p.speed, p.tone, p.volume, 0, (p.weighting as real * 0.6 + 50.0).Floor, true, Some(k), 0)
  }

  /** libcw after a failure: silent, and without callbacks. */
  predicate Silent(l: Libcw) { !l.gen.Running? && !l.lowCallback && l.keying == None && l.tones == 0 }

  lemma OpenIs(s: State, system: AudioSystem, r: OpenResult)
    ensures var t := OpenOutput(CloseOutput(s), system, r);
      && t == s.(libcw := t.libcw, out := s.out + OpenCalls(system, r))
      && t.libcw.tones == 0
      && (if r.Opened? then t.libcw.gen == Running(system) else Silent(t.libcw))
  {
    OpenAfterClose(s, system, r);
  }

  lemma SetUpIs(s: State, p: Params, k: Kind)
    requires s.libcw.gen == Running(p.system) && s.libcw.tones == 0
    ensures Call(ConfigureOutput(s, p), RegisterKeying(Some(k)))
      == s.(libcw := SetUp(p, k), out := s.out + SetUpCalls(p, k))
  {
    hide LibcwWeighting;
    WeightingFormula(p.weighting);
    ConfigureOut(s, p, k);
  }

  lemma ConfigureOut(s: State, p: Params, k: Kind)
    ensures var w := LibcwWeighting(p.weighting);
      Call(ConfigureOutput(s, p), RegisterKeying(Some(k))).out ==
        s.out + [Cw(RegisterLowCallback), Cw(SetFrequency(p.tone)), Cw(SetSpeed(p.speed)), Cw(SetVolume(p.volume)),
                 Cw(SetGap(0)), Cw(SetWeighting(w)), Cw(RegisterKeying(Some(k)))]
  {
  }

  // ---------- pins ----------

  /** Both pins of a tty driven low. */
  function LowerPins(fd: int, pins: Pins): seq<Action> { Ioctls(fd, pins.key, false) + Ioctls(fd, pins.ptt, false) }

  function PinLines(pins: Pins): set<Line> {
    (if pins.key.Some? then {pins.key.value} else {}) + (if pins.ptt.Some? then {pins.ptt.value} else {})
  }

  /** The lines of one descriptor are what they were, but for the pins, which are low. */
  predicate PinsLowered(a: Os, b: Os, fd: int, pins: Pins) {
    fd in a.open && b == a.(open := a.open[fd := a.open[fd] - PinLines(pins)])
  }

  lemma TtyResetIs(s: State)
    requires s.dev.ttyFd in s.os.open
    ensures var t := TtyReset(s);
      && t == s.(os := t.os, out := s.out + LowerPins(s.dev.ttyFd, s.dev.pins))
      && PinsLowered(s.os, t.os, s.dev.ttyFd, s.dev.pins)
  {
    var fd, lines := s.dev.ttyFd, s.os.open[s.dev.ttyFd];
    var t := TtyReset(s);
    assert t.os.open[fd] == lines - PinLines(s.dev.pins);
    assert t.os.open == s.os.open[fd := lines - PinLines(s.dev.pins)];
    assert t.out == s.out + LowerPins(fd, s.dev.pins);
  }

  // ---------- reset and sound system ----------

  /** ESC 0: defaults in force, character mode, no PTT and no pending reply, a new sound output set up with the
      defaults if it opens, and both pins of a tty low. */
  lemma ResetIs(s: State, eol: string, client: Address, env: Env)
    requires Inv(s) && s.alive && AllEol(eol)
    ensures var f, t := Fresh(s, client), Step(s, Datagram(Request('0', "", eol), client, env));
      var ok, d, k := env.open.Opened?, s.defaults, s.dev.current;
      && t == f.(current := d, hasAudio := ok, wordmode := false, ptt := PttFlag(false, false, false), libcw := t.libcw,
                 os := t.os,
                 out := OpenCalls(d.system, env.open) + (if ok then SetUpCalls(d, k) else [])
                        + (if k.Tty? then LowerPins(s.dev.ttyFd, s.dev.pins) else []))
      && (if ok then t.libcw == SetUp(d, k) else Silent(t.libcw))
      && (if k.Tty? then PinsLowered(s.os, t.os, s.dev.ttyFd, s.dev.pins) else t.os == s.os)
  {
    assert s.queue == "";
    InvDeviceOpen(s);
    hide Step, Inv, Reset;
    PlainSendable('0', eol);
    Arrives(s, '0', "", eol, client, env);
    ResetInTurn(Fresh(s, client), env.open);
  }

  lemma ResetInTurn(f: State, r: OpenResult)
    requires f.out == [] && f.queue == "" && DeviceOpen(f)
    ensures var t := Reset(f, r); var ok, d, k := r.Opened?, f.defaults, f.dev.current;
      && t == f.(current := d, hasAudio := ok, wordmode := false, ptt := PttFlag(false, false, false), libcw := t.libcw,
                 os := t.os,
                 out := OpenCalls(d.system, r) + (if ok then SetUpCalls(d, k) else [])
                        + (if k.Tty? then LowerPins(f.dev.ttyFd, f.dev.pins) else []))
      && (if ok then t.libcw == SetUp(d, k) else Silent(t.libcw))
      && (if k.Tty? then PinsLowered(f.os, t.os, f.dev.ttyFd, f.dev.pins) else t.os == f.os)
  {
    hide ResetAlmostAll, TtyReset, OpenCalls, SetUpCalls, SetUp, LowerPins, Silent, PinsLowered;
    var d := f.defaults;
    AlmostAllIs(f, r);
    var s1 := ResetAlmostAll(f.(queue := ""), r).(wordmode := false);
    assert s1.out + [] == s1.out;
    if f.dev.current.Tty? {
      TtyResetIs(s1);
      PinsLoweredAt(s1.os, f.os, TtyReset(s1).os, f.dev.ttyFd, f.dev.pins);
    }
  }

  lemma PinsLoweredAt(a: Os, b: Os, c: Os, fd: int, pins: Pins)
    requires a == b && PinsLowered(a, c, fd, pins)
    ensures PinsLowered(b, c, fd, pins)
  {
  }

  /** What start and RESET have in common. */
  lemma AlmostAllIs(f: State, r: OpenResult)
    ensures var t := ResetAlmostAll(f, r); var ok, d := r.Opened?, f.defaults;
      && t == f.(current := d, hasAudio := ok, libcw := t.libcw,
                 out := f.out + (OpenCalls(d.system, r) + (if ok then SetUpCalls(d, f.dev.current) else [])))
      && (if ok then t.libcw == SetUp(d, f.dev.current) else Silent(t.libcw))
    ensures f.(queue := "") == f ==> ResetAlmostAll(f.(queue := ""), r) == ResetAlmostAll(f, r)
    ensures forall x: seq<Action> :: [] + x == x
  {
    hide OpenOutput, CloseOutput, ConfigureOutput, OpenCalls, SetUpCalls, SetUp, Silent;
    var d := f.defaults;
    var s1 := f.(current := d);
    OpenIs(s1, d.system, r);
    Renaming.ResetOpened(f, r);
    var t := OpenOutput(CloseOutput(s1), d.system, r);
    if r.Opened? {
      SetUpIs(t.(hasAudio := true), d, f.dev.current);
      assert (f.out + OpenCalls(d.system, r)) + SetUpCalls(d, f.dev.current)
        == f.out + (OpenCalls(d.system, r) + SetUpCalls(d, f.dev.current));
    } else {
      assert OpenCalls(d.system, r) + [] == OpenCalls(d.system, r);
    }
  }

  /** The letters that name a sound system. */
  function SystemOf(letter: char): Option<AudioSystem> {
    if letter == 'n' then Some(NullAudio)
    else if letter == 'c' then Some(Console)
    else if letter == 's' then Some(Soundcard)
    else if letter == 'a' then Some(Alsa)
    else if letter == 'p' then Some(Pulse)
    else if letter == 'o' then Some(Oss)
    else None
  }

  /** ESC f: the sound system with that letter; if it does not open, the null system; if that does not open either,
      silence. Whichever opens is set up with the current parameters. */
  lemma SoundSystemIs(s: State, letter: char, rest: string, eol: string, client: Address, env: Env)
    requires s.alive && Sendable('f', [letter] + rest, eol)
    ensures var f, t := Fresh(s, client), Step(s, Datagram(Request('f', [letter] + rest, eol), client, env));
      var system, first, second := SystemOf(letter), env.open.Opened?, env.fallback.Opened?;
      if system.None? then t == f
      else
        var p := s.current.(system := if !first && second then NullAudio else system.value);
        && t == f.(current := p, hasAudio := first || second, libcw := t.libcw,
                   out := OpenCalls(system.value, env.open)
                          + (if first then [] else OpenCalls(NullAudio, env.fallback))
                          + (if first || second then SetUpCalls(p, s.dev.current) else []))
        && (if first || second then t.libcw == SetUp(p, s.dev.current) else Silent(t.libcw))
  {
    hide Step, Escaped, OpenCalls, SetUpCalls, SetUp, Silent, Reopen, ConfigureOutput, SystemOf, Call;
    Arrives(s, 'f', [letter] + rest, eol, client, env);
    var f := Fresh(s, client);
    SoundDispatch(f, letter, rest, env);
    if SystemOf(letter).Some? {
      ReopenInTurn(f, SystemOf(letter).value, env);
    }
  }

  lemma SoundDispatch(s: State, letter: char, rest: string, env: Env)
    ensures Escaped(s, [27 as char, 'f'] + ([letter] + rest), env) ==
      if SystemOf(letter).None? then s
      else
        var t := Reopen(s, SystemOf(letter).value, env);
        if t.hasAudio then Call(ConfigureOutput(t, t.current), RegisterKeying(Some(t.dev.current))) else t
  {
    hide Reopen, ConfigureOutput, Call;
    var text := [27 as char, 'f'] + ([letter] + rest);
    assert text[2..] == [letter] + rest && text[2..][0] == letter;
  }

  lemma ReopenInTurn(f: State, system: AudioSystem, env: Env)
    requires f.out == []
    ensures var s1 := Reopen(f, system, env); var first, second := env.open.Opened?, env.fallback.Opened?;
      var t := if s1.hasAudio then Call(ConfigureOutput(s1, s1.current), RegisterKeying(Some(s1.dev.current))) else s1;
      var p := f.current.(system := if !first && second then NullAudio else system);
      && t == f.(current := p, hasAudio := first || second, libcw := t.libcw,
                 out := OpenCalls(system, env.open) + (if first then [] else OpenCalls(NullAudio, env.fallback))
                        + (if first || second then SetUpCalls(p, f.dev.current) else []))
      && (if first || second then t.libcw == SetUp(p, f.dev.current) else Silent(t.libcw))
  {
    hide OpenOutput, CloseOutput, ConfigureOutput, OpenCalls, SetUpCalls, SetUp;
    var s0 := f.(current := f.current.(system := system));
    OpenIs(s0, system, env.open);
    var s1 := OpenOutput(CloseOutput(s0), system, env.open);
    assert s1.out == OpenCalls(system, env.open) && s1.out + [] == s1.out;
    OpenIs(s1, NullAudio, env.fallback);
    var s2 := OpenOutput(CloseOutput(s1), NullAudio, env.fallback);
    assert s2.out + [] == s2.out;
    if env.open.Opened? {
      SetUpIs(s1.(hasAudio := true), s0.current, f.dev.current);
    } else if env.fallback.Opened? {
      var p := s2.current.(system := NullAudio);
      SetUpIs(s2.(current := p, hasAudio := true), p, f.dev.current);
    }
  }

  // ---------- devices ----------

  /** The name of the current device. */
  function DeviceName(d: Devices): Option<string> {
    var str := if d.current.Tty? then d.ttyDesc else d.nullDesc;
    if str.Some? then Some(str.value.text) else None
  }

  /** The ioctls of a switch. A tty is left with both pins low, and a new one starts with both low. */
  function SwitchActions(s: State, probe: Probe): seq<Action> {
    (if s.dev.current.Tty? then LowerPins(s.dev.ttyFd, s.dev.pins) else [])
      + (if probe.IsTty? then LowerPins(s.os.opens, s.dev.pins) else [])
  }

  /** What else it does: the new device has the name; the old descriptor is closed, and so is one that is no tty's. */
  predicate SwitchedDesk(s: State, t: State, name: string, probe: Probe) {
    && t.dev.current == (if probe.IsTty? then Tty else NullDevice) && t.dev.pins == s.dev.pins
    && DeviceName(t.dev) == Some(name)
    && (probe.IsTty? ==> t.dev.ttyFd == s.os.opens)
    && t.os.opens == s.os.opens + (if probe.OpenFails? then 0 else 1)
    && t.os.closed == s.os.closed + (if probe.Rejected? then [s.os.opens] else [])
                      + (if s.dev.current.Tty? then [s.dev.ttyFd] else [])
    && t.os.open == (if probe.IsTty? then map[s.os.opens := probe.lines - PinLines(s.dev.pins)] else map[])
  }

  predicate Switched(s: State, t: State, name: string, probe: Probe) {
    t == s.(dev := t.dev, os := t.os, out := s.out + SwitchActions(s, probe)) && SwitchedDesk(s, t, name, probe)
  }

  lemma FreeIs(s: State)
    requires DeviceOpen(s)
    ensures var t := DevFree(s);
      && t == s.(dev := t.dev, os := t.os, out := t.out)
      && t.out == s.out + (if s.dev.current.Tty? then LowerPins(s.dev.ttyFd, s.dev.pins) else [])
      && (if s.dev.current.Tty? then
            t.os == s.os.(open := s.os.open - {s.dev.ttyFd}, closed := s.os.closed + [s.dev.ttyFd])
            && t.dev == s.dev.(ttyFd := -1)
          else t.os == s.os && t.dev == s.dev)
  {
    assert s.out + [] == s.out;
    if s.dev.current.Tty? {
      hide TtyReset, LowerPins;
      TtyResetIs(s);
      assert DevFree(s).os.open == s.os.open - {s.dev.ttyFd};
    }
  }

  lemma InitIs(s: State, k: Kind, fd: int, lines: set<Line>)
    requires k.Tty? ==> s.os.open == map[fd := lines]
    ensures var t := DevInit(s, k, fd);
      && t == s.(dev := s.dev.(current := k, ttyFd := if k.Tty? then fd else s.dev.ttyFd,
                               nullFd := if k.Tty? then s.dev.nullFd else fd), os := t.os, out := t.out)
      && t.out == s.out + (if k.Tty? then LowerPins(fd, s.dev.pins) else [])
      && t.os == (if k.Tty? then s.os.(open := map[fd := lines - PinLines(s.dev.pins)]) else s.os)
  {
    assert s.out + [] == s.out;
    if k.Tty? {
      hide TtyReset, LowerPins, PinLines;
      TtyResetIs(s.(dev := s.dev.(current := k, ttyFd := fd)));
      assert s.os.open[fd := lines - PinLines(s.dev.pins)] == map[fd := lines - PinLines(s.dev.pins)];
    }
  }

  lemma NamedIs(s: State, was: Kind, k: Kind, name: string)
    ensures var t := Renamed(s, was, k, name);
      && t == s.(dev := t.dev, os := t.os) && t.dev.current == s.dev.current && t.dev.pins == s.dev.pins
      && t.dev.ttyFd == s.dev.ttyFd && DeviceName(t.dev.(current := k)) == Some(name)
      && t.os == s.os.(strings := t.os.strings, freed := t.os.freed)
  {
    hide FreeDesc;
    DescFreed(s, was);
    DescFreed(FreeDesc(s, was), k);
  }

  lemma DescFreed(s: State, k: Kind)
    ensures var t := FreeDesc(s, k);
      && t == s.(dev := s.dev.(ttyDesc := t.dev.ttyDesc, nullDesc := t.dev.nullDesc), os := s.os.(freed := t.os.freed))
  {
  }

  lemma ProbedIs(s: State, probe: Probe)
    requires Resources(s) && s.alive
    ensures var t := Probed(s, probe);
      && t == s.(os := t.os) && DeviceOpen(t) && t.os.strings == s.os.strings && t.os.freed == s.os.freed
      && t.os.opens == s.os.opens + (if probe.OpenFails? then 0 else 1)
      && t.os.closed == s.os.closed + (if probe.Rejected? then [s.os.opens] else [])
      && t.os.open - (if s.dev.current.Tty? then {s.dev.ttyFd} else {})
         == (if probe.IsTty? then map[s.os.opens := probe.lines] else map[])
  {
    ProbedKeeps(s, probe);
    assert s.os.closed + [] == s.os.closed;
    var gone := if s.dev.current.Tty? then {s.dev.ttyFd} else {};
    assert s.os.open.Keys == gone;
    assert s.os.opens !in s.os.open.Keys;
    var rest := Probed(s, probe).os.open - gone;
    assert rest.Keys == if probe.IsTty? then {s.os.opens} else {};
  }

  /** After the old device is closed. */
  lemma ClosedIs(s: State, probe: Probe)
    requires Resources(s) && s.alive
    ensures var t := DevFree(Probed(s, probe));
      && t == s.(dev := t.dev, os := t.os, out := t.out)
      && t.out == s.out + (if s.dev.current.Tty? then LowerPins(s.dev.ttyFd, s.dev.pins) else [])
      && t.dev == s.dev.(ttyFd := t.dev.ttyFd)
      && t.os.opens == s.os.opens + (if probe.OpenFails? then 0 else 1)
      && t.os.closed == s.os.closed + (if probe.Rejected? then [s.os.opens] else [])
                        + (if s.dev.current.Tty? then [s.dev.ttyFd] else [])
      && t.os.open == (if probe.IsTty? then map[s.os.opens := probe.lines] else map[])
  {
    hide Probed, DevFree, LowerPins, Resources;
    var s1 := Probed(s, probe);
    ProbedIs(s, probe);
    FreeIs(s1);
    assert s1.os.open - {} == s1.os.open;
    assert s1.os.closed + [] == s1.os.closed;
  }

  lemma SwitchIs(s: State, name: string, probe: Probe)
    requires Resources(s) && s.alive
    ensures Switched(s, CwdeviceSet(s, name, probe), name, probe)
  {
    hide Probed, DevFree, Renamed, DevInit, LowerPins, PinLines, Resources, DeviceName;
    var k := if probe.IsTty? then Tty else NullDevice;
    var fd := if probe.IsTty? then s.os.opens else if name == "null" then 0 else -1;
    var s2 := DevFree(Probed(s, probe));
    ClosedIs(s, probe);
    NamedIs(s2, s.dev.current, k, name);
    var s3 := Renamed(s2, s.dev.current, k, name);
    InitIs(s3, k, fd, if probe.IsTty? then probe.lines else {});
    NameStays(s3, DevInit(s3, k, fd), k);
  }

  lemma NameStays(s: State, t: State, k: Kind)
    requires t.dev.current == k && t.dev.ttyDesc == s.dev.ttyDesc && t.dev.nullDesc == s.dev.nullDesc
    ensures DeviceName(t.dev) == DeviceName(s.dev.(current := k))
  {
  }

  /** ESC 8 with a name: keying is detached, the device switched, and keying attached to it. Without one keying is
      only detached. */
  lemma CwdeviceIs(s: State, name: string, eol: string, client: Address, env: Env)
    requires Inv(s) && s.alive && Sendable('8', name, eol)
    ensures var f, t := Fresh(s, client), Step(s, Datagram(Request('8', name, eol), client, env));
      var k := if env.probe.IsTty? then Tty else NullDevice;
      if name == "" then t == f.(libcw := f.libcw.(keying := None), out := [Cw(RegisterKeying(None))])
      else
        && t == f.(dev := t.dev, os := t.os, libcw := f.libcw.(keying := Some(k)),
                   out := [Cw(RegisterKeying(None))] + SwitchActions(s, env.probe) + [Cw(RegisterKeying(Some(k)))])
        && SwitchedDesk(s, t, name, env.probe)
  {
    hide Step, Inv, Escaped, CwdeviceRequest, SwitchedDesk, SwitchActions, Resources;
    var f := Fresh(s, client);
    FreshResources(s, client);
    Arrives(s, '8', name, eol, client, env);
    SwitchDispatch(f, [27 as char, '8'] + name, env);
    RequestInTurn(f, name, env.probe);
    SameSwitch(s, f);
  }

  lemma FreshResources(s: State, client: Address)
    requires Inv(s)
    ensures Resources(Fresh(s, client))
  {
    SameResourcesKeeps(s, Fresh(s, client));
  }

  lemma SwitchDispatch(s: State, text: string, env: Env)
    requires Code(text) == '8'
    ensures Escaped(s, text, env) == CwdeviceRequest(s, Payload(text), env.probe)
  {
    hide CwdeviceRequest;
  }

  lemma SameSwitch(s: State, f: State)
    requires f.dev == s.dev && f.os == s.os
    ensures forall probe :: SwitchActions(f, probe) == SwitchActions(s, probe)
    ensures forall t, name, probe :: SwitchedDesk(f, t, name, probe) == SwitchedDesk(s, t, name, probe)
  {
  }

  lemma RequestInTurn(f: State, name: string, probe: Probe)
    requires f.out == [] && Resources(f) && f.alive
    ensures var t := CwdeviceRequest(f, name, probe); var k := if probe.IsTty? then Tty else NullDevice;
      if name == "" then t == f.(libcw := f.libcw.(keying := None), out := [Cw(RegisterKeying(None))])
      else
        && t == f.(dev := t.dev, os := t.os, libcw := f.libcw.(keying := Some(k)),
                   out := [Cw(RegisterKeying(None))] + SwitchActions(f, probe) + [Cw(RegisterKeying(Some(k)))])
        && SwitchedDesk(f, t, name, probe)
  {
    hide CwdeviceSet, SwitchedDesk, SwitchActions, Resources;
    var detached := Call(f, RegisterKeying(None));
    assert f.out + [Cw(RegisterKeying(None))] == [Cw(RegisterKeying(None))];
    SameResourcesKeeps(f, detached);
    SameSwitch(f, detached);
    if name != "" {
      SwitchIs(detached, name, probe);
      var u := CwdeviceSet(detached, name, probe);
      DeviceBooks.SetDevice(detached, name, probe);
      SameDeskAfter(detached, u, CwdeviceRequest(f, name, probe), name, probe);
    }
  }

  lemma SameDeskAfter(s: State, t: State, u: State, name: string, probe: Probe)
    requires SwitchedDesk(s, t, name, probe) && u.dev == t.dev && u.os == t.os
    ensures SwitchedDesk(s, u, name, probe)
  {
  }

  /** ESC 5: the sound output is closed, a tty is left with both pins low and closed, the names are freed, and the
      daemon is gone. */
  lemma ExitIs(s: State, eol: string, client: Address, env: Env)
    requires Inv(s) && s.alive && AllEol(eol)
    ensures var f, t := Fresh(s, client), Step(s, Datagram(Request('5', "", eol), client, env));
      && t == f.(alive := false, dev := t.dev, os := t.os,
                 libcw := f.libcw.(gen := NoGenerator, lowCallback := false, keying := None, tones := 0),
                 out := [Cw(StopGenerator), Cw(DeleteGenerator)]
                        + (if s.dev.current.Tty? then LowerPins(s.dev.ttyFd, s.dev.pins) else []))
      && t.dev.ttyDesc == None && t.dev.nullDesc == None && t.os.open == map[]
      && t.os.closed == s.os.closed + (if s.dev.current.Tty? then [s.dev.ttyFd] else [])
  {
    var f := Fresh(s, client);
    FreshResources(s, client);
    InvDeviceOpen(s);
    hide Step, Inv, Exit, Resources, LowerPins;
    PlainSendable('5', eol);
    Arrives(s, '5', "", eol, client, env);
    ExitInTurn(f);
  }

  lemma ExitInTurn(f: State)
    requires f.out == [] && DeviceOpen(f) && Resources(f) && f.alive
    ensures var t := Exit(f);
      && t == f.(alive := false, dev := t.dev, os := t.os,
                 libcw := f.libcw.(gen := NoGenerator, lowCallback := false, keying := None, tones := 0),
                 out := [Cw(StopGenerator), Cw(DeleteGenerator)]
                        + (if f.dev.current.Tty? then LowerPins(f.dev.ttyFd, f.dev.pins) else []))
      && t.dev.ttyDesc == None && t.dev.nullDesc == None && t.os.open == map[]
      && t.os.closed == f.os.closed + (if f.dev.current.Tty? then [f.dev.ttyFd] else [])
  {
    assert f.os.open.Keys == if f.dev.current.Tty? then {f.dev.ttyFd} else {};
    hide DevFree, FreeDesc, LowerPins, Resources;
    var s1 := CloseOutput(f);
    assert s1.out == [Cw(StopGenerator), Cw(DeleteGenerator)] && s1.out + [] == s1.out;
    assert f.os.closed + [] == f.os.closed;
    FreeIs(s1);
    var s2 := DevFree(s1);
    assert s2.os.open.Keys == {};
    Safety.ExitIs(f);
    NoDesc(s2);
    DescFreed(s2, Tty);
    DescFreed(FreeDesc(s2, Tty), NullDevice);
  }

  lemma NoDesc(s: State)
    ensures var t := FreeDesc(FreeDesc(s, Tty), NullDevice); t.dev.ttyDesc == None && t.dev.nullDesc == None
  {
  }

  // ---------- no tty is let go with a pin up ----------

  /** What the last ioctl on a line of a descriptor did, if there was one. */
  function LastIoctl(out: seq<Action>, fd: int, line: Line): Option<bool> {
    if out == [] then None
    else
      match out[|out| - 1]
      case Ioctl(f, l, on) => if f == fd && l == line then Some(on) else LastIoctl(out[..|out| - 1], fd, line)
      case Cw(_) => LastIoctl(out[..|out| - 1], fd, line)
  }

  lemma {:induction false} LastOfTwo(a: seq<Action>, b: seq<Action>, fd: int, line: Line)
    ensures LastIoctl(a + b, fd, line) ==
      if LastIoctl(b, fd, line).Some? then LastIoctl(b, fd, line) else LastIoctl(a, fd, line)
    decreases |b|
  {
    if b == [] {
      assert a + b == a;
    } else {
      assert (a + b)[..|a + b| - 1] == a + b[..|b| - 1];
      LastOfTwo(a, b[..|b| - 1], fd, line);
    }
  }

  lemma LoweredLast(fd: int, pins: Pins, line: Line, other: int)
    requires pins.key == Some(line) || pins.ptt == Some(line)
    ensures LastIoctl(LowerPins(fd, pins), fd, line) == Some(false)
    ensures other != fd ==> LastIoctl(LowerPins(other, pins), fd, line) == None
  {
    LastOfTwo(Ioctls(fd, pins.key, false), Ioctls(fd, pins.ptt, false), fd, line);
    LastOfTwo(Ioctls(other, pins.key, false), Ioctls(other, pins.ptt, false), fd, line);
  }

  /** In every step that closes the descriptor of the current tty, whatever the event: the last thing done to each of
      its pins is to lower it. */
  lemma ClosedPinsAreLow(s: State, e: Event, line: Line)
    requires Inv(s) && s.alive && s.dev.current.Tty?
    requires s.dev.ttyFd in Step(s, e).os.closed && s.dev.ttyFd !in s.os.closed
    requires s.dev.pins.key == Some(line) || s.dev.pins.ptt == Some(line)
    ensures LastIoctl(Step(s, e).out, s.dev.ttyFd, line) == Some(false)
  {
    hide Step, Inv, LastIoctl, LowerPins, DeviceBooks.SameDesk;
    TtyIsOld(s);
    if Restart.DeviceArg(e) != [] {
      SwitchLowers(s, e, line);
    } else if Step(s, e).alive {
      Restart.DeskStep(s, e);
      SameDeskClosed(s, Step(s, e));
    } else {
      DeathIsExit(s, e);
      ExitLowers(s, e, line);
    }
  }

  lemma TtyIsOld(s: State)
    requires Inv(s) && s.alive && s.dev.current.Tty?
    ensures s.dev.ttyFd < s.os.opens && DeviceOpen(s) && Resources(s)
  {
    assert s.dev.ttyFd in s.os.open.Keys;
  }

  lemma SameDeskClosed(s: State, t: State)
    requires DeviceBooks.SameDesk(s, t)
    ensures t.os.closed == s.os.closed
  {
  }

  lemma SwitchLowers(s: State, e: Event, line: Line)
    requires Resources(s) && s.alive && s.dev.current.Tty? && s.dev.ttyFd < s.os.opens
    requires s.dev.pins.key == Some(line) || s.dev.pins.ptt == Some(line)
    requires Restart.DeviceArg(e) != []
    ensures LastIoctl(Step(s, e).out, s.dev.ttyFd, line) == Some(false)
  {
    hide Step, Resources, LastIoctl, SwitchActions, CwdeviceRequest, SwitchedDesk;
    var f := Fresh(s, e.client);
    Restart.SwitchStep(s, e);
    var a := Restart.DeviceArg(e)[0];
    SameResourcesKeeps(s, f);
    RequestInTurn(f, a.name, a.probe);
    SameSwitch(s, f);
    SwitchLowersLast(s, a.probe, line);
    var k := if a.probe.IsTty? then Tty else NullDevice;
    CallsAreNoIoctls(RegisterKeying(Some(k)), s.dev.ttyFd, line);
    LastOfTwo([Cw(RegisterKeying(None))], SwitchActions(s, a.probe), s.dev.ttyFd, line);
    LastOfTwo([Cw(RegisterKeying(None))] + SwitchActions(s, a.probe), [Cw(RegisterKeying(Some(k)))], s.dev.ttyFd, line);
  }

  lemma SwitchLowersLast(s: State, probe: Probe, line: Line)
    requires s.dev.current.Tty? && s.dev.ttyFd < s.os.opens
    requires s.dev.pins.key == Some(line) || s.dev.pins.ptt == Some(line)
    ensures LastIoctl(SwitchActions(s, probe), s.dev.ttyFd, line) == Some(false)
  {
    hide LastIoctl, LowerPins;
    var fd, pins := s.dev.ttyFd, s.dev.pins;
    LoweredLast(fd, pins, line, s.os.opens);
    CallsAreNoIoctls(FlushQueue, fd, line);
    LastOfTwo(LowerPins(fd, pins), if probe.IsTty? then LowerPins(s.os.opens, pins) else [], fd, line);
  }

  lemma CallsAreNoIoctls(c: CwCall, fd: int, line: Line)
    ensures LastIoctl([Cw(c)], fd, line) == None && LastIoctl([], fd, line) == None
  {
    assert [Cw(c)][..0] == [];
  }

  /** Only EXIT ends the daemon. */
  lemma DeathIsExit(s: State, e: Event)
    requires s.alive && Inv(s) && !Step(s, e).alive
    ensures e.Datagram? && Step(s, e) == Exit(Fresh(s, e.client))
  {
    hide PlayTick, TextRequest, Escaped, Inv, Exit;
    match e
    case Thread(tick) => Renaming.TickAlive(s.(out := [], mail := []), tick);
    case Datagram(bytes, client, env) =>
      var f := Fresh(s, client);
      var b := TrimEnd(Stored(bytes));
      if b != "" {
        if b[0] != ESC {
          TextSame(f, CStr(b), env.schedule);
        } else {
          OthersLive(f, CStr(b), env);
        }
      }
  }

  lemma OthersLive(s: State, text: string, env: Env)
    requires s.alive
    ensures Escaped(s, text, env).alive || (Code(text) == '5' && Escaped(s, text, env) == Exit(s))
  {
    hide ResetAlmostAll, TtyReset, SetPttOn, SetPttOff, SpeedRequest, ToneRequest, WeightingRequest, VolumeRequest,
      Abort, CwdeviceRequest, PttRequest, DelayRequest, TuneRequest, Exit;
    var payload := Payload(text);
    match Code(text)
    case '0' => ResetLives(s, env.open);
    case '2' => ParametersSame(s, payload);
    case '3' => ParametersSame(s, payload);
    case '4' => AbortSame(s);
    case '7' => ParametersSame(s, payload);
    case '8' => SwitchLives(s, payload, env.probe);
    case 'a' => PttSame(s, payload);
    case 'c' => TuneSame(s, payload, env.schedule(0).tones);
    case 'd' => PttSame(s, payload);
    case 'g' => ParametersSame(s, payload);
    case _ =>
  }

  lemma ResetLives(s: State, r: OpenResult)
    ensures Reset(s, r).alive == s.alive
  {
    hide ResetAlmostAll, DriveLine;
  }

  lemma SwitchLives(s: State, payload: string, probe: Probe)
    ensures CwdeviceRequest(s, payload, probe).alive == s.alive
  {
    hide CwdeviceSet;
    var s1 := Call(s, RegisterKeying(None));
    SetLives(s1, payload, probe);
  }

  lemma SetLives(s: State, name: string, probe: Probe)
    ensures CwdeviceSet(s, name, probe).alive == s.alive
  {
    hide DevFree, Renamed, DriveLine;
    var k := if probe.IsTty? then Tty else NullDevice;
    var s1 := Probed(s, probe);
    FreeLives(s1);
    Renaming.RenamedFrame(DevFree(s1), s.dev.current, k, name);
  }

  lemma FreeLives(s: State)
    ensures DevFree(s).alive == s.alive
  {
    hide DriveLine;
  }

  lemma ExitLowers(s: State, e: Event, line: Line)
    requires Resources(s) && s.alive && s.dev.current.Tty? && DeviceOpen(s)
    requires s.dev.pins.key == Some(line) || s.dev.pins.ptt == Some(line)
    requires e.Datagram? && Step(s, e) == Exit(Fresh(s, e.client))
    ensures LastIoctl(Step(s, e).out, s.dev.ttyFd, line) == Some(false)
  {
    hide Step, Resources, LastIoctl, LowerPins, Exit;
    var f := Fresh(s, e.client);
    SameResourcesKeeps(s, f);
    ExitInTurn(f);
    LoweredLast(s.dev.ttyFd, s.dev.pins, line, -1);
    LastOfTwo([Cw(StopGenerator), Cw(DeleteGenerator)], LowerPins(s.dev.ttyFd, s.dev.pins), s.dev.ttyFd, line);
  }

  // ---------- the command line ----------

  /** Before any argument: the null device, and a tty that would key with DTR and drive PTT with RTS. */
  lemma BootIs(defaults: Params)
    ensures var b := Boot(defaults);
      && b.dev.current == NullDevice && b.dev.pins == Pins(Some(Dtr), Some(Rts)) && DeviceName(b.dev) == Some("null")
      && b.dev.ttyDesc.Some? && b.dev.ttyDesc.value.text == "ttyS0"
      && b.queue == "" && b.ptt == PttFlag(false, false, false) && !b.wordmode && b.defaults == defaults
  {
  }

  /** An argument: `-d` with a name switches devices; `-o` is taken only for a tty, sets the pin that it names and
      lowers its line. Anything else ends the program. */
  lemma ArgumentIs(s: State, a: Argument)
    requires Booting(s)
    ensures var t := Argue(s, a);
      match a
      case Device(name, probe) => if name == "" then t == None else t.Some? && Switched(s, t.value, name, probe)
      case DriverOption(text) =>
        if !s.dev.current.Tty? || OptParse(text).Refused? then t == None
        else
          var line := OptParse(text).line;
          var pins := if OptParse(text).Key? then s.dev.pins.(key := line) else s.dev.pins.(ptt := line);
          && t.Some? && t.value == s.(dev := s.dev.(pins := pins), os := t.value.os,
                                      out := s.out + Ioctls(s.dev.ttyFd, line, false))
          && (if line.Some? then Moved(s.os, t.value.os, s.dev.ttyFd, line.value, false) else t.value.os == s.os)
  {
    match a
    case Device(name, probe) =>
      hide CwdeviceSet, Switched;
      if name != "" {
        SwitchIs(s, name, probe);
      }
    case DriverOption(text) =>
      hide OptParse;
      assert s.out + [] == s.out;
      if s.dev.current.Tty? {
        assert s.dev.ttyFd in s.os.open.Keys;
        if !OptParse(text).Refused? && OptParse(text).line.Some? {
          SetLineMoves(s.os, s.dev.ttyFd, OptParse(text).line.value, false);
        }
      }
  }

  /** Start: refused exactly if the pins of a tty are on one line or the sound output does not open; otherwise as after
      a RESET. */
  lemma StartIs(s: State, bind: Address, r: OpenResult)
    requires Booting(s)
    ensures var t := Start(s, bind, r); var p := s.dev.pins;
      if (s.dev.current.Tty? && p.key.Some? && p.key == p.ptt) || !r.Opened? then t == None
      else t == Some(s.(requestAddress := bind, current := s.defaults, hasAudio := true,
                        libcw := SetUp(s.defaults, s.dev.current),
                        out := s.out + (OpenCalls(s.defaults.system, r) + SetUpCalls(s.defaults, s.dev.current))))
  {
    hide ResetAlmostAll, OpenCalls, SetUpCalls, SetUp;
    assert s.queue == "";
    AlmostAllIs(s.(requestAddress := bind), r);
  }
}
