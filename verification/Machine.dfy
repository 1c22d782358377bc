/** cwdaemon as a state machine: its file-level variables, and every request and callback as a function from
    state to state. The class in Daemon.dfy runs the same steps on variables and buffers. */
module Machine {
  import opened Basics
  import opened Decimal
  import opened DriverOptions
  import opened World
  import Player

  const REQUEST_SIZE_MAX: nat := 256
  const QUEUE_SIZE: nat := 4000
  const REPLY_SIZE_MAX: nat := REQUEST_SIZE_MAX + 1
  const PTT_DELAY_MAX: int := 50
  const TUNE_SECONDS_MAX: int := 10
  const BREAK: string := "break\r\n"

  datatype Params = Params(speed: int, tone: int, volume: int, delay: int, system: AudioSystem, weighting: int)

  datatype PttFlag = PttFlag(auto: bool, manual: bool, echo: bool)

  const PTT_IDLE := PttFlag(false, false, false)
  const PTT_AUTO := PttFlag(true, false, false)

  /** A heap string: the allocation it came from, and its text. */
  datatype Str = Str(id: nat, text: string)

  /** Both cwdevice structures and the pointer global_cwdevice. */
  datatype Devices = Devices(current: Kind, ttyFd: int, nullFd: int, ttyDesc: Option<Str>, nullDesc: Option<Str>,
                             pins: Pins)

  datatype State = State(
    defaults: Params, current: Params, hasAudio: bool, wordmode: bool,
    queue: string, ptt: PttFlag, reply: string, requestAddress: Address, replyAddress: Address,
    libcw: Libcw, dev: Devices, os: Os, out: seq<Action>, mail: seq<Letter>, alive: bool)

  // ---------- answers of the environment ----------

  datatype OpenResult = Opened | CreateFailed | StartFailed

  /** Probing a name as a tty: open() fails; it opens something that is no tty; it opens a tty whose lines are
      in some state. */
  datatype Probe = OpenFails | Rejected | IsTty(lines: set<Line>)

  /** What libcw's thread does: it finishes a tone, or it starts (`on`) or ends a mark. */
  datatype Tick = Tone | Mark(on: bool)

  /** For the k-th command of the player: the tones libcw queued for it, and what libcw's thread did before the
      next command. With no ticks anywhere this is the coarse view, a request as one atomic step. */
  datatype Slot = Slot(tones: nat, ticks: seq<Tick>)

  type Schedule = nat -> Slot

  datatype Env = Env(open: OpenResult, fallback: OpenResult, probe: Probe, schedule: Schedule)

  datatype Event =
    | Datagram(bytes: string, client: Address, env: Env)
    | Thread(tick: Tick)

  // ---------- primitives ----------

  function Call(s: State, c: CwCall): (t: State)
    ensures t == s.(libcw := t.libcw, out := t.out)
  {
    s.(libcw := AfterCall(s.libcw, c), out := s.out + [Cw(c)])
  }

  /** ttys_cw and ttys_ptt: an ioctl on the tty descriptor, unless the pin was opted out. */
  function DriveLine(s: State, line: Option<Line>, on: bool): (t: State)
    ensures t == s.(os := s.os.(open := t.os.open), out := t.out) && t.os.open.Keys == s.os.open.Keys
  {
    if line.None? then s
    else s.(os := SetLine(s.os, s.dev.ttyFd, line.value, on), out := s.out + [Ioctl(s.dev.ttyFd, line.value, on)])
  }

  function TtyReset(s: State): State {
    DriveLine(DriveLine(s, s.dev.pins.key, false), s.dev.pins.ptt, false)
  }

  function DevCw(s: State, k: Kind, on: bool): State {
    if k.Tty? then DriveLine(s, s.dev.pins.key, on) else s
  }

  function DevPtt(s: State, on: bool): State {
    if s.dev.current.Tty? then DriveLine(s, s.dev.pins.ptt, on) else s
  }

  function DevReset(s: State): State {
    if s.dev.current.Tty? then TtyReset(s) else s
  }

  // ---------- PTT ----------

  function SetPttOn(s: State): (t: State)
    ensures t == s.(os := t.os, out := t.out, ptt := t.ptt)
  {
    if s.current.delay != 0 && !s.ptt.auto then
      var s1 := DevPtt(s, true);
      s1.(ptt := s1.ptt.(auto := true))
    else s
  }

  function SetPttOff(s: State): (t: State)
    ensures t == s.(os := t.os, out := t.out, ptt := PTT_IDLE)
  {
    DevPtt(s, false).(ptt := PTT_IDLE)
  }

  // ---------- sound output ----------

  function CloseOutput(s: State): (t: State)
    ensures t == s.(libcw := t.libcw, out := t.out)
  {
    Call(Call(s, StopGenerator), DeleteGenerator)
  }

  function OpenOutput(s: State, system: AudioSystem, r: OpenResult): (t: State)
    ensures t == s.(libcw := t.libcw, out := t.out)
  {
    if r.CreateFailed? then Call(s, NewGenerator(system, false))
    else Call(Call(s, NewGenerator(system, true)), StartGenerator(r.Opened?))
  }

  function ConfigureOutput(s: State, p: Params): (t: State)
    ensures t == s.(libcw := t.libcw, out := t.out)
  {
    Call(Call(Call(Call(Call(Call(s, RegisterLowCallback), SetFrequency(p.tone)), SetSpeed(p.speed)),
         SetVolume(p.volume)), SetGap(0)), SetWeighting(LibcwWeighting(p.weighting)))
  }

  function ResetOutput(s: State, r: OpenResult): (t: State)
    ensures t == s.(libcw := t.libcw, out := t.out)
  {
    var s1 := OpenOutput(CloseOutput(s), s.defaults.system, r);
    if r.Opened? then ConfigureOutput(s1, s.defaults) else s1
  }

  function ResetAlmostAll(s: State, r: OpenResult): (t: State)
    ensures t == s.(current := s.defaults, hasAudio := r.Opened?, libcw := t.libcw, out := t.out)
  {
    var s1 := ResetOutput(s.(current := s.defaults), r);
    if r.Opened? then Call(s1.(hasAudio := true), RegisterKeying(Some(s1.dev.current)))
    else s1.(hasAudio := false)
  }

  // ---------- replies and the low-queue callback ----------

  function PrepareReply(s: State, text: string): State {
    s.(ptt := s.ptt.(echo := true), replyAddress := s.requestAddress, reply := text,
       mail := s.mail + [Prepared(s.requestAddress, text)])
  }

  /** The branch of the callback that sends the pending reply. */
  function SendReply(s: State): State {
    var text := BoundedAppend(s.reply, CRLF, REPLY_SIZE_MAX);
    var s1 := s.(ptt := s.ptt.(echo := false), reply := text, mail := s.mail + [Sent(|s.out|, s.replyAddress, text)]);
    if s1.ptt == PTT_AUTO then Call(Call(s1, QueueTone(1, 0)), QueueTone(1, 0)) else s1
  }

  function LowCallback(s: State): State {
    if s.ptt == PTT_AUTO && s.queue == "" && s.libcw.tones <= 1 then SetPttOff(s)
    else if s.ptt.echo then SendReply(s)
    else s
  }

  /** A running generator finishes one tone; on dropping from above 1 to 1 libcw calls back. */
  function PlayTone(s: State): State {
    if s.libcw.gen.Running? && s.libcw.tones > 0 then
      var s1 := s.(libcw := s.libcw.(tones := s.libcw.tones - 1));
      if s1.libcw.tones == 1 && s1.libcw.lowCallback then LowCallback(s1) else s1
    else s
  }

  /** libcw's keying callback, on the device it was registered with. libcw keys while its generator runs, and
      starts a mark only with tones in the queue. */
  function KeyingEvent(s: State, on: bool): State {
    if s.libcw.keying.Some? && s.libcw.gen.Running? && (on ==> s.libcw.tones > 0) then
      DevCw(s, s.libcw.keying.value, on)
    else s
  }

  function PlayTick(s: State, tick: Tick): State {
    match tick
    case Tone => PlayTone(s)
    case Mark(on) => KeyingEvent(s, on)
  }

  function PlayTicks(s: State, ticks: seq<Tick>): State
    decreases |ticks|
  {
    if ticks == [] then s else PlayTicks(PlayTick(s, ticks[0]), ticks[1..])
  }

  // ---------- the player ----------

  function Perform(s: State, c: Player.Command, tones: nat): State {
    match c
    case Speed(wpm) => Call(s.(current := s.current.(speed := wpm)), SetSpeed(wpm))
    case Gap(dots) => Call(s, SetGap(dots))
    case PttOn => SetPttOn(s)
    case Send(ch) => Call(s, SendCharacter(ch, tones))
    case Rewrite(at) => if at < |s.queue| then s.(queue := s.queue[at := '+']) else s
    case Cut(at) => if at < |s.queue| then s.(queue := s.queue[..at]) else s
    case Reply(text) => PrepareReply(s, text)
  }

  /** One command, then whatever libcw's thread does before the next one. */
  function ExecOne(s: State, c: Player.Command, slot: Slot): State {
    PlayTicks(Perform(s, c, slot.tones), slot.ticks)
  }

  function Exec(s: State, cs: seq<Player.Command>, k: nat, schedule: Schedule): State
    decreases |cs|
  {
    if cs == [] then s else Exec(ExecOne(s, cs[0], schedule(k)), cs[1..], k + 1, schedule)
  }

  function Play(s: State, schedule: Schedule): State {
    Exec(s, Player.Interp(s.queue, Player.Cursor(0, s.current.speed, s.libcw.gap)), 0, schedule)
  }

  // ---------- escaped requests ----------

  function InRange(payload: string, lo: int, hi: int): (r: Option<int>)
    ensures r.Some? ==> lo <= r.value <= hi
  {
    var v := GetLong(payload);
    if v.None? || v.value < lo || v.value > hi then None else v
  }

  /** cwdaemon_params_pttdelay: 0, 1 and 2 of the source. */
  datatype DelayVerdict = Rejection | Exact(ms: int) | Clipped(ms: int)

  function ParseDelay(payload: string): DelayVerdict {
    var v := GetLong(payload);
    if v.None? then Rejection
    else if v.value > PTT_DELAY_MAX then Clipped(PTT_DELAY_MAX)
    else if v.value < 0 then Rejection
    else Exact(v.value)
  }

  function ParseSystem(payload: string): Option<AudioSystem> {
    if payload == "" then None
    else match payload[0]
      case 'n' => Some(NullAudio)
      case 'c' => Some(Console)
      case 's' => Some(Soundcard)
      case 'a' => Some(Alsa)
      case 'p' => Some(Pulse)
      case 'o' => Some(Oss)
      case _ => None
  }

  function Reset(s: State, r: OpenResult): State {
    var s1 := ResetAlmostAll(s.(queue := ""), r);
    DevReset(s1.(wordmode := false)).(ptt := PTT_IDLE)
  }

  function SpeedRequest(s: State, payload: string): State {
    var v := InRange(payload, CW.speedMin, CW.speedMax);
    if v.None? then s else Call(s.(current := s.current.(speed := v.value)), SetSpeed(v.value))
  }

  function SetTone(s: State, hz: int): State {
    var s1 := s.(current := s.current.(tone := hz));
    if hz > 0 then Call(Call(s1, SetFrequency(hz)), SetVolume(s1.current.volume)) else Call(s1, SetVolume(0))
  }

  function ToneRequest(s: State, payload: string): State {
    var v := InRange(payload, 0, CW.frequencyMax);
    if v.None? then s else SetTone(s, v.value)
  }

  function Abort(s: State): State {
    if s.wordmode then s
    else
      var s1 := if s.ptt.echo then s.(mail := s.mail + [Sent(|s.out|, s.replyAddress, BREAK)]) else s;
      var s2 := Call(Call(s1.(queue := ""), FlushQueue), WaitForQueue);
      (if s2.ptt != PTT_IDLE then SetPttOff(s2) else s2).(ptt := PTT_IDLE)
  }

  function WordMode(s: State): State { s.(queue := "", wordmode := true) }

  function WeightingRequest(s: State, payload: string): State {
    var v := InRange(payload, -50, 50);
    if v.None? then s
    else Call(s.(current := s.current.(weighting := v.value)), SetWeighting(LibcwWeighting(v.value)))
  }

  function VolumeRequest(s: State, payload: string): State {
    var v := InRange(payload, CW.volumeMin, CW.volumeMax);
    if v.None? then s else Call(s.(current := s.current.(volume := v.value)), SetVolume(v.value))
  }

  function ManualOn(s: State): State {
    var s1 := if s.current.delay != 0 then SetPttOn(s) else s;
    s1.(ptt := s1.ptt.(manual := true))
  }

  /** Only after a manual "on". The source's guard `!(ptt_flag & !PTT_ACTIVE_AUTO)` is always true. */
  function ManualOff(s: State): State {
    if !s.ptt.manual then s
    else
      var s1 := s.(ptt := s.ptt.(manual := false));
      if s1.queue == "" && s1.libcw.tones <= 1 then SetPttOff(s1) else s1.(ptt := s1.ptt.(auto := true))
  }

  function PttRequest(s: State, payload: string): State {
    var v := GetLong(payload);
    if v.None? then s else if v.value != 0 then ManualOn(s) else ManualOff(s)
  }

  function QueueTones(s: State, microseconds: nat, hz: int, n: nat): (t: State)
    ensures t == s.(libcw := t.libcw, out := t.out)
  {
    if n == 0 then s else Call(QueueTones(s, microseconds, hz, n - 1), QueueTone(microseconds, hz))
  }

  function Tune(s: State, seconds: nat, tones: nat): State {
    if seconds == 0 then s
    else
      var s1 := SetPttOn(Call(s, FlushQueue));
      Call(QueueTones(s1, 1_000_000, s1.current.tone, seconds), SendCharacter('e', tones))
  }

  function TuneRequest(s: State, payload: string, tones: nat): State {
    var v := InRange(payload, 0, TUNE_SECONDS_MAX);
    if v.None? then s else Tune(s, v.value, tones)
  }

  function DelayRequest(s: State, payload: string): State {
    var v := ParseDelay(payload);
    if v.Rejection? then s
    else
      var s1 := s.(current := s.current.(delay := v.ms));
      if v.ms == 0 then SetPttOff(s1) else s1
  }

  /** Replaces the generator, falling back to the "null" output. */
  function Reopen(s: State, system: AudioSystem, env: Env): (t: State)
    ensures t == s.(current := s.current.(system := t.current.system), hasAudio := t.hasAudio, libcw := t.libcw,
                    out := t.out)
  {
    var s1 := OpenOutput(CloseOutput(s.(current := s.current.(system := system))), system, env.open);
    if env.open.Opened? then s1.(hasAudio := true)
    else
      var s2 := OpenOutput(CloseOutput(s1), NullAudio, env.fallback);
      if env.fallback.Opened? then s2.(current := s2.current.(system := NullAudio), hasAudio := true)
      else s2.(hasAudio := false)
  }

  function SoundSystemRequest(s: State, payload: string, env: Env): (t: State)
    ensures t == s.(current := s.current.(system := t.current.system), hasAudio := t.hasAudio, libcw := t.libcw,
                    out := t.out)
  {
    var system := ParseSystem(payload);
    if system.None? then s
    else
      var s1 := Reopen(s, system.value, env);
      if s1.hasAudio then Call(ConfigureOutput(s1, s1.current), RegisterKeying(Some(s1.dev.current))) else s1
  }

  // ---------- keying devices ----------

  /** The device's `free` method: a tty is reset and closed. */
  function DevFree(s: State): (t: State)
    ensures t.dev.pins == s.dev.pins
  {
    if s.dev.current.Tty? then
      var s1 := TtyReset(s);
      s1.(os := CloseFd(s1.os, s1.dev.ttyFd), dev := s1.dev.(ttyFd := -1))
    else s
  }

  function FreeDesc(s: State, k: Kind): (t: State)
    ensures t.dev.pins == s.dev.pins
  {
    if k.Tty? then
      if s.dev.ttyDesc.None? then s
      else s.(os := Free(s.os, s.dev.ttyDesc.value.id), dev := s.dev.(ttyDesc := None))
    else
      if s.dev.nullDesc.None? then s
      else s.(os := Free(s.os, s.dev.nullDesc.value.id), dev := s.dev.(nullDesc := None))
  }

  function NameDevice(s: State, k: Kind, text: string): (t: State)
    ensures t.dev.pins == s.dev.pins
  {
    var str := Some(Str(s.os.strings, text));
    s.(os := Strdup(s.os), dev := if k.Tty? then s.dev.(ttyDesc := str) else s.dev.(nullDesc := str))
  }

  /** The old device loses its name, the new one gets the name from the request. */
  function Renamed(s: State, was: Kind, k: Kind, name: string): (t: State)
    ensures t.dev.pins == s.dev.pins
  {
    NameDevice(FreeDesc(FreeDesc(s, was), k), k, name)
  }

  function DevInit(s: State, k: Kind, fd: int): (t: State)
    ensures t.dev.pins == s.dev.pins
  {
    if k.Tty? then TtyReset(s.(dev := s.dev.(current := k, ttyFd := fd)))
    else s.(dev := s.dev.(current := k, nullFd := fd))
  }

  /** tty_probe_cwdevice: what it opened and found not to be a tty it closes again. */
  function Probed(s: State, probe: Probe): State {
    match probe
    case OpenFails => s
    case Rejected => s.(os := CloseFd(OpenFd(s.os, {}), s.os.opens))
    case IsTty(lines) => s.(os := OpenFd(s.os, lines))
  }

  /** cwdaemon_cwdevice_set: probe, close and unname the old device, name and set up the new one. A name that
      is no tty gives the null device. */
  function CwdeviceSet(s: State, name: string, probe: Probe): (t: State)
    ensures t.dev.pins == s.dev.pins
  {
    var k := if probe.IsTty? then Tty else NullDevice;
    var fd := if probe.IsTty? then s.os.opens else if name == "null" then 0 else -1;
    DevInit(Renamed(DevFree(Probed(s, probe)), s.dev.current, k, name), k, fd)
  }

  function CwdeviceRequest(s: State, payload: string, probe: Probe): State {
    var s1 := Call(s, RegisterKeying(None));
    if payload == "" then s1
    else
      var s2 := CwdeviceSet(s1, payload, probe);
      Call(s2, RegisterKeying(Some(s2.dev.current)))
  }

  /** The atexit handlers, last registered first. */
  function Exit(s: State): State {
    FreeDesc(FreeDesc(DevFree(CloseOutput(s)), Tty), NullDevice).(alive := false)
  }

  // ---------- requests ----------

  function Code(text: string): char { if |text| >= 2 then text[1] else NUL }

  function Payload(text: string): string { if |text| >= 2 then text[2..] else "" }

  function Escaped(s: State, text: string, env: Env): State {
    var payload := Payload(text);
    match Code(text)
    case '0' => Reset(s, env.open)
    case '2' => SpeedRequest(s, payload)
    case '3' => ToneRequest(s, payload)
    case '4' => Abort(s)
    case '5' => Exit(s)
    case '6' => WordMode(s)
    case '7' => WeightingRequest(s, payload)
    case '8' => CwdeviceRequest(s, payload, env.probe)
    case 'a' => PttRequest(s, payload)
    case 'c' => TuneRequest(s, payload, env.schedule(0).tones)
    case 'd' => DelayRequest(s, payload)
    case 'f' => SoundSystemRequest(s, payload, env)
    case 'g' => VolumeRequest(s, payload)
    case 'h' => PrepareReply(s, text[1..])
    case _ => s
  }

  predicate IsEol(c: char) { c == '\r' || c == '\n' }

  /** A datagram without its trailing CRs and LFs. */
  function TrimEnd(b: string): (t: string)
    ensures |t| <= |b| && t == b[..|t|]
    ensures t != "" ==> !IsEol(t[|t| - 1])
    ensures forall k :: |t| <= k < |b| ==> IsEol(b[k])
  {
    if b != "" && IsEol(b[|b| - 1]) then TrimEnd(b[..|b| - 1]) else b
  }

  /** The bytes that recvfrom() stores. */
  function Stored(datagram: string): string {
    if |datagram| <= REQUEST_SIZE_MAX then datagram else datagram[..REQUEST_SIZE_MAX]
  }

  function TextRequest(s: State, text: string, schedule: Schedule): State {
    if |text| + |s.queue| <= QUEUE_SIZE - 1 then Play(s.(queue := s.queue + text), schedule) else s
  }

  function Receive(s: State, datagram: string, client: Address, env: Env): State {
    var s1 := s.(requestAddress := client);
    var b := TrimEnd(Stored(datagram));
    if b == "" then s1
    else if b[0] != ESC then TextRequest(s1, CStr(b), env.schedule)
    else Escaped(s1, CStr(b), env)
  }

  // ---------- runs ----------

  /** One event. `out` and `mail` hold what this step did and nothing else. */
  function Step(s: State, e: Event): State {
    var s0 := s.(out := [], mail := []);
    if !s.alive then s0
    else match e
      case Datagram(bytes, client, env) => Receive(s0, bytes, client, env)
      case Thread(tick) => PlayTick(s0, tick)
  }

  function Run(s: State, es: seq<Event>): State
    decreases |es|
  {
    if es == [] then s else Run(Step(s, es[0]), es[1..])
  }

  /** What the daemon did to the outside in one step. */
  datatype Deeds = Deeds(out: seq<Action>, mail: seq<Letter>)

  /** Everything it did during a run, event by event. */
  function Trace(s: State, es: seq<Event>): seq<Deeds>
    decreases |es|
  {
    if es == [] then [] else
      var t := Step(s, es[0]);
      [Deeds(t.out, t.mail)] + Trace(t, es[1..])
  }

  // ---------- start ----------

  /** An argument of the command line that concerns the device; the others only set the defaults. */
  datatype Argument = Device(name: string, probe: Probe) | DriverOption(text: string)

  ghost predicate InRangeParams(p: Params) {
    && CW.speedMin <= p.speed <= CW.speedMax
    && 0 <= p.tone <= CW.frequencyMax
    && CW.volumeMin <= p.volume <= CW.volumeMax
    && 0 <= p.delay <= PTT_DELAY_MAX
    && -50 <= p.weighting <= 50
  }

  const COMPILED_IN: Params := Params(24, 800, 70, 0, Console, 0)

  /** Before the command line is read: static initialisers, cwdaemon_cwdevices_init, cwdaemon_cwdevice_init. */
  function Boot(defaults: Params): State {
    State(defaults, COMPILED_IN, false, false, "", PTT_IDLE, "", 0, 0,
          Libcw(NoGenerator, 0, 0, 0, 0, 0, false, None, 0),
          Devices(NullDevice, 0, 0, Some(Str(0, "ttyS0")), Some(Str(1, "null")), DEFAULT_PINS),
          Os(0, map[], [], 2, []), [], [], true)
  }

  /** `None` is exit(EXIT_FAILURE). */
  function Argue(s: State, a: Argument): Option<State> {
    match a
    case Device(name, probe) => if name == "" then None else Some(CwdeviceSet(s, name, probe))
    case DriverOption(text) =>
      if !s.dev.current.Tty? then None
      else match OptParse(text)
        case Key(line) => Some(DriveLine(s.(dev := s.dev.(pins := s.dev.pins.(key := line))), line, false))
        case Ptt(line) => Some(DriveLine(s.(dev := s.dev.(pins := s.dev.pins.(ptt := line))), line, false))
        case Refused => None
  }

  function ArgueAll(s: State, args: seq<Argument>): Option<State>
    decreases |args|
  {
    if args == [] then Some(s)
    else
      var t := Argue(s, args[0]);
      if t.None? then None else ArgueAll(t.value, args[1..])
  }

  /** The rest of main() up to its loop; the bind address is the first request address. */
  function Start(s: State, bind: Address, r: OpenResult): Option<State> {
    if s.dev.current.Tty? && !OptValidate(s.dev.pins) then None
    else
      var s1 := ResetAlmostAll(s.(requestAddress := bind), r);
      if r.Opened? then Some(s1.(queue := "")) else None
  }

  function Launch(defaults: Params, args: seq<Argument>, bind: Address, r: OpenResult): Option<State> {
    var s := ArgueAll(Boot(defaults), args);
    if s.None? then None else Start(s.value, bind, r)
  }
}
