/** Which device libcw keys, told from the requests alone. */
module KeyingTarget {
  import opened Basics
  import opened World
  import opened Machine
  import opened Safety
  import Player

  function RequestText(bytes: string): string { CStr(TrimEnd(Stored(bytes))) }

  /** The code of an escaped request; NUL for a text request and for no request. */
  function RequestCode(bytes: string): char {
    var text := RequestText(bytes);
    if text != "" && text[0] == ESC then Code(text) else NUL
  }

  /** Reference: is keying attached after an event, given whether it was before? RESET attaches it if the sound
      output opens, CWDEVICE if it names a device, a valid SOUND_SYSTEM if the output or the fallback opens;
      otherwise each of them detaches it. No other event matters. */
  function AttachedAfter(attached: bool, e: Event): bool {
    if !e.Datagram? then attached
    else
      var payload := Payload(RequestText(e.bytes));
      match RequestCode(e.bytes)
      case '0' => e.env.open.Opened?
      case '8' => payload != ""
      case 'f' => if ParseSystem(payload).Some? then e.env.open.Opened? || e.env.fallback.Opened? else attached
      case _ => attached
  }

  function Attached(attached: bool, es: seq<Event>): bool
    decreases |es|
  {
    if es == [] then attached else Attached(AttachedAfter(attached, es[0]), es[1..])
  }

  predicate SameTarget(s: State, t: State) {
    t.libcw.keying == s.libcw.keying && t.dev.current == s.dev.current && t.alive == s.alive
  }

  predicate Targets(s: State, attached: bool) {
    s.libcw.keying == if attached then Some(s.dev.current) else None
  }

  lemma PlayTickSame(s: State, tick: Tick)
    ensures SameTarget(s, PlayTick(s, tick))
  {
  }

  lemma {:induction false} PlayTicksSame(s: State, ticks: seq<Tick>)
    ensures SameTarget(s, PlayTicks(s, ticks))
    decreases |ticks|
  {
    hide PlayTick;
    if ticks != [] {
      PlayTickSame(s, ticks[0]);
      PlayTicksSame(PlayTick(s, ticks[0]), ticks[1..]);
    }
  }

  lemma PerformSame(s: State, c: Player.Command, tones: nat)
    ensures SameTarget(s, Perform(s, c, tones))
  {
  }

  lemma {:induction false} ExecSame(s: State, cs: seq<Player.Command>, k: nat, schedule: Schedule)
    ensures SameTarget(s, Exec(s, cs, k, schedule))
    decreases |cs|
  {
    if cs != [] {
      PerformSame(s, cs[0], schedule(k).tones);
      PlayTicksSame(Perform(s, cs[0], schedule(k).tones), schedule(k).ticks);
      ExecSame(ExecOne(s, cs[0], schedule(k)), cs[1..], k + 1, schedule);
    }
  }

  lemma TextSame(s: State, text: string, schedule: Schedule)
    ensures SameTarget(s, TextRequest(s, text, schedule))
  {
    var s1 := s.(queue := s.queue + text);
    ExecSame(s1, Player.Interp(s1.queue, Player.Cursor(0, s.current.speed, s.libcw.gap)), 0, schedule);
  }

  lemma {:induction false} QueueTonesSame(s: State, us: nat, hz: int, n: nat)
    ensures SameTarget(s, QueueTones(s, us, hz, n))
  {
    if n > 0 {
      QueueTonesSame(s, us, hz, n - 1);
    }
  }

  lemma TuneSame(s: State, payload: string, tones: nat)
    ensures SameTarget(s, TuneRequest(s, payload, tones))
  {
    var v := Machine.InRange(payload, 0, TUNE_SECONDS_MAX);
    if v.Some? {
      QueueTonesSame(SetPttOn(Call(s, FlushQueue)), 1_000_000, s.current.tone, v.value);
    }
  }

  lemma ParametersSame(s: State, payload: string)
    ensures SameTarget(s, SpeedRequest(s, payload)) && SameTarget(s, ToneRequest(s, payload))
    ensures SameTarget(s, WeightingRequest(s, payload)) && SameTarget(s, VolumeRequest(s, payload))
  {
    hide Machine.InRange, SetTone;
    var v := Machine.InRange(payload, 0, CW.frequencyMax);
    if v.Some? {
      ToneSame(s, v.value);
    }
  }

  lemma ToneSame(s: State, hz: int)
    ensures SameTarget(s, SetTone(s, hz))
  {
  }

  lemma PttSame(s: State, payload: string)
    ensures SameTarget(s, PttRequest(s, payload)) && SameTarget(s, DelayRequest(s, payload))
  {
    hide ParseDelay, SetPttOn, SetPttOff;
  }

  lemma AbortSame(s: State)
    ensures SameTarget(s, Abort(s))
  {
  }

  lemma ResetTargets(s: State, r: OpenResult)
    requires InRangeParams(s.defaults)
    ensures Targets(Reset(s, r), r.Opened?)
  {
    ResetAlmostAllIs(s.(queue := ""), r);
  }

  lemma SoundSystemTargets(s: State, payload: string, env: Env, attached: bool)
    requires InRangeParams(s.current) && Targets(s, attached)
    ensures Targets(SoundSystemRequest(s, payload, env),
      if ParseSystem(payload).Some? then env.open.Opened? || env.fallback.Opened? else attached)
  {
    var system := ParseSystem(payload);
    if system.Some? {
      var s0 := s.(current := s.current.(system := system.value));
      var s1 := OpenOutput(CloseOutput(s0), system.value, env.open);
      OpenAfterClose(s0, system.value, env.open);
      OpenAfterClose(s1, NullAudio, env.fallback);
    }
  }

  lemma CwdeviceTargets(s: State, payload: string, probe: Probe)
    ensures Targets(CwdeviceRequest(s, payload, probe), payload != "")
  {
  }

  lemma EscapedTargets(s: State, text: string, env: Env, attached: bool)
    requires ParamInv(s) && s.alive && Targets(s, attached) && Code(text) != '5'
    ensures var payload := Payload(text); var t := Escaped(s, text, env);
      Targets(t, match Code(text)
        case '0' => env.open.Opened?
        case '8' => payload != ""
        case 'f' => if ParseSystem(payload).Some? then env.open.Opened? || env.fallback.Opened? else attached
        case _ => attached)
  {
    var payload := Payload(text);
    match Code(text)
    case '0' => ResetTargets(s, env.open);
    case '2' => ParametersSame(s, payload);
    case '3' => ParametersSame(s, payload);
    case '4' => AbortSame(s);
    case '7' => ParametersSame(s, payload);
    case '8' => CwdeviceTargets(s, payload, env.probe);
    case 'a' => PttSame(s, payload);
    case 'c' => TuneSame(s, payload, env.schedule(0).tones);
    case 'd' => PttSame(s, payload);
    case 'f' => SoundSystemTargets(s, payload, env, attached);
    case 'g' => ParametersSame(s, payload);
    case _ =>
  }

  lemma ExitEnds(s: State, text: string, env: Env)
    ensures Code(text) == '5' ==> !Escaped(s, text, env).alive
  {
  }

  lemma StepTargets(s: State, e: Event, attached: bool)
    requires ParamInv(s) && Targets(s, attached) && Step(s, e).alive
    ensures Targets(Step(s, e), AttachedAfter(attached, e))
  {
    hide PlayTick, TextRequest, Escaped;
    var s0 := s.(out := [], mail := []);
    if e.Thread? {
      PlayTickSame(s0, e.tick);
    } else if e.Datagram? {
      var s1 := s0.(requestAddress := e.client);
      var b := TrimEnd(Stored(e.bytes));
      if b != "" {
        if b[0] != ESC {
          TextSame(s1, CStr(b), e.env.schedule);
        } else {
          assert CStr(b) != "";
          ExitEnds(s1, CStr(b), e.env);
          EscapedTargets(s1, CStr(b), e.env, attached);
        }
      }
    }
  }

  lemma {:induction false} RunTargets(s: State, es: seq<Event>, attached: bool)
    requires Inv(s) && Targets(s, attached) && Run(s, es).alive
    ensures Targets(Run(s, es), Attached(attached, es))
    decreases |es|
  {
    if es != [] {
      StaysDead(Step(s, es[0]), es[1..]);
      StepKeeps(s, es[0]);
      StepTargets(s, es[0], attached);
      RunTargets(Step(s, es[0]), es[1..], AttachedAfter(attached, es[0]));
    }
  }

  lemma {:induction false} StaysDead(s: State, es: seq<Event>)
    ensures !s.alive ==> !Run(s, es).alive
    decreases |es|
  {
    if es != [] {
      StaysDead(Step(s, es[0]), es[1..]);
    }
  }

  /** In every state of every run: keying is registered for the current device or not at all, and which of the
      two follows from the outcome of the last start, RESET, CWDEVICE or valid SOUND_SYSTEM request. */
  lemma KeyedDevice(defaults: Params, args: seq<Argument>, bind: Address, r: OpenResult, es: seq<Event>)
    requires InRangeParams(defaults) && Launch(defaults, args, bind, r).Some?
    requires Run(Launch(defaults, args, bind, r).value, es).alive
    ensures var s := Run(Launch(defaults, args, bind, r).value, es);
      s.libcw.keying == if Attached(true, es) then Some(s.dev.current) else None
  {
    var s0 := ArgueAll(Boot(defaults), args).value;
    BootIsBooting(defaults);
    ArgueAllKeeps(Boot(defaults), args);
    ResetAlmostAllIs(s0.(requestAddress := bind), r);
    LaunchIsSafe(defaults, args, bind, r);
    RunTargets(Launch(defaults, args, bind, r).value, es, true);
  }
}
