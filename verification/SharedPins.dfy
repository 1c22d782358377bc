/** What validating the pins is for: with both pins on one line, and only then, keying reaches the PTT pin. */
module SharedPins {
  import opened Basics
  import opened Decimal
  import opened DriverOptions
  import opened World
  import opened Machine
  import opened Safety
  import opened DeviceBooks
  import opened KeyingTarget
  import opened PttRelease
  import opened TextRelease
  import opened Requests
  import Guarantees
  import Player

  /** The PTT pin is bound to automatic PTT on every run if and only if the pins that the daemon was launched with
      pass validation, which they must when it is launched on a tty. */
  lemma PttPinExactly(defaults: Params, args: seq<Argument>, bind: Address, r: OpenResult)
    requires InRangeParams(defaults) && Launch(defaults, args, bind, r).Some?
    ensures OptValidate(Launch(defaults, args, bind, r).value.dev.pins) <==>
      forall es :: var s := Reached(defaults, args, bind, r, es); PttPinOn(s) ==> s.ptt.auto && s.current.delay > 0
  {
    var s0 := Launch(defaults, args, bind, r).value;
    LaunchedIdle(defaults, args, bind, r);
    hide Run, Launch, Inv, PttPinOn;
    if OptValidate(s0.dev.pins) {
      forall es
        ensures var s := Reached(defaults, args, bind, r, es); PttPinOn(s) ==> s.ptt.auto && s.current.delay > 0
      {
        Guarantees.PttPinNeedsAutoAndDelay(defaults, args, bind, r, es);
        RunKeepsPins(s0, es);
      }
    } else {
      SharedLine(s0);
      assert Reached(defaults, args, bind, r, KeyOnTty()) == Run(s0, KeyOnTty());
    }
  }

  const TO_TTY: string := [ESC, '8', 't']
  const NO_DELAY: string := [ESC, 'd', '0']

  /** The sound output opens, `t` is a tty, and a character makes two tones. */
  function Ordinary(): Env { Env(Opened, Opened, IsTty({}), _ => Slot(2, [])) }

  /** A client switches to a tty, turns the PTT delay off and has an `e` sent; libcw starts its mark. */
  function KeyOnTty(): seq<Event> {
    [Datagram(TO_TTY, 0, Ordinary()), Datagram(NO_DELAY, 0, Ordinary()), Datagram("e", 0, Ordinary()),
     Thread(Mark(true))]
  }

  /** Sound is open, PTT is idle, and both pins are on one line. */
  ghost predicate Exposed(s: State) {
    Inv(s) && s.alive && s.hasAudio && s.ptt == PTT_IDLE && !OptValidate(s.dev.pins)
  }

  ghost predicate OnTty(s: State) { s.libcw.keying == Some(Tty) && s.dev.current == Tty }

  lemma ExposedAddress(s: State)
    requires Exposed(s)
    ensures Exposed(s.(out := [], mail := [], requestAddress := 0))
  {
    SameResourcesKeeps(s, s.(out := [], mail := [], requestAddress := 0));
  }

  lemma ShortText(text: string)
    requires |text| <= 3 && NUL !in text && text != "" && !IsEol(text[|text| - 1])
    ensures RequestText(text) == text
  {
    hide RequestText;
    assert text + "" == text;
    TextArrives(text, "");
  }

  lemma StaysExposed(s: State, e: Event)
    requires Exposed(s) && Step(s, e).alive && Step(s, e).hasAudio && Step(s, e).ptt == PTT_IDLE
    ensures Exposed(Step(s, e))
  {
    hide Step, Inv;
    InvKeying(s);
    StepKeeps(s, e);
    StepKeepsPins(s, e);
  }

  lemma SwitchToTty(s: State)
    requires Resources(s) && s.alive
    ensures var t := CwdeviceRequest(s, "t", IsTty({}));
      t.alive == s.alive && t.hasAudio == s.hasAudio && t.ptt == s.ptt && OnTty(t)
  {
    hide CwdeviceSet;
    var s1 := Call(s, RegisterKeying(None));
    SameResourcesKeeps(s, s1);
    CwdeviceSetKeeps(s1, "t", IsTty({}));
  }

  lemma FirstStep(s: State)
    requires Exposed(s)
    ensures var t := Step(s, KeyOnTty()[0]); Exposed(t) && OnTty(t)
  {
    hide Step, Escaped, Inv, RequestText, CwdeviceRequest, Exposed;
    var s1, e := s.(out := [], mail := [], requestAddress := 0), KeyOnTty()[0];
    ExposedAddress(s);
    ShortText(TO_TTY);
    EscapedAlive(s, e);
    SwitchEscaped(s1, Ordinary());
    ExposedResources(s1);
    SwitchToTty(s1);
    StaysExposed(s, e);
  }

  lemma ExposedResources(s: State)
    requires Exposed(s)
    ensures Resources(s) && s.alive && s.hasAudio && s.ptt == PTT_IDLE && s.libcw.gen.Running?
  {
  }

  lemma EscapedAlive(s: State, e: Event)
    requires Exposed(s) && e.Datagram? && e.client == 0 && RequestText(e.bytes) == e.bytes
    requires |e.bytes| == 3 && e.bytes[0] == ESC && e.bytes[1] != NUL
    ensures Step(s, e) == Escaped(s.(out := [], mail := [], requestAddress := 0), e.bytes, e.env)
    ensures s.alive
  {
    hide Escaped, Step, RequestText;
    EscapedStep(s, e.bytes, e.client, e.env);
  }

  lemma SwitchEscaped(s: State, env: Env)
    ensures Escaped(s, TO_TTY, env) == CwdeviceRequest(s, "t", env.probe)
    ensures Escaped(s, NO_DELAY, env) == DelayRequest(s, "0")
  {
    hide CwdeviceRequest, DelayRequest;
    assert TO_TTY[2..] == "t" && NO_DELAY[2..] == "0";
  }

  lemma DelayOff(s: State)
    ensures var t := DelayRequest(s, "0");
      && t.current.delay == 0 && t.ptt == PTT_IDLE && t.alive == s.alive && t.hasAudio == s.hasAudio
      && t.dev == s.dev && t.libcw == s.libcw
  {
    hide DriveLine, GetLong;
    assert Print(0) == "0";
    PrintThenParse(0);
  }

  lemma SecondStep(s: State)
    requires Exposed(s) && OnTty(s)
    ensures var t := Step(s, KeyOnTty()[1]); Exposed(t) && OnTty(t) && t.current.delay == 0
  {
    hide Step, Escaped, Inv, RequestText, DelayRequest, Exposed;
    var s1, e := s.(out := [], mail := [], requestAddress := 0), KeyOnTty()[1];
    ExposedResources(s);
    ShortText(NO_DELAY);
    EscapedAlive(s, e);
    SwitchEscaped(s1, Ordinary());
    DelayOff(s1);
    StaysExposed(s, e);
  }

  lemma OneLetterText(speed: int, gap: int)
    ensures var cs := Player.Interp("e", Player.Cursor(0, speed, gap));
      |Player.Keyed(cs)| == 1 && Player.Echoed(cs) == []
  {
    hide Player.Interp, Player.Keyed, Player.Echoed;
    Player.KeyedAndEchoed("e", speed, gap);
    assert Player.Stop("e", 0, gap) == 1;
    assert "e"[..1] == "e" && Player.Morse("e"[1..]) == "";
    assert Player.Morse("e") == "e";
  }

  /** The `e` as a request in a state that is ready for it. */
  lemma LetterRequest(s: State, env: Env)
    requires s.libcw.gen.Running? && s.queue == "" && s.ptt == PTT_IDLE && s.current.delay == 0
    requires forall i :: env.schedule(i) == Slot(2, [])
    ensures var t := TextRequest(s, "e", env.schedule);
      t.libcw.tones >= 2 && t.alive == s.alive && t.hasAudio == s.hasAudio && t.ptt == PTT_IDLE
  {
    hide Exec, Player.Interp, Player.Keyed, Player.Echoed;
    assert s.queue + "e" == "e";
    AtomicExec(s.(queue := "e"), Commands(s, "e"), 0, env.schedule);
    TonesEach(Commands(s, "e"), 0, env.schedule, 2);
    OneLetterText(s.current.speed, s.libcw.gap);
  }

  lemma TextStep(s: State, e: Event)
    requires s.alive && e == Datagram("e", 0, Ordinary())
    ensures Step(s, e) == TextRequest(s.(out := [], mail := [], requestAddress := 0), "e", e.env.schedule)
  {
    hide TextRequest, Escaped;
    assert Stored("e") == "e" && TrimEnd("e") == "e";
    CStrOfText("e");
  }

  lemma ThirdStep(s: State)
    requires Exposed(s) && OnTty(s) && s.current.delay == 0
    ensures var t := Step(s, KeyOnTty()[2]); Exposed(t) && OnTty(t) && t.libcw.tones >= 2
  {
    var s1, e := s.(out := [], mail := [], requestAddress := 0), KeyOnTty()[2];
    assert s.queue == "";
    hide Step, TextRequest, Inv, Exposed;
    ExposedResources(s);
    TextStep(s, e);
    LetterRequest(s1, e.env);
    TextSame(s1, "e", e.env.schedule);
    StaysExposed(s, e);
  }

  /** The mark raises the PTT pin, although PTT is idle. */
  lemma LastStep(s: State)
    requires Exposed(s) && OnTty(s) && s.libcw.tones >= 2
    ensures var t := Step(s, KeyOnTty()[3]); PttPinOn(t) && t.ptt == PTT_IDLE
  {
    assert s.dev.ttyFd in s.os.open.Keys;
  }

  lemma Steps(s: State, a: Event, b: Event, c: Event, d: Event)
    ensures Run(s, [a, b, c, d]) == Step(Step(Step(Step(s, a), b), c), d)
  {
    hide Step;
    assert [a, b, c, d][1..] == [b, c, d] && [b, c, d][1..] == [c, d] && [c, d][1..] == [d] && [d][1..] == [];
    var t := Step(Step(s, a), b);
    assert Run(t, [c, d]) == Run(Step(t, c), [d]) == Step(Step(t, c), d);
    assert Run(s, [a, b, c, d]) == Run(Step(s, a), [b, c, d]) == Run(t, [c, d]);
  }

  lemma SharedLine(s: State)
    requires Exposed(s)
    ensures var t := Run(s, KeyOnTty()); PttPinOn(t) && !t.ptt.auto
  {
    hide Run, Step, Exposed, PttPinOn;
    var es := KeyOnTty();
    Steps(s, es[0], es[1], es[2], es[3]);
    FirstStep(s);
    var s1 := Step(s, es[0]);
    SecondStep(s1);
    var s2 := Step(s1, es[1]);
    ThirdStep(s2);
    LastStep(Step(s2, es[2]));
  }
}
