/** What every request does, as a client can tell it: the datagram, and what the daemon then holds, tells libcw and
    does to the lines of its device. */
module Effects {
  import opened Basics
  import opened Decimal
  import opened DriverOptions
  import opened World
  import opened Machine
  import opened Safety
  import opened KeyingTarget
  import opened Requests

  // ---------- arrival ----------

  function Request(code: char, payload: string, eol: string): string { [27 as char, code] + payload + eol }

  /** A request that arrives as it was sent. */
  predicate Sendable(code: char, payload: string, eol: string) {
    && code != '\0' && '\0' !in payload && |payload| <= 254
    && EndsInText([27 as char, code] + payload) && AllEol(eol)
  }

  /** The state at the start of a step. */
  function Fresh(s: State, client: Address): State { s.(out := [], mail := [], requestAddress := client) }

  lemma Arrives(s: State, code: char, payload: string, eol: string, client: Address, env: Env)
    requires s.alive && Sendable(code, payload, eol)
    ensures Step(s, Datagram(Request(code, payload, eol), client, env))
      == Escaped(Fresh(s, client), [27 as char, code] + payload, env)
    ensures var text := [27 as char, code] + payload;
      Code(text) == code && Payload(text) == payload && text[1..] == [code] + payload
  {
    hide Escaped, Step, RequestText;
    var text := [27 as char, code] + payload;
    assert text[2..] == payload && text[1..] == [code] + payload;
    TextArrives(text, eol);
    CodeOf(text + eol);
    assert RequestCode(text + eol) == code;
    EscapedStep(s, text + eol, client, env);
  }

  lemma NumberSendable(code: char, v: int, eol: string)
    requires code != '\0' && AllEol(eol) && LONG_MIN <= v <= LONG_MAX
    ensures Sendable(code, Print(v), eol)
  {
    hide Print;
    PrintedDigits(v);
    PrintIsShort(v);
    var text := [27 as char, code] + Print(v);
    assert text[|text| - 1] == Print(v)[|Print(v)| - 1];
  }

  lemma NumberRequest(s: State, code: char, v: int, eol: string, client: Address, env: Env)
    requires s.alive && code != '\0' && AllEol(eol) && LONG_MIN <= v <= LONG_MAX
    ensures Step(s, Datagram(Request(code, Print(v), eol), client, env))
      == Escaped(Fresh(s, client), [27 as char, code] + Print(v), env)
    ensures var text := [27 as char, code] + Print(v); Code(text) == code && GetLong(Payload(text)) == Some(v)
  {
    hide Print, GetLong, Escaped, Step;
    NumberSendable(code, v, eol);
    Arrives(s, code, Print(v), eol, client, env);
    PrintThenParse(v);
  }

  // ---------- parameters ----------

  /** ESC 2: speed. */
  lemma SpeedIsSet(s: State, v: int, eol: string, client: Address, env: Env)
    requires s.alive && AllEol(eol) && LONG_MIN <= v <= LONG_MAX
    ensures var f, t := Fresh(s, client), Step(s, Datagram(Request('2', Print(v), eol), client, env));
      t == if CW.speedMin <= v <= CW.speedMax then
             f.(current := f.current.(speed := v), libcw := f.libcw.(speed := v), out := [Cw(SetSpeed(v))])
           else f
  {
    hide Print, GetLong, Step;
    NumberRequest(s, '2', v, eol, client, env);
  }

  /** ESC 3: tone; 0 silences the sidetone, anything else brings it back at the current volume. */
  lemma ToneIsSet(s: State, v: int, eol: string, client: Address, env: Env)
    requires s.alive && AllEol(eol) && LONG_MIN <= v <= LONG_MAX
    ensures var f, t := Fresh(s, client), Step(s, Datagram(Request('3', Print(v), eol), client, env));
      t == if v == 0 then
             f.(current := f.current.(tone := 0), libcw := f.libcw.(volume := 0), out := [Cw(SetVolume(0))])
           else if 0 < v <= CW.frequencyMax then
             f.(current := f.current.(tone := v), libcw := f.libcw.(frequency := v, volume := s.current.volume),
                out := [Cw(SetFrequency(v)), Cw(SetVolume(s.current.volume))])
           else f
  {
    hide Print, GetLong, Step;
    NumberRequest(s, '3', v, eol, client, env);
  }

  /** ESC 7: weighting, for libcw scaled to 20..80. */
  lemma WeightingIsSet(s: State, v: int, eol: string, client: Address, env: Env)
    requires s.alive && AllEol(eol) && LONG_MIN <= v <= LONG_MAX
    ensures var f, t := Fresh(s, client), Step(s, Datagram(Request('7', Print(v), eol), client, env));
      var w := (v as real * 0.6 + 50.0).Floor;
      t == if -50 <= v <= 50 then
             f.(current := f.current.(weighting := v), libcw := f.libcw.(weighting := w), out := [Cw(SetWeighting(w))])
           else f
  {
    hide Print, GetLong, Step, LibcwWeighting;
    NumberRequest(s, '7', v, eol, client, env);
    WeightingFormula(v);
  }

  /** ESC g: volume. */
  lemma VolumeIsSet(s: State, v: int, eol: string, client: Address, env: Env)
    requires s.alive && AllEol(eol) && LONG_MIN <= v <= LONG_MAX
    ensures var f, t := Fresh(s, client), Step(s, Datagram(Request('g', Print(v), eol), client, env));
      t == if CW.volumeMin <= v <= CW.volumeMax then
             f.(current := f.current.(volume := v), libcw := f.libcw.(volume := v), out := [Cw(SetVolume(v))])
           else f
  {
    hide Print, GetLong, Step;
    NumberRequest(s, 'g', v, eol, client, env);
  }

  // ---------- lines ----------

  /** The daemon has an open descriptor behind its tty. */
  predicate DeviceOpen(s: State) { s.dev.current.Tty? ==> s.dev.ttyFd in s.os.open.Keys }

  lemma InvDeviceOpen(s: State)
    requires Inv(s) && s.alive
    ensures DeviceOpen(s)
  {
  }

  /** Between two states one line of one descriptor has been driven, and no other line has moved. */
  predicate Moved(a: Os, b: Os, fd: int, line: Line, on: bool) {
    && fd in a.open && b == a.(open := b.open) && b.open.Keys == a.open.Keys
    && (line in b.open[fd] <==> on)
    && (forall f, l | f in a.open && !(f == fd && l == line) :: l in b.open[f] <==> l in a.open[f])
  }

  lemma SetLineMoves(os: Os, fd: int, line: Line, on: bool)
    requires fd in os.open
    ensures Moved(os, SetLine(os, fd, line, on), fd, line, on)
  {
  }

  /** The ioctl for a pin, unless it is opted out. */
  function Ioctls(fd: int, pin: Option<Line>, on: bool): seq<Action> {
    if pin.Some? then [Ioctl(fd, pin.value, on)] else []
  }

  /** The ioctl that drives PTT on the current device. */
  function PttIoctls(s: State, on: bool): seq<Action> {
    if s.dev.current.Tty? then Ioctls(s.dev.ttyFd, s.dev.pins.ptt, on) else []
  }

  /** The PTT pin of the current device, if it has one, has been driven. */
  predicate PttMoved(s: State, os: Os, on: bool) {
    if s.dev.current.Tty? && s.dev.pins.ptt.Some? then Moved(s.os, os, s.dev.ttyFd, s.dev.pins.ptt.value, on)
    else os == s.os
  }

  lemma DevPttDrives(s: State, on: bool)
    requires DeviceOpen(s)
    ensures var t := DevPtt(s, on); t == s.(os := t.os, out := s.out + PttIoctls(s, on)) && PttMoved(s, t.os, on)
    ensures s.dev.current.Tty? && s.dev.pins.ptt.Some? ==> (PttPinOn(DevPtt(s, on)) <==> on)
  {
    assert s.out + [] == s.out;
    if s.dev.current.Tty? && s.dev.pins.ptt.Some? {
      SetLineMoves(s.os, s.dev.ttyFd, s.dev.pins.ptt.value, on);
    }
  }

  /** A mark raises the keying line and its end lowers it, and no other line moves. */
  lemma MarkDrivesKeyLine(s: State, on: bool)
    requires Inv(s) && s.alive
    ensures var f := s.(out := [], mail := []); var t := Step(s, Thread(Mark(on)));
      if s.libcw.gen.Running? && (on ==> s.libcw.tones > 0) && s.libcw.keying == Some(Tty) && s.dev.pins.key.Some? then
        && t == f.(os := t.os, out := [Ioctl(s.dev.ttyFd, s.dev.pins.key.value, on)])
        && Moved(s.os, t.os, s.dev.ttyFd, s.dev.pins.key.value, on)
      else t == f
  {
    if s.dev.pins.key.Some? {
      InvDeviceOpen(s);
      if s.dev.current.Tty? {
        SetLineMoves(s.os, s.dev.ttyFd, s.dev.pins.key.value, on);
      }
    }
  }

  // ---------- PTT ----------

  /** ESC d: PTT delay in ms, at most 50; 0 also turns PTT off, a pending reply included. */
  lemma DelayIsSet(s: State, v: int, eol: string, client: Address, env: Env)
    requires Inv(s) && s.alive && AllEol(eol) && LONG_MIN <= v <= LONG_MAX
    ensures var f, t := Fresh(s, client), Step(s, Datagram(Request('d', Print(v), eol), client, env));
      if v < 0 then t == f
      else if v > 0 then t == f.(current := f.current.(delay := if v > 50 then 50 else v))
      else
        && t == f.(current := f.current.(delay := 0), ptt := PttFlag(false, false, false), os := t.os,
                   out := PttIoctls(s, false))
        && PttMoved(s, t.os, false)
  {
    InvDeviceOpen(s);
    hide Print, GetLong, Step, Inv, Escaped, PttMoved, PttIoctls, DeviceOpen;
    var f := Fresh(s, client);
    NumberRequest(s, 'd', v, eol, client, env);
    DelayDispatch(f, [27 as char, 'd'] + Print(v), env, v);
    if v == 0 {
      SameDesk(s, f.(current := s.current.(delay := 0)));
      SetPttOffIs(f.(current := s.current.(delay := 0)));
    }
  }

  lemma DelayDispatch(s: State, text: string, env: Env, v: int)
    requires Code(text) == 'd' && GetLong(Payload(text)) == Some(v)
    ensures Escaped(s, text, env) ==
      if v < 0 then s
      else
        var t := s.(current := s.current.(delay := if v > 50 then 50 else v));
        if v == 0 then SetPttOff(t) else t
  {
    hide GetLong, SetPttOff;
  }

  lemma SameDesk(s: State, t: State)
    requires t.dev == s.dev && t.os == s.os
    ensures forall on :: PttIoctls(t, on) == PttIoctls(s, on)
    ensures forall os, on :: PttMoved(t, os, on) == PttMoved(s, os, on)
    ensures DeviceOpen(t) == DeviceOpen(s) && PttPinOn(t) == PttPinOn(s)
  {
  }

  lemma SetPttOffIs(s: State)
    requires DeviceOpen(s)
    ensures var t := SetPttOff(s);
      && t == s.(ptt := PttFlag(false, false, false), os := t.os, out := s.out + PttIoctls(s, false))
      && PttMoved(s, t.os, false)
  {
    hide DevPtt, PttMoved, PttIoctls;
    DevPttDrives(s, false);
  }

  lemma SetPttOnIs(s: State)
    requires DeviceOpen(s)
    ensures var t := SetPttOn(s);
      if s.current.delay != 0 && !s.ptt.auto then
        && t == s.(ptt := s.ptt.(auto := true), os := t.os, out := s.out + PttIoctls(s, true))
        && PttMoved(s, t.os, true)
        && (s.dev.current.Tty? && s.dev.pins.ptt.Some? ==> PttPinOn(t))
      else t == s
  {
    hide DevPtt, PttMoved, PttIoctls, PttPinOn;
    DevPttDrives(s, true);
    if s.current.delay != 0 && !s.ptt.auto {
      SameDesk(DevPtt(s, true), SetPttOn(s));
    }
  }

  /** ESC a with a number other than 0: manual PTT on. With a delay this is automatic PTT, too, and the pin goes up
      unless automatic PTT was on already; without one no line moves. */
  lemma ManualPttOn(s: State, v: int, eol: string, client: Address, env: Env)
    requires Inv(s) && s.alive && AllEol(eol) && LONG_MIN <= v <= LONG_MAX && v != 0
    ensures var f, t := Fresh(s, client), Step(s, Datagram(Request('a', Print(v), eol), client, env));
      if s.current.delay > 0 && !s.ptt.auto then
        && t == f.(ptt := PttFlag(true, true, s.ptt.echo), os := t.os, out := PttIoctls(s, true))
        && PttMoved(s, t.os, true)
      else t == f.(ptt := PttFlag(s.ptt.auto, true, s.ptt.echo))
    ensures var t := Step(s, Datagram(Request('a', Print(v), eol), client, env));
      s.current.delay > 0 && s.dev.current.Tty? && s.dev.pins.ptt.Some? ==>
        (PttPinOn(t) <==> !s.ptt.auto || PttPinOn(s))
  {
    InvDeviceOpen(s);
    assert s.current.delay >= 0;
    hide Print, GetLong, Step, Inv, Escaped, PttMoved, PttIoctls, DeviceOpen, PttPinOn, SetPttOn;
    var f := Fresh(s, client);
    NumberRequest(s, 'a', v, eol, client, env);
    PttDispatch(f, [27 as char, 'a'] + Print(v), env, v);
    SameDesk(s, f);
    SetPttOnIs(f);
    SameDesk(SetPttOn(f), ManualOn(f));
  }

  lemma PttDispatch(s: State, text: string, env: Env, v: int)
    requires Code(text) == 'a' && GetLong(Payload(text)) == Some(v)
    ensures Escaped(s, text, env) == if v != 0 then ManualOn(s) else ManualOff(s)
  {
    hide ManualOn, ManualOff, GetLong;
  }

  /** ESC a0: manual PTT off, if it was on. With at most one tone left PTT is off, a pending reply included, and the
      pin is down; otherwise it becomes automatic PTT and no line moves. */
  lemma ManualPttOff(s: State, eol: string, client: Address, env: Env)
    requires Inv(s) && s.alive && AllEol(eol)
    ensures var f, t := Fresh(s, client), Step(s, Datagram(Request('a', "0", eol), client, env));
      if !s.ptt.manual then t == f
      else if s.libcw.tones <= 1 then
        t == f.(ptt := PttFlag(false, false, false), os := t.os, out := PttIoctls(s, false)) && PttMoved(s, t.os, false)
      else t == f.(ptt := PttFlag(true, false, s.ptt.echo))
  {
    assert s.queue == "";
    InvDeviceOpen(s);
    hide Print, GetLong, Step, Inv, Escaped, PttMoved, PttIoctls, DeviceOpen, SetPttOff;
    PrintZero();
    var f := Fresh(s, client);
    NumberRequest(s, 'a', 0, eol, client, env);
    PttDispatch(f, [27 as char, 'a'] + Print(0), env, 0);
    var g := f.(ptt := f.ptt.(manual := false));
    SameDesk(s, g);
    SetPttOffIs(g);
  }

  lemma PrintZero()
    ensures Print(0) == "0"
  {
  }

  // ---------- word mode, abort, reply ----------

  lemma PlainSendable(code: char, eol: string)
    requires code != '\0' && code != '\r' && code != '\n' && AllEol(eol)
    ensures Sendable(code, "", eol)
  {
  }

  /** ESC 6: word mode, and nothing else. */
  lemma WordModeIsSet(s: State, eol: string, client: Address, env: Env)
    requires Inv(s) && s.alive && AllEol(eol)
    ensures Step(s, Datagram(Request('6', "", eol), client, env)) == Fresh(s, client).(wordmode := true)
  {
    assert s.queue == "";
    hide Step, Inv;
    PlainSendable('6', eol);
    Arrives(s, '6', "", eol, client, env);
  }

  /** ESC 4: in word mode nothing. In character mode the tone queue is flushed, PTT is off with its pin down if it was
      on at all, and a client that waits for a reply gets "break". */
  lemma AbortIs(s: State, eol: string, client: Address, env: Env)
    requires Inv(s) && s.alive && AllEol(eol)
    ensures var f, t := Fresh(s, client), Step(s, Datagram(Request('4', "", eol), client, env));
      var idle := s.ptt == PttFlag(false, false, false);
      if s.wordmode then t == f
      else
        && t == f.(ptt := PttFlag(false, false, false), libcw := f.libcw.(tones := 0), os := t.os,
                   out := [Cw(FlushQueue), Cw(WaitForQueue)] + (if idle then [] else PttIoctls(s, false)),
                   mail := if s.ptt.echo then [Sent(0, s.replyAddress, "break\r\n")] else [])
        && (if idle then t.os == s.os else PttMoved(s, t.os, false))
  {
    assert s.queue == "";
    InvDeviceOpen(s);
    hide Step, Inv, PttIoctls, PttMoved, DeviceOpen;
    PlainSendable('4', eol);
    Arrives(s, '4', "", eol, client, env);
    SameDesk(s, Fresh(s, client));
    AbortInTurn(Fresh(s, client));
  }

  lemma AbortInTurn(f: State)
    requires f.out == [] && f.mail == [] && f.queue == "" && DeviceOpen(f)
    ensures var t := Abort(f); var idle := f.ptt == PttFlag(false, false, false);
      if f.wordmode then t == f
      else
        && t == f.(ptt := PttFlag(false, false, false), libcw := f.libcw.(tones := 0), os := t.os,
                   out := [Cw(FlushQueue), Cw(WaitForQueue)] + (if idle then [] else PttIoctls(f, false)),
                   mail := if f.ptt.echo then [Sent(0, f.replyAddress, "break\r\n")] else [])
        && (if idle then t.os == f.os else PttMoved(f, t.os, false))
  {
    hide SetPttOff, PttIoctls, PttMoved, DeviceOpen;
    var calm := f.(libcw := f.libcw.(tones := 0), out := [Cw(FlushQueue), Cw(WaitForQueue)],
                   mail := if f.ptt.echo then [Sent(0, f.replyAddress, "break\r\n")] else []);
    assert calm.out + [] == calm.out;
    SameDesk(f, calm);
    SetPttOffIs(calm);
    if !f.wordmode {
      var s1 := if f.ptt.echo then f.(mail := f.mail + [Sent(|f.out|, f.replyAddress, BREAK)]) else f;
      assert Call(Call(s1.(queue := ""), FlushQueue), WaitForQueue) == calm;
    }
  }

  /** ESC h: the text, its `h` included, becomes the reply for this client. */
  lemma ReplyIsPrepared(s: State, payload: string, eol: string, client: Address, env: Env)
    requires s.alive && Sendable('h', payload, eol)
    ensures Step(s, Datagram(Request('h', payload, eol), client, env))
      == Fresh(s, client).(ptt := s.ptt.(echo := true), replyAddress := client, reply := "h" + payload,
                           mail := [Prepared(client, "h" + payload)])
  {
    hide Step;
    Arrives(s, 'h', payload, eol, client, env);
  }

  /** Any other code does nothing. */
  lemma OtherCodesDoNothing(s: State, code: char, payload: string, eol: string, client: Address, env: Env)
    requires s.alive && Sendable(code, payload, eol)
    requires code !in {'0', '2', '3', '4', '5', '6', '7', '8', 'a', 'c', 'd', 'f', 'g', 'h'}
    ensures Step(s, Datagram(Request(code, payload, eol), client, env)) == Fresh(s, client)
  {
    hide Step;
    Arrives(s, code, payload, eol, client, env);
  }

  /** Nor does ESC alone, or a line end alone. */
  lemma NoCodeDoesNothing(s: State, eol: string, client: Address, env: Env)
    requires s.alive && AllEol(eol)
    ensures Step(s, Datagram([27 as char] + eol, client, env)) == Fresh(s, client)
    ensures Step(s, Datagram(eol, client, env)) == Fresh(s, client)
  {
    hide Escaped, TextRequest, RequestText, CStr;
    TextArrives([27 as char], eol);
    LoneEscape(s, [27 as char] + eol, client, env);
    NothingArrives(eol);
  }

  lemma LoneEscape(s: State, bytes: string, client: Address, env: Env)
    requires s.alive && RequestText(bytes) == [27 as char]
    ensures Step(s, Datagram(bytes, client, env)) == Fresh(s, client)
  {
  }

  lemma NothingArrives(eol: string)
    requires AllEol(eol)
    ensures TrimEnd(Stored(eol)) == ""
  {
    var e := if |eol| <= 256 then eol else eol[..256];
    TrimIs("", e);
    assert "" + e == e;
  }

  // ---------- tuning ----------

  function Tones(n: nat, microseconds: nat, hz: int): seq<Action> { seq(n, _ => Cw(QueueTone(microseconds, hz))) }

  lemma {:induction false} QueuedOut(s: State, n: nat, hz: int)
    ensures QueueTones(s, 1_000_000, hz, n).out == s.out + Tones(n, 1_000_000, hz)
    ensures QueueTones(s, 1_000_000, hz, n).libcw
      == if s.libcw.gen.NoGenerator? then s.libcw else s.libcw.(tones := s.libcw.tones + n)
  {
    if n == 0 {
      assert s.out + Tones(0, 1_000_000, hz) == s.out;
    } else {
      QueuedOut(s, n - 1, hz);
      assert Tones(n, 1_000_000, hz) == Tones(n - 1, 1_000_000, hz) + [Cw(QueueTone(1_000_000, hz))];
    }
  }

  /** ESC c with 1 to 10: whatever was queued is flushed, PTT goes on as for a text, and the current tone is queued once
      for every second, with an `e` behind. Any other number does nothing. */
  lemma TuneIs(s: State, v: int, eol: string, client: Address, env: Env)
    requires Inv(s) && s.alive && AllEol(eol) && LONG_MIN <= v <= LONG_MAX
    ensures var f, t := Fresh(s, client), Step(s, Datagram(Request('c', Print(v), eol), client, env));
      var made, raises := env.schedule(0).tones, s.current.delay > 0 && !s.ptt.auto;
      if !(1 <= v <= 10) then t == f
      else
        && t == f.(ptt := f.ptt.(auto := s.ptt.auto || s.current.delay > 0), os := t.os,
                   libcw := f.libcw.(tones := if f.libcw.gen.NoGenerator? then 0 else v + made),
                   out := [Cw(FlushQueue)] + (if raises then PttIoctls(s, true) else [])
                          + Tones(v, 1_000_000, s.current.tone) + [Cw(SendCharacter('e', made))])
        && (if raises then PttMoved(s, t.os, true) else t.os == s.os)
  {
    InvDeviceOpen(s);
    assert s.current.delay >= 0;
    hide Print, GetLong, Step, Inv, Escaped, PttMoved, PttIoctls, DeviceOpen;
    var f := Fresh(s, client);
    NumberRequest(s, 'c', v, eol, client, env);
    TuneDispatch(f, [27 as char, 'c'] + Print(v), env, v);
    SameDesk(s, f);
    if 1 <= v <= 10 {
      TuneInTurn(f, v, env.schedule(0).tones);
    }
  }

  lemma TuneDispatch(s: State, text: string, env: Env, v: int)
    requires Code(text) == 'c' && GetLong(Payload(text)) == Some(v)
    ensures Escaped(s, text, env) == if 1 <= v <= 10 then Tune(s, v, env.schedule(0).tones) else s
  {
    hide GetLong;
  }

  lemma TuneInTurn(f: State, v: nat, made: nat)
    requires 1 <= v <= 10 && DeviceOpen(f) && f.current.delay >= 0 && f.out == []
    ensures var t := Tune(f, v, made); var raises := f.current.delay > 0 && !f.ptt.auto;
      && t == f.(ptt := f.ptt.(auto := f.ptt.auto || f.current.delay > 0), os := t.os,
                 libcw := f.libcw.(tones := if f.libcw.gen.NoGenerator? then 0 else v + made),
                 out := [Cw(FlushQueue)] + (if raises then PttIoctls(f, true) else [])
                        + Tones(v, 1_000_000, f.current.tone) + [Cw(SendCharacter('e', made))])
      && (if raises then PttMoved(f, t.os, true) else t.os == f.os)
  {
    hide SetPttOn, PttMoved, PttIoctls, DeviceOpen, QueueTones, Tones;
    var s1 := Call(f, FlushQueue);
    assert s1.out == [Cw(FlushQueue)];
    SameDesk(f, s1);
    SetPttOnIs(s1);
    assert [Cw(FlushQueue)] + [] == [Cw(FlushQueue)];
    QueuedOut(SetPttOn(s1), v, f.current.tone);
  }
}
