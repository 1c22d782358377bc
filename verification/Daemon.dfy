/** The server as it runs: src/cwdaemon.c with its file-level variables and buffers, updated in place. Every
    method is proved to take the step of the state machine that bears its name. */
module Daemon {
  import opened Basics
  import opened Decimal
  import opened DriverOptions
  import opened World
  import opened Machine
  import opened Safety
  import Player

  // ---------- C strings in buffers ----------

  /** `strlen` */
  method Strlen(a: array<char>) returns (n: nat)
    requires NUL in a[..]
    ensures n < a.Length && a[n] == NUL && a[..n] == CStr(a[..])
  {
    n := 0;
    while a[n] != NUL
      invariant n < a.Length && NUL !in a[..n] && NUL in a[..]
      decreases a.Length - n
    {
      assert a[..n + 1] == a[..n] + [a[n]];
      assert a[..a.Length] == a[..];
      n := n + 1;
    }
    CStrIs(a[..], n);
  }

  lemma BoundedAppendIs(s: string, t: string, cap: nat, m: nat)
    requires |s| <= cap && m == if |t| <= cap - |s| then |t| else cap - |s|
    ensures BoundedAppend(s, t, cap) == s + t[..m]
  {
  }

  /** `snprintf(a + strlen(a), sizeof a - strlen(a), "%s", text)` */
  method Append(a: array<char>, text: string)
    requires NUL in a[..] && NUL !in text
    modifies a
    ensures NUL in a[..]
    ensures CStr(a[..]) == BoundedAppend(old(CStr(a[..])), text, a.Length - 1)
  {
    hide CStr, BoundedAppend;
    var n := Strlen(a);
    ghost var s := CStr(a[..]);
    var m := if |text| < a.Length - n then |text| else a.Length - 1 - n;
    BoundedAppendIs(s, text, a.Length - 1, m);
    for k := 0 to m
      invariant a[..n + k] == s + text[..k]
    {
      a[n + k] := text[k];
    }
    a[n + m] := NUL;
    assert a[..][n + m] == NUL;
    assert a[..][..n + m] == s + text[..m];
    CStrIs(a[..], n + m);
  }

  /** The loop of cwdaemon_recvfrom that overwrites trailing CRs and LFs with NUL. */
  method TrimEol(request: array<char>, received: nat) returns (n: nat)
    requires received <= request.Length
    modifies request
    ensures n <= received && request[..n] == TrimEnd(old(request[..received]))
    ensures forall k :: n <= k < received ==> request[k] == NUL
    ensures forall k :: received <= k < request.Length ==> request[k] == old(request[k])
  {
    n := received;
    while n > 0 && IsEol(request[n - 1])
      invariant n <= received
      invariant request[..n] == old(request[..n])
      invariant TrimEnd(old(request[..n])) == TrimEnd(old(request[..received]))
      invariant forall k :: n <= k < received ==> request[k] == NUL
      invariant forall k :: received <= k < request.Length ==> request[k] == old(request[k])
    {
      assert old(request[..n])[..n - 1] == old(request[..n - 1]);
      n := n - 1;
      request[n] := NUL;
    }
  }

  /** recvfrom() and the trimming after it, into a zeroed buffer of 257 bytes. */
  method RecvFrom(datagram: string) returns (request: array<char>, n: nat)
    ensures fresh(request) && n < request.Length && request[n] == NUL
    ensures request[..n] == TrimEnd(Stored(datagram))
    ensures NUL in request[..] && CStr(request[..]) == CStr(TrimEnd(Stored(datagram)))
  {
    var stored := Stored(datagram);
    request := new char[REQUEST_SIZE_MAX + 1](_ => NUL);
    for k := 0 to |stored|
      invariant request[..k] == stored[..k]
      invariant forall i :: k <= i < request.Length ==> request[i] == NUL
    {
      request[k] := stored[k];
    }
    assert request[..|stored|] == stored;
    n := TrimEol(request, |stored|);
    assert request[..][n] == NUL && request[..][..n] == request[..n];
    BufferString(request[..], n);
  }

  /** Cutting a buffer at its terminating NUL does not change its C string. */
  lemma BufferString(b: seq<char>, n: nat)
    requires n < |b| && b[n] == NUL
    ensures CStr(b) == CStr(b[..n]) && NUL in b
  {
    var s := CStr(b[..n]);
    assert b[..|s|] == s;
    CStrIs(b, |s|);
  }

  class Cwdaemon {
    var defaults: Params
    var current: Params
    var hasAudio: bool
    var wordmode: bool
    const requestQueue: array<char>
    const replyBuffer: array<char>
    var ptt: PttFlag
    var requestAddress: Address
    var replyAddress: Address
    var libcw: Libcw
    var dev: Devices
    var os: Os
    var out: seq<Action>
    var mail: seq<Letter>
    var alive: bool

    ghost predicate Valid()
      reads this, requestQueue, replyBuffer
    {
      && requestQueue != replyBuffer
      && requestQueue.Length == 4000 && replyBuffer.Length == 258
      && NUL in requestQueue[..] && NUL in replyBuffer[..]
    }

    /** The state of the machine that these variables stand for. */
    ghost function View(): State
      reads this, requestQueue, replyBuffer
    {
      State(defaults, current, hasAudio, wordmode, CStr(requestQueue[..]), ptt, CStr(replyBuffer[..]),
            requestAddress, replyAddress, libcw, dev, os, out, mail, alive)
    }

    /** There is an open descriptor behind the tty, for the daemon and for libcw. */
    ghost predicate DeviceReady()
      reads this
    {
      (dev.current.Tty? ==> dev.ttyFd in os.open) && (libcw.keying == Some(Tty) ==> dev.ttyFd in os.open)
    }

    /** What the code relies on inside an event: an open descriptor behind the tty, room for CRLF behind a
        pending reply, and a speed in range. */
    ghost predicate Ready()
      reads this, requestQueue, replyBuffer
    {
      && Valid()
      && DeviceReady()
      && ReplyInv(View())
      && CW.speedMin <= current.speed <= CW.speedMax
    }

    lemma InvIsReady()
      requires Valid() && Inv(View()) && alive
      ensures Ready()
    {
      assert dev.current.Tty? ==> os.open.Keys == {dev.ttyFd};
    }

    // ---------- primitives ----------

    method Call(c: CwCall)
      modifies this`libcw, this`out
      ensures View() == Machine.Call(old(View()), c)
    {
      libcw, out := AfterCall(libcw, c), out + [Cw(c)];
    }

    /** An ioctl is only ever made on an open descriptor. */
    method DriveLine(line: Option<Line>, on: bool)
      requires dev.ttyFd in os.open
      modifies this`os, this`out
      ensures View() == Machine.DriveLine(old(View()), line, on)
    {
      if line.Some? {
        os, out := SetLine(os, dev.ttyFd, line.value, on), out + [Ioctl(dev.ttyFd, line.value, on)];
      }
    }

    method TtyReset()
      requires dev.ttyFd in os.open
      modifies this`os, this`out
      ensures View() == Machine.TtyReset(old(View()))
    {
      DriveLine(dev.pins.key, false);
      DriveLine(dev.pins.ptt, false);
    }

    method DevPtt(on: bool)
      requires dev.current.Tty? ==> dev.ttyFd in os.open
      modifies this`os, this`out
      ensures View() == Machine.DevPtt(old(View()), on)
    {
      if dev.current.Tty? {
        DriveLine(dev.pins.ptt, on);
      }
    }

    method DevReset()
      requires dev.current.Tty? ==> dev.ttyFd in os.open
      modifies this`os, this`out
      ensures View() == Machine.DevReset(old(View()))
    {
      if dev.current.Tty? {
        TtyReset();
      }
    }

    // ---------- PTT ----------

    method SetPttOn()
      requires dev.current.Tty? ==> dev.ttyFd in os.open
      modifies this`os, this`out, this`ptt
      ensures View() == Machine.SetPttOn(old(View()))
    {
      if current.delay != 0 && !ptt.auto {
        DevPtt(true);
        ptt := ptt.(auto := true);
      }
    }

    method SetPttOff()
      requires dev.current.Tty? ==> dev.ttyFd in os.open
      modifies this`os, this`out, this`ptt
      ensures View() == Machine.SetPttOff(old(View()))
    {
      DevPtt(false);
      ptt := PTT_IDLE;
    }

    // ---------- sound output ----------

    method CloseOutput()
      modifies this`libcw, this`out
      ensures View() == Machine.CloseOutput(old(View()))
    {
      Call(StopGenerator);
      Call(DeleteGenerator);
    }

    method OpenOutput(system: AudioSystem, r: OpenResult) returns (ok: bool)
      modifies this`libcw, this`out
      ensures View() == Machine.OpenOutput(old(View()), system, r) && ok == r.Opened?
    {
      Call(NewGenerator(system, !r.CreateFailed?));
      if !r.CreateFailed? {
        Call(StartGenerator(r.Opened?));
      }
      ok := r.Opened?;
    }

    method ConfigureOutput(p: Params)
      modifies this`libcw, this`out
      ensures View() == Machine.ConfigureOutput(old(View()), p)
    {
      Call(RegisterLowCallback);
      Call(SetFrequency(p.tone));
      Call(SetSpeed(p.speed));
      Call(SetVolume(p.volume));
      Call(SetGap(0));
      Call(SetWeighting(LibcwWeighting(p.weighting)));
    }

    method ResetOutput(r: OpenResult) returns (ok: bool)
      modifies this`libcw, this`out
      ensures View() == Machine.ResetOutput(old(View()), r) && ok == r.Opened?
    {
      CloseOutput();
      ok := OpenOutput(defaults.system, r);
      if ok {
        ConfigureOutput(defaults);
      }
    }

    method ResetAlmostAll(r: OpenResult)
      modifies this`current, this`libcw, this`out, this`hasAudio
      ensures View() == Machine.ResetAlmostAll(old(View()), r)
    {
      current := defaults;
      ghost var s := View();
      hasAudio := ResetOutput(r);
      assert View() == Machine.ResetOutput(s, r).(hasAudio := r.Opened?);
      if hasAudio {
        Call(RegisterKeying(Some(dev.current)));
      }
    }

    // ---------- replies and callbacks ----------

    /** cwdaemon_prepare_reply, copying `n` characters from `from` on. The caller has to leave room for them. */
    method PrepareReply(request: array<char>, from: nat, n: nat)
      requires Valid() && request != replyBuffer
      requires from + n <= request.Length && NUL !in request[from..from + n]
      requires n + 2 <= REPLY_SIZE_MAX
      modifies this`ptt, this`replyAddress, this`mail, replyBuffer
      ensures Valid() && ReplyInv(View())
      ensures View() == Machine.PrepareReply(old(View()), old(request[from..from + n]))
    {
      hide CStr;
      ptt := ptt.(echo := true);
      replyAddress := requestAddress;
      CopyReply(request, from, n);
      mail := mail + [Prepared(requestAddress, request[from..from + n])];
    }

    /** `strncpy` and the NUL after it */
    method CopyReply(request: array<char>, from: nat, n: nat)
      requires Valid() && request != replyBuffer
      requires from + n <= request.Length && NUL !in request[from..from + n] && n < replyBuffer.Length
      modifies replyBuffer
      ensures Valid() && CStr(requestQueue[..]) == old(CStr(requestQueue[..]))
      ensures CStr(replyBuffer[..]) == old(request[from..from + n]) == request[from..from + n]
    {
      for k := 0 to n
        invariant replyBuffer[..k] == request[from..from + k]
      {
        replyBuffer[k] := request[from + k];
      }
      replyBuffer[n] := NUL;
      assert replyBuffer[..][n] == NUL;
      assert replyBuffer[..][..n] == request[from..from + n];
      CStrIs(replyBuffer[..], n);
      assert request[from..from + n] == old(request[from..from + n]);
    }

    /** cwdaemon_sendto with its assertion as precondition. */
    method SendTo(text: string)
      requires |text| >= 2 && text[|text| - 2..] == CRLF
      modifies this`mail
      ensures View() == old(View()).(mail := old(mail) + [Sent(|out|, replyAddress, text)])
    {
      mail := mail + [Sent(|out|, replyAddress, text)];
    }

    /** CRLF behind the pending reply, for which there is room. */
    method AppendCrlf() returns (n: nat)
      requires Valid() && |CStr(replyBuffer[..])| + 2 <= REPLY_SIZE_MAX
      modifies replyBuffer
      ensures Valid() && n < replyBuffer.Length && replyBuffer[..n] == old(CStr(replyBuffer[..])) + CRLF
      ensures n >= 2 && replyBuffer[..n][n - 2..] == CRLF
      ensures CStr(replyBuffer[..]) == BoundedAppend(old(CStr(replyBuffer[..])), CRLF, REPLY_SIZE_MAX)
      ensures CStr(requestQueue[..]) == old(CStr(requestQueue[..]))
    {
      hide CStr, BoundedAppend;
      ghost var reply := CStr(replyBuffer[..]);
      Append(replyBuffer, CRLF);
      n := Strlen(replyBuffer);
      assert replyBuffer[..n] == reply + CRLF;
      assert (reply + CRLF)[|reply|..] == CRLF;
    }

    method SendReply()
      requires Ready() && ptt.echo
      modifies this`ptt, this`mail, this`libcw, this`out, replyBuffer
      ensures Ready() && View() == Machine.SendReply(old(View()))
    {
      hide CStr, BoundedAppend, Machine.Call;
      ptt := ptt.(echo := false);
      var n := AppendCrlf();
      SendTo(replyBuffer[..n]);
      if ptt == PTT_AUTO {
        QueueTwoTones();
      }
    }

    method QueueTwoTones()
      modifies this`libcw, this`out
      ensures View() == Machine.Call(Machine.Call(old(View()), QueueTone(1, 0)), QueueTone(1, 0))
      ensures libcw == old(libcw).(tones := libcw.tones)
    {
      Call(QueueTone(1, 0));
      Call(QueueTone(1, 0));
    }

    /** cwdaemon_tone_queue_low_callback */
    method LowCallback()
      requires Ready()
      modifies this`ptt, this`mail, this`libcw, this`out, this`os, replyBuffer
      ensures Ready() && View() == Machine.LowCallback(old(View()))
      ensures libcw.gap == old(libcw.gap)
    {
      assert requestQueue[0] == NUL <==> CStr(requestQueue[..]) == "";
      if ptt == PTT_AUTO && requestQueue[0] == NUL && libcw.tones <= 1 {
        SetPttOff();
      } else if ptt.echo {
        SendReply();
      }
    }

    /** libcw's thread finishes a tone. */
    method PlayTone()
      requires Ready()
      modifies this`ptt, this`mail, this`libcw, this`out, this`os, replyBuffer
      ensures Ready() && View() == Machine.PlayTone(old(View()))
      ensures libcw.gap == old(libcw.gap)
    {
      if libcw.gen.Running? && libcw.tones > 0 {
        libcw := libcw.(tones := libcw.tones - 1);
        if libcw.tones == 1 && libcw.lowCallback {
          LowCallback();
        }
      }
    }

    /** cwdaemon_keyingevent, called by a running generator */
    method KeyingEvent(on: bool)
      requires DeviceReady()
      modifies this`os, this`out
      ensures DeviceReady() && View() == Machine.KeyingEvent(old(View()), on)
    {
      if libcw.keying == Some(Tty) && libcw.gen.Running? && (on ==> libcw.tones > 0) {
        DriveLine(dev.pins.key, on);
      }
    }

    method PlayTick(tick: Tick)
      requires Ready()
      modifies this`ptt, this`mail, this`libcw, this`out, this`os, replyBuffer
      ensures Ready() && View() == Machine.PlayTick(old(View()), tick)
      ensures libcw.gap == old(libcw.gap)
    {
      hide Machine.PlayTone, Machine.KeyingEvent;
      match tick
      case Tone => PlayTone();
      case Mark(on) => KeyingEvent(on);
    }

    /** libcw's thread runs between two commands of the player. */
    method PlayTicks(ticks: seq<Tick>)
      requires Ready()
      modifies this`ptt, this`mail, this`libcw, this`out, this`os, replyBuffer
      ensures Ready() && View() == Machine.PlayTicks(old(View()), ticks)
      ensures libcw.gap == old(libcw.gap)
    {
      hide Machine.PlayTick, ReplyInv;
      for k := 0 to |ticks|
        invariant Ready() && libcw.gap == old(libcw.gap)
        invariant Machine.PlayTicks(View(), ticks[k..]) == Machine.PlayTicks(old(View()), ticks)
      {
        assert ticks[k..][1..] == ticks[k + 1..];
        PlayTick(ticks[k]);
      }
    }

    // ---------- the player: one command and what libcw does before the next ----------

    method DoSpeed(wpm: int, slot: Slot)
      requires Valid() && DeviceReady() && ReplyInv(View())
      requires CW.speedMin <= wpm <= CW.speedMax
      modifies this`current, this`ptt, this`mail, this`libcw, this`out, this`os, replyBuffer
      ensures Ready() && View() == ExecOne(old(View()), Player.Speed(wpm), slot)
      ensures libcw.gap == old(libcw.gap) && current == old(current).(speed := wpm)
    {
      current := current.(speed := wpm);
      Call(SetSpeed(wpm));
      PlayTicks(slot.ticks);
    }

    method DoGap(dots: int, slot: Slot)
      requires Ready()
      modifies this`ptt, this`mail, this`libcw, this`out, this`os, replyBuffer
      ensures Ready() && View() == ExecOne(old(View()), Player.Gap(dots), slot)
      ensures libcw.gap == dots
    {
      Call(SetGap(dots));
      PlayTicks(slot.ticks);
    }

    method DoPttOn(slot: Slot)
      requires Ready()
      modifies this`ptt, this`mail, this`libcw, this`out, this`os, replyBuffer
      ensures Ready() && View() == ExecOne(old(View()), Player.PttOn, slot)
      ensures libcw.gap == old(libcw.gap)
    {
      SetPttOn();
      PlayTicks(slot.ticks);
    }

    method DoSend(c: char, slot: Slot)
      requires Ready()
      modifies this`ptt, this`mail, this`libcw, this`out, this`os, replyBuffer
      ensures Ready() && View() == ExecOne(old(View()), Player.Send(c), slot)
      ensures libcw.gap == old(libcw.gap)
    {
      Call(SendCharacter(c, slot.tones));
      PlayTicks(slot.ticks);
    }

    method DoRewrite(x: nat, slot: Slot)
      requires Ready() && x < |CStr(requestQueue[..])|
      modifies this`ptt, this`mail, this`libcw, this`out, this`os, replyBuffer, requestQueue
      ensures Ready() && View() == ExecOne(old(View()), Player.Rewrite(x), slot)
      ensures libcw.gap == old(libcw.gap) && requestQueue[..] == old(requestQueue[..])[x := '+']
    {
      CStrRewritten(requestQueue[..], x, '+');
      var n := Strlen(requestQueue);
      requestQueue[x] := '+';
      assert requestQueue[..] == old(requestQueue[..])[x := '+'];
      assert requestQueue[..][n] == NUL;
      PlayTicks(slot.ticks);
    }

    method DoCut(x: nat, slot: Slot)
      requires Ready() && x <= |CStr(requestQueue[..])|
      modifies this`ptt, this`mail, this`libcw, this`out, this`os, replyBuffer, requestQueue
      ensures Ready() && View() == ExecOne(old(View()), Player.Cut(x), slot)
      ensures libcw.gap == old(libcw.gap) && requestQueue[..] == old(requestQueue[..])[x := NUL]
    {
      hide CStr, Machine.PlayTicks;
      CutQueue(x);
      PlayTicks(slot.ticks);
    }

    method CutQueue(x: nat)
      requires Valid() && x <= |CStr(requestQueue[..])|
      modifies requestQueue
      ensures Valid() && requestQueue[..] == old(requestQueue[..])[x := NUL]
      ensures CStr(replyBuffer[..]) == old(CStr(replyBuffer[..]))
      ensures var was := old(CStr(requestQueue[..]));
        CStr(requestQueue[..]) == if x < |was| then was[..x] else was
    {
      CStrCut(requestQueue[..], x);
      assert x == |CStr(requestQueue[..])| ==> CStr(requestQueue[..])[..x] == CStr(requestQueue[..]);
      requestQueue[x] := NUL;
      assert requestQueue[..] == old(requestQueue[..])[x := NUL];
      assert requestQueue[..][x] == NUL;
    }

    method DoReply(n: nat, slot: Slot)
      requires Ready() && n + 2 <= REPLY_SIZE_MAX && requestQueue[..n] == CStr(requestQueue[..])
      modifies this`ptt, this`replyAddress, this`mail, this`libcw, this`out, this`os, replyBuffer
      ensures Ready() && View() == ExecOne(old(View()), Player.Reply(old(CStr(requestQueue[..]))), slot)
      ensures libcw.gap == old(libcw.gap)
    {
      assert requestQueue[0..0 + n] == requestQueue[..n];
      PrepareReply(requestQueue, 0, n);
      PlayTicks(slot.ticks);
    }

    // ---------- the player: one item of the text ----------

    /** The queue holds `text`, whose first `x` characters have been played. */
    ghost predicate Playing(text: string, x: nat)
      reads this, requestQueue
    {
      && x <= |text| <= REQUEST_SIZE_MAX < requestQueue.Length && NUL !in text
      && requestQueue[..|text| + 1] == Player.Rewritten(text[..x]) + text[x..] + [NUL]
    }

    lemma PlayingMeans(text: string, x: nat)
      requires Playing(text, x)
      ensures requestQueue[x] == (if x < |text| then text[x] else NUL)
      ensures CStr(requestQueue[..]) == Player.Rewritten(text[..x]) + text[x..]
    {
      var q := Player.Rewritten(text[..x]) + text[x..];
      assert requestQueue[..|text| + 1][x] == (q + [NUL])[x];
      assert requestQueue[..][|text|] == requestQueue[..|text| + 1][|text|] == NUL;
      assert requestQueue[..][..|text|] == requestQueue[..|text| + 1][..|text|] == q;
      assert forall k :: 0 <= k < |q| ==> q[k] != NUL by {
        assert forall k :: 0 <= k < |q| ==> q[k] == Player.KeyedAs(text[k]) || q[k] == text[k];
      }
      CStrIs(requestQueue[..], |text|);
    }

    lemma PlayingAhead(text: string, x: nat)
      requires Playing(text, x)
      ensures |text| <= REQUEST_SIZE_MAX < requestQueue.Length && NUL !in text
      ensures forall i :: x <= i <= |text| ==> requestQueue[i] == if i < |text| then text[i] else NUL
    {
      assert forall i :: x <= i <= |text| ==> requestQueue[i] == requestQueue[..|text| + 1][i];
    }

    /** The inner loop over `+` and `-`. The sum stays within a C int. */
    method SumSigns(ghost text: string, x: nat) returns (y: nat)
      requires Playing(text, x) && x < |text|
      requires CW.speedMin <= current.speed <= CW.speedMax
      modifies this`current
      ensures y == Player.RunEnd(text, x)
      ensures current == old(current).(speed := Player.AfterRun(old(current.speed), text[x..y]))
    {
      hide ReplyInv, CStr, Player.AfterRun, Playing;
      y := x;
      PlayingAhead(text, x);
      Player.NoRun(current.speed, text, x);
      while Player.IsSign(requestQueue[y])
        invariant x <= y <= |text| && requestQueue[..] == old(requestQueue[..])
        invariant Player.RunEnd(text, y) == Player.RunEnd(text, x)
        invariant current == old(current).(speed := Player.AfterRun(old(current.speed), text[x..y]))
        invariant -0x8000_0000 <= current.speed <= 0x7FFF_FFFF
        decreases |text| - y
      {
        Player.LongerRun(old(current.speed), text, x, y);
        Player.RunCannotOverflow(old(current.speed), text[x..y + 1]);
        current := current.(speed := current.speed + (if requestQueue[y] == '+' then 2 else -2));
        y := y + 1;
      }
    }

    method PlaySigns(ghost text: string, x: nat, k: nat, schedule: Schedule) returns (y: nat)
      requires Ready() && Playing(text, x) && x < |text| && Player.IsSign(text[x])
      modifies this`current, this`ptt, this`mail, this`libcw, this`out, this`os, replyBuffer
      ensures Ready() && y == Player.RunEnd(text, x)
      ensures Player.Next(text, Player.Cursor(x, old(current.speed), old(libcw.gap)))
        == Player.Cursor(y, current.speed, libcw.gap)
      ensures var c := Player.Cursor(x, old(current.speed), old(libcw.gap));
        View() == Exec(old(View()), Player.Item(text, c), k, schedule)
    {
      y := SumSigns(text, x);
      var wpm := Clamp(CW.speedMin, CW.speedMax, current.speed);
      ExecSingle(old(View()), Player.Speed(wpm), k, schedule);
      assert Perform(View(), Player.Speed(wpm), schedule(k).tones)
        == Perform(old(View()), Player.Speed(wpm), schedule(k).tones);
      DoSpeed(wpm, schedule(k));
    }

    method PlayTilde(ghost text: string, x: nat, k: nat, schedule: Schedule)
      requires Ready() && x < |text| && text[x] == '~'
      modifies this`ptt, this`mail, this`libcw, this`out, this`os, replyBuffer
      ensures Ready() && libcw.gap == 2
      ensures var c := Player.Cursor(x, old(current.speed), old(libcw.gap));
        View() == Exec(old(View()), Player.Item(text, c), k, schedule)
    {
      ExecSingle(old(View()), Player.Gap(2), k, schedule);
      DoGap(2, schedule(k));
    }

    /** The caret: cut the text there and prepare what came before it as the reply. */
    method PlayCaret(ghost text: string, x: nat, k: nat, schedule: Schedule)
      requires Ready() && Playing(text, x) && x < |text| && text[x] == '^'
      modifies this`ptt, this`replyAddress, this`mail, this`libcw, this`out, this`os, replyBuffer, requestQueue
      ensures Ready() && libcw.gap == old(libcw.gap) && requestQueue[x] == NUL
      ensures var c := Player.Cursor(x, old(current.speed), old(libcw.gap));
        View() == Exec(old(View()), Player.Item(text, c), k, schedule)
    {
      ghost var prefix := Player.Rewritten(text[..x]);
      PlayingMeans(text, x);
      ExecPair(old(View()), Player.Cut(x), Player.Reply(prefix), k, schedule);
      assert (prefix + text[x..])[..x] == prefix;
      CStrCut(requestQueue[..], x);
      DoCut(x, schedule(k));
      assert requestQueue[..x] == requestQueue[..][..x] == prefix;
      DoReply(x, schedule(k + 1));
    }

    method PttAndSend(c: char, k: nat, schedule: Schedule) returns (j: nat)
      requires Ready()
      modifies this`ptt, this`mail, this`libcw, this`out, this`os, replyBuffer
      ensures Ready() && libcw.gap == old(libcw.gap)
      ensures var cs := [Player.PttOn] + (if c == Player.NOT_KEYABLE then [] else [Player.Send(c)]);
        View() == Exec(old(View()), cs, k, schedule) && j == k + |cs|
    {
      if c == Player.NOT_KEYABLE {
        ExecSingle(View(), Player.PttOn, k, schedule);
        assert [Player.PttOn] + [] == [Player.PttOn];
      } else {
        ExecPair(View(), Player.PttOn, Player.Send(c), k, schedule);
        assert [Player.PttOn] + [Player.Send(c)] == [Player.PttOn, Player.Send(c)];
      }
      DoPttOn(schedule(k));
      j := k + 1;
      if c != Player.NOT_KEYABLE {
        DoSend(c, schedule(j));
        j := j + 1;
      }
    }

    /** PTT on, then the character itself, with `*` rewritten to `+` first; 0xff is not sent. */
    method PlayKeyed(ghost text: string, x: nat, k: nat, schedule: Schedule) returns (j: nat)
      requires Ready() && Playing(text, x) && x < |text| && Player.IsPlain(text[x])
      modifies this`ptt, this`mail, this`libcw, this`out, this`os, replyBuffer, requestQueue
      ensures Ready() && libcw.gap == old(libcw.gap) && Playing(text, x + 1)
      ensures View() == Exec(old(View()), Player.Plain(text[x], x), k, schedule) && j == k + |Player.Plain(text[x], x)|
    {
      PlayingMeans(text, x);
      j := k;
      ghost var send := [Player.PttOn]
        + (if text[x] == Player.NOT_KEYABLE then [] else [Player.Send(Player.KeyedAs(text[x]))]);
      if requestQueue[x] == '*' {
        ExecSplits(View(), [Player.Rewrite(x)], send, k, schedule);
        ExecSingle(View(), Player.Rewrite(x), k, schedule);
        DoRewrite(x, schedule(j));
        j := j + 1;
      }
      PlayingNext(text, x, old(requestQueue[..]));
      assert Player.Plain(text[x], x) == (if text[x] == '*' then [Player.Rewrite(x)] else []) + send;
      j := PttAndSend(requestQueue[x], j, schedule);
    }

    lemma PlayingNext(text: string, x: nat, before: seq<char>)
      requires x < |text| <= REQUEST_SIZE_MAX < |before| == requestQueue.Length && NUL !in text
      requires before[..|text| + 1] == Player.Rewritten(text[..x]) + text[x..] + [NUL]
      requires requestQueue[..] == if text[x] == '*' then before[x := '+'] else before
      ensures Playing(text, x + 1)
    {
      hide Player.Rewritten;
      var n := |text| + 1;
      assert before[x := '+'][..n] == before[..n][x := '+'];
      assert requestQueue[..][..n] == requestQueue[..n];
      Player.RewrittenNext(text, x);
    }

    /** After a character: a gap of 2 is reset, unless a caret comes next, which is stepped over instead. */
    method AfterCharacter(ghost text: string, x: nat, k: nat, schedule: Schedule) returns (y: nat, j: nat)
      requires Ready() && Playing(text, x)
      modifies this`ptt, this`mail, this`libcw, this`out, this`os, replyBuffer
      ensures Ready() && Playing(text, y)
      ensures var skip := old(libcw.gap) == 2 && Player.CaretAt(text, x);
        var cs := if old(libcw.gap) == 2 && !skip then [Player.Gap(0)] else [];
        && View() == Exec(old(View()), cs, k, schedule) && j == k + |cs|
        && y == (if skip then x + 1 else x)
        && libcw.gap == (if old(libcw.gap) == 2 && !skip then 0 else old(libcw.gap))
    {
      PlayingMeans(text, x);
      y, j := x, k;
      if libcw.gap == 2 {
        if requestQueue[x] == '^' {
          SkipCaret(text, x);
          y := x + 1;
        } else {
          ExecSingle(View(), Player.Gap(0), k, schedule);
          DoGap(0, schedule(k));
          j := k + 1;
        }
      }
    }

    method PlayPlain(ghost text: string, x: nat, k: nat, schedule: Schedule) returns (y: nat, j: nat)
      requires Ready() && Playing(text, x) && x < |text| && Player.IsPlain(text[x])
      modifies this`ptt, this`mail, this`libcw, this`out, this`os, replyBuffer, requestQueue
      ensures Ready() && Playing(text, y)
      ensures var c := Player.Cursor(x, current.speed, old(libcw.gap));
        && Player.Next(text, c) == Player.Cursor(y, current.speed, libcw.gap)
        && View() == Exec(old(View()), Player.Item(text, c), k, schedule) && j == k + |Player.Item(text, c)|
    {
      hide Exec, Player.Plain, Playing, ReplyInv, CStr;
      ghost var plain := Player.Plain(text[x], x);
      ghost var tail := if libcw.gap == 2 && !Player.CaretAt(text, x + 1) then [Player.Gap(0)] else [];
      ExecSplits(View(), plain, tail, k, schedule);
      j := PlayKeyed(text, x, k, schedule);
      y, j := AfterCharacter(text, x + 1, j, schedule);
    }

    lemma SkipCaret(text: string, x: nat)
      requires Playing(text, x) && x < |text| && text[x] == '^'
      ensures Playing(text, x + 1)
    {
      assert Player.Rewritten(text[..x]) + text[x..] == Player.Rewritten(text[..x + 1]) + text[x + 1..];
    }

    /** One round of the loop over the text. */
    method PlayItem(ghost text: string, x: nat, k: nat, schedule: Schedule) returns (y: nat, j: nat)
      requires Ready() && Playing(text, x) && x < |text|
      modifies this, replyBuffer, requestQueue
      ensures Ready() && y < requestQueue.Length
      ensures var c := Player.Cursor(x, old(current.speed), old(libcw.gap)); var n := Player.Next(text, c);
        && View() == Exec(old(View()), Player.Item(text, c), k, schedule) && j == k + |Player.Item(text, c)|
        && n.speed == current.speed && n.gap == libcw.gap
        && (if requestQueue[y] == NUL then n.at == |text| else n.at == y && Playing(text, y))
    {
      hide Exec, ReplyInv, CStr;
      PlayingMeans(text, x);
      y, j := x, k;
      if Player.IsSign(requestQueue[x]) {
        y := PlaySigns(text, x, k, schedule);
        j := k + 1;
        PlayingOn(text, x, y);
        PlayingMeans(text, y);
      } else if requestQueue[x] == '~' {
        PlayTilde(text, x, k, schedule);
        y, j := x + 1, k + 1;
        PlayingOn(text, x, y);
        PlayingMeans(text, y);
      } else if requestQueue[x] == '^' {
        PlayCaret(text, x, k, schedule);
        j := k + 2;
      } else {
        y, j := PlayPlain(text, x, k, schedule);
        PlayingMeans(text, y);
      }
    }

    lemma PlayingOn(text: string, x: nat, y: nat)
      requires Playing(text, x) && x <= y <= |text| && '*' !in text[x..y]
      ensures Playing(text, y)
    {
      assert forall i :: x <= i < y ==> text[i] == text[x..y][i - x];
      assert Player.Rewritten(text[..x]) + text[x..] == Player.Rewritten(text[..y]) + text[y..];
    }

    /** What is left of the text, told as the state it will lead to. */
    ghost function Outcome(text: string, c: Player.Cursor, k: nat, schedule: Schedule): State
      requires c.at <= |text|
      reads this, requestQueue, replyBuffer
    {
      Exec(View(), Player.Interp(text, c), k, schedule)
    }

    method PlayRound(ghost text: string, ghost c: Player.Cursor, x: nat, k: nat, schedule: Schedule)
      returns (y: nat, j: nat, ghost n: Player.Cursor)
      requires Ready() && Playing(text, x) && x < |text| && c == Player.Cursor(x, current.speed, libcw.gap)
      modifies this, replyBuffer, requestQueue
      ensures Ready() && y < requestQueue.Length && c.at < n.at <= |text|
      ensures Outcome(text, n, j, schedule) == old(Outcome(text, c, k, schedule))
      ensures n.speed == current.speed && n.gap == libcw.gap
      ensures if requestQueue[y] == NUL then n.at == |text| else n.at == y && Playing(text, y)
    {
      hide Exec, Player.Interp, ReplyInv;
      y, j := PlayItem(text, x, k, schedule);
      n := Player.Next(text, c);
      ItemDone(old(View()), View(), text, c, k, schedule);
    }

    /** The loop of cwdaemon_play_request: the end of the text comes nearer with every item, although a caret does
        not advance. */
    method PlayItems(ghost text: string, first: nat, schedule: Schedule) returns (k: nat)
      requires Ready() && Playing(text, 0)
      modifies this, replyBuffer, requestQueue
      ensures Ready()
      ensures Exec(View(), [Player.Cut(0)], k, schedule)
        == old(Outcome(text, Player.Cursor(0, current.speed, libcw.gap), first, schedule))
    {
      ghost var c := Player.Cursor(0, current.speed, libcw.gap);
      ghost var goal := Outcome(text, c, first, schedule);
      var x: nat := 0;
      k := first;
      PlayingMeans(text, 0);
      while requestQueue[x] != NUL
        invariant Ready() && x < requestQueue.Length && c.at <= |text|
        invariant c.speed == current.speed && c.gap == libcw.gap
        invariant if requestQueue[x] == NUL then c.at == |text| else c.at == x && Playing(text, x)
        invariant Outcome(text, c, k, schedule) == goal
        decreases |text| - c.at
      {
        PlayingMeans(text, x);
        x, k, c := PlayRound(text, c, x, k, schedule);
      }
    }

    /** cwdaemon_play_request */
    method PlayRequest(schedule: Schedule)
      requires Ready() && |CStr(requestQueue[..])| <= REQUEST_SIZE_MAX
      modifies this, replyBuffer, requestQueue
      ensures Ready() && View() == Machine.Play(old(View()), schedule)
    {
      ghost var text := CStr(requestQueue[..]);
      StartsPlaying(text);
      var k := PlayItems(text, 0, schedule);
      ExecSingle(View(), Player.Cut(0), k, schedule);
      DoCut(0, schedule(k));
    }

    lemma StartsPlaying(text: string)
      requires Valid() && text == CStr(requestQueue[..]) && |text| <= REQUEST_SIZE_MAX
      ensures Playing(text, 0)
      ensures text == "" <==> requestQueue[0] == NUL
    {
      assert requestQueue[..|text| + 1] == requestQueue[..][..|text|] + [requestQueue[..][|text|]];
      assert Player.Rewritten(text[..0]) + text[0..] == text;
    }

    // ---------- escaped requests ----------

    method Reset(r: OpenResult)
      requires Ready()
      modifies this, requestQueue
      ensures Valid() && View() == Machine.Reset(old(View()), r)
    {
      hide Machine.ResetAlmostAll;
      ClearQueue();
      ResetAlmostAll(r);
      wordmode := false;
      DevReset();
      ptt := PTT_IDLE;
    }

    /** `request_queue[0] = NUL` */
    method ClearQueue()
      requires Valid()
      modifies requestQueue
      ensures Valid() && View() == old(View()).(queue := "")
    {
      requestQueue[0] := NUL;
      assert requestQueue[..][0] == NUL;
      CStrIs(requestQueue[..], 0);
    }

    method SpeedRequest(payload: string)
      modifies this`current, this`libcw, this`out
      ensures View() == Machine.SpeedRequest(old(View()), payload)
    {
      var v := InRange(payload, CW.speedMin, CW.speedMax);
      if v.Some? {
        current := current.(speed := v.value);
        Call(SetSpeed(v.value));
      }
    }

    method ToneRequest(payload: string)
      modifies this`current, this`libcw, this`out
      ensures View() == Machine.ToneRequest(old(View()), payload)
    {
      var v := InRange(payload, 0, CW.frequencyMax);
      if v.Some? {
        current := current.(tone := v.value);
        if v.value > 0 {
          Call(SetFrequency(v.value));
          Call(SetVolume(current.volume));
        } else {
          Call(SetVolume(0));
        }
      }
    }

    method WeightingRequest(payload: string)
      modifies this`current, this`libcw, this`out
      ensures View() == Machine.WeightingRequest(old(View()), payload)
    {
      var v := InRange(payload, -50, 50);
      if v.Some? {
        current := current.(weighting := v.value);
        Call(SetWeighting(LibcwWeighting(v.value)));
      }
    }

    method VolumeRequest(payload: string)
      modifies this`current, this`libcw, this`out
      ensures View() == Machine.VolumeRequest(old(View()), payload)
    {
      var v := InRange(payload, CW.volumeMin, CW.volumeMax);
      if v.Some? {
        current := current.(volume := v.value);
        Call(SetVolume(v.value));
      }
    }

    method Abort()
      requires Ready()
      modifies this`mail, this`libcw, this`out, this`os, this`ptt, requestQueue
      ensures Valid() && View() == Machine.Abort(old(View()))
    {
      hide Machine.DriveLine, Machine.Call, Machine.SetPttOff, CStr, ReplyInv;
      if !wordmode {
        if ptt.echo {
          assert BREAK[|BREAK| - 2..] == CRLF;
          SendTo(BREAK);
        }
        ClearQueue();
        Call(FlushQueue);
        Call(WaitForQueue);
        if ptt != PTT_IDLE {
          SetPttOff();
        }
        ptt := PTT_IDLE;
      }
    }

    method PttRequest(payload: string)
      requires Ready()
      modifies this`ptt, this`out, this`os
      ensures View() == Machine.PttRequest(old(View()), payload)
    {
      var v := GetLong(payload);
      assert requestQueue[0] == NUL <==> CStr(requestQueue[..]) == "";
      if v.None? {
        return;
      }
      if v.value != 0 {
        if current.delay != 0 {
          SetPttOn();
        }
        ptt := ptt.(manual := true);
      } else if ptt.manual {
        ptt := ptt.(manual := false);
        if requestQueue[0] == NUL && libcw.tones <= 1 {
          SetPttOff();
        } else {
          ptt := ptt.(auto := true);
        }
      }
    }

    method DelayRequest(payload: string)
      requires Ready()
      modifies this`current, this`ptt, this`out, this`os
      ensures View() == Machine.DelayRequest(old(View()), payload)
    {
      var v := ParseDelay(payload);
      if !v.Rejection? {
        current := current.(delay := v.ms);
        if current.delay == 0 {
          SetPttOff();
        }
      }
    }

    method Tune(seconds: nat, tones: nat)
      requires Ready()
      modifies this`ptt, this`libcw, this`out, this`os
      ensures View() == Machine.Tune(old(View()), seconds, tones)
    {
      if seconds > 0 {
        Call(FlushQueue);
        SetPttOn();
        ghost var s := View();
        for i := 0 to seconds
          modifies this`libcw, this`out
          invariant View() == QueueTones(s, 1_000_000, s.current.tone, i)
        {
          Call(QueueTone(1_000_000, current.tone));
        }
        Call(SendCharacter('e', tones));
      }
    }

    method TuneRequest(payload: string, tones: nat)
      requires Ready()
      modifies this`ptt, this`libcw, this`out, this`os
      ensures View() == Machine.TuneRequest(old(View()), payload, tones)
    {
      var v := InRange(payload, 0, TUNE_SECONDS_MAX);
      if v.Some? {
        Tune(v.value, tones);
      }
    }

    method Reopen(system: AudioSystem, env: Env)
      modifies this`current, this`hasAudio, this`libcw, this`out
      ensures View() == Machine.Reopen(old(View()), system, env)
    {
      hide Machine.CloseOutput, Machine.OpenOutput;
      current := current.(system := system);
      CloseOutput();
      var ok := OpenOutput(system, env.open);
      if !ok {
        CloseOutput();
        ok := OpenOutput(NullAudio, env.fallback);
        if ok {
          current := current.(system := NullAudio);
        }
      }
      hasAudio := ok;
    }

    method SoundSystemRequest(payload: string, env: Env)
      modifies this`current, this`hasAudio, this`libcw, this`out
      ensures View() == Machine.SoundSystemRequest(old(View()), payload, env)
    {
      var system := ParseSystem(payload);
      if system.Some? {
        Reopen(system.value, env);
        if hasAudio {
          ConfigureOutput(current);
          Call(RegisterKeying(Some(dev.current)));
        }
      }
    }

    // ---------- devices ----------

    /** close(), of an open descriptor only. */
    method Close(fd: int)
      requires fd in os.open
      modifies this`os
      ensures View() == old(View()).(os := CloseFd(old(os), fd))
    {
      os := CloseFd(os, fd);
    }

    /** free(), of a live string only. */
    method FreeString(id: nat)
      requires id < os.strings && id !in os.freed
      modifies this`os
      ensures View() == old(View()).(os := Free(old(os), id))
    {
      os := Free(os, id);
    }

    method ProbeTty(probe: Probe) returns (fd: int)
      requires FdLedger(os)
      modifies this`os
      ensures View() == Machine.Probed(old(View()), probe)
      ensures fd == if probe.IsTty? then old(os.opens) else -1
    {
      OpenFdKeeps(os, {});
      match probe
      case OpenFails => fd := -1;
      case Rejected =>
        fd := os.opens;
        os := OpenFd(os, {});
        Close(fd);
        fd := -1;
      case IsTty(lines) =>
        fd := os.opens;
        os := OpenFd(os, lines);
    }

    method DevFree()
      requires dev.current.Tty? ==> dev.ttyFd in os.open
      modifies this`os, this`out, this`dev
      ensures View() == Machine.DevFree(old(View()))
    {
      if dev.current.Tty? {
        TtyReset();
        Close(dev.ttyFd);
        dev := dev.(ttyFd := -1);
      }
    }

    method FreeDesc(k: Kind)
      requires NameLedger(os, Owned(dev))
      modifies this`os, this`dev
      ensures View() == Machine.FreeDesc(old(View()), k)
    {
      if k.Tty? {
        if dev.ttyDesc.Some? {
          assert dev.ttyDesc.value.id in Owned(dev);
          FreeString(dev.ttyDesc.value.id);
          dev := dev.(ttyDesc := None);
        }
      } else if dev.nullDesc.Some? {
        assert dev.nullDesc.value.id in Owned(dev);
        FreeString(dev.nullDesc.value.id);
        dev := dev.(nullDesc := None);
      }
    }

    method NameDevice(k: Kind, text: string)
      modifies this`os, this`dev
      ensures View() == Machine.NameDevice(old(View()), k, text)
    {
      var str := Some(Str(os.strings, text));
      os := Strdup(os);
      dev := if k.Tty? then dev.(ttyDesc := str) else dev.(nullDesc := str);
    }

    method Rename(was: Kind, k: Kind, text: string)
      requires NameLedger(os, Owned(dev)) && DescId(dev.ttyDesc) !! DescId(dev.nullDesc)
      modifies this`os, this`dev
      ensures View() == Machine.Renamed(old(View()), was, k, text) && os.open == old(os.open)
    {
      FreeDescKeeps(View(), was);
      FreeDesc(was);
      FreeDesc(k);
      NameDevice(k, text);
    }

    method DevInit(k: Kind, fd: int)
      requires k.Tty? ==> fd in os.open
      modifies this`os, this`out, this`dev
      ensures View() == Machine.DevInit(old(View()), k, fd)
    {
      dev := if k.Tty? then dev.(current := k, ttyFd := fd) else dev.(current := k, nullFd := fd);
      if k.Tty? {
        TtyReset();
      }
    }

    /** Opens what the request names and closes the old device. */
    method Detach(probe: Probe) returns (fd: int)
      requires Valid() && Resources(View()) && alive
      modifies this`os, this`out, this`dev
      ensures View() == Machine.DevFree(Machine.Probed(old(View()), probe))
      ensures NameLedger(os, Owned(dev)) && DescId(dev.ttyDesc) !! DescId(dev.nullDesc)
      ensures fd == (if probe.IsTty? then old(os.opens) else -1) && (probe.IsTty? ==> fd in os.open)
    {
      ProbedKeeps(View(), probe);
      fd := ProbeTty(probe);
      DevFreeKeeps(View());
      DevFree();
    }

    /** cwdaemon_cwdevice_set */
    method CwdeviceSet(name: string, probe: Probe)
      requires Valid() && Resources(View()) && alive
      modifies this`os, this`out, this`dev
      ensures View() == Machine.CwdeviceSet(old(View()), name, probe)
    {
      var was := dev.current;
      var fd := Detach(probe);
      var k := if probe.IsTty? then Tty else NullDevice;
      if k.NullDevice? && name == "null" {
        fd := 0;
      }
      Rename(was, k, name);
      DevInit(k, fd);
    }

    method CwdeviceRequest(payload: string, probe: Probe)
      requires Valid() && Resources(View()) && alive
      modifies this`os, this`out, this`dev, this`libcw
      ensures View() == Machine.CwdeviceRequest(old(View()), payload, probe)
    {
      Call(RegisterKeying(None));
      SameResourcesKeeps(old(View()), View());
      if payload != "" {
        CwdeviceSet(payload, probe);
        Call(RegisterKeying(Some(dev.current)));
      }
    }

    method Exit()
      requires Valid() && Resources(View()) && alive
      modifies this`os, this`out, this`dev, this`libcw, this`alive
      ensures View() == Machine.Exit(old(View()))
    {
      CloseOutput();
      SameResourcesKeeps(old(View()), View());
      DevFreeKeeps(View());
      DevFree();
      FreeDescKeeps(View(), Tty);
      FreeDesc(Tty);
      FreeDesc(NullDevice);
      alive := false;
    }

    // ---------- receiving ----------

    method WordMode()
      requires Valid()
      modifies this`wordmode, requestQueue
      ensures Valid() && View() == Machine.WordMode(old(View()))
    {
      ClearQueue();
      wordmode := true;
    }

    /** The requests that set one parameter of Morse code or of the sound output. */
    method ParameterRequest(code: char, payload: string, env: Env)
      requires code in {'2', '3', '7', 'f', 'g'}
      modifies this`current, this`hasAudio, this`libcw, this`out
      ensures View() == match code
        case '2' => Machine.SpeedRequest(old(View()), payload)
        case '3' => Machine.ToneRequest(old(View()), payload)
        case '7' => Machine.WeightingRequest(old(View()), payload)
        case 'f' => Machine.SoundSystemRequest(old(View()), payload, env)
        case _ => Machine.VolumeRequest(old(View()), payload)
    {
      match code
      case '2' => SpeedRequest(payload);
      case '3' => ToneRequest(payload);
      case '7' => WeightingRequest(payload);
      case 'f' => SoundSystemRequest(payload, env);
      case _ => VolumeRequest(payload);
    }

    /** cwdaemon_handle_escaped_request */
    method HandleEscaped(request: array<char>, env: Env)
      requires Ready() && Resources(View()) && alive
      requires request != requestQueue && request != replyBuffer
      requires NUL in request[..] && 0 < |CStr(request[..])| <= REQUEST_SIZE_MAX
      modifies this, requestQueue, replyBuffer
      ensures Valid() && View() == Machine.Escaped(old(View()), CStr(request[..]), env)
    {
      hide Machine.Reset, Machine.SpeedRequest, Machine.ToneRequest, Machine.WeightingRequest, Machine.VolumeRequest,
        Machine.Abort, Machine.Exit, Machine.CwdeviceRequest, Machine.PttRequest, Machine.TuneRequest,
        Machine.DelayRequest, Machine.SoundSystemRequest;
      var n := Strlen(request);
      var text := request[..n];
      var code, payload := Code(text), Payload(text);
      match code
      case '0' => Reset(env.open);
      case '2' => ParameterRequest(code, payload, env);
      case '3' => ParameterRequest(code, payload, env);
      case '4' => Abort();
      case '5' => Exit();
      case '6' => WordMode();
      case '7' => ParameterRequest(code, payload, env);
      case '8' => CwdeviceRequest(payload, env.probe);
      case 'a' => PttRequest(payload);
      case 'c' => TuneRequest(payload, env.schedule(0).tones);
      case 'd' => DelayRequest(payload);
      case 'f' => ParameterRequest(code, payload, env);
      case 'g' => ParameterRequest(code, payload, env);
      case 'h' =>
        assert request[1..1 + (n - 1)] == text[1..];
        PrepareReply(request, 1, n - 1);
      case _ =>
    }

    method TextRequest(text: string, schedule: Schedule)
      requires Ready() && View().queue == "" && NUL !in text && |text| <= REQUEST_SIZE_MAX
      modifies this, requestQueue, replyBuffer
      ensures Valid() && View() == Machine.TextRequest(old(View()), text, schedule)
    {
      var n := Strlen(requestQueue);
      if |text| + n <= QUEUE_SIZE - 1 {
        Append(requestQueue, text);
        PlayRequest(schedule);
      }
    }

    /** cwdaemon_receive, with recvfrom() storing at most 256 bytes of the datagram. */
    method Receive(datagram: string, client: Address, env: Env)
      requires Valid() && Inv(View()) && alive
      modifies this, requestQueue, replyBuffer
      ensures Valid() && View() == Machine.Receive(old(View()), datagram, client, env)
    {
      requestAddress := client;
      AddressIsReady(old(View()));
      hide CStr, TrimEnd, Stored, Machine.TextRequest, Machine.Escaped, ReplyInv, Inv;
      var request, n := RecvFrom(datagram);
      ghost var b := TrimEnd(Stored(datagram));
      assert n == |b| && (n > 0 ==> request[0] == b[0]);
      if n > 0 {
        Dispatch(request, env);
      }
    }

    lemma AddressIsReady(was: State)
      requires Valid() && Inv(was) && was.alive && View() == was.(requestAddress := requestAddress)
      ensures Ready() && Inv(View()) && alive
    {
      hide CStr;
      SameResourcesKeeps(was, View());
      InvIsReady();
    }

    method Dispatch(request: array<char>, env: Env)
      requires Ready() && Inv(View()) && alive
      requires request != requestQueue && request != replyBuffer
      requires NUL in request[..] && |CStr(request[..])| <= REQUEST_SIZE_MAX
      modifies this, requestQueue, replyBuffer
      ensures Valid()
      ensures View() == if request[0] != ESC then Machine.TextRequest(old(View()), CStr(request[..]), env.schedule)
                        else Machine.Escaped(old(View()), CStr(request[..]), env)
    {
      if request[0] != ESC {
        var m := Strlen(request);
        TextRequest(request[..m], env.schedule);
      } else {
        assert CStr(request[..]) != "";
        HandleEscaped(request, env);
      }
    }

    // ---------- events and start ----------

    /** Whatever happens, the daemon takes the step of the machine and stays in a safe state. */
    method Handle(e: Event)
      requires Valid() && Inv(View())
      modifies this, requestQueue, replyBuffer
      ensures Valid() && Inv(View()) && View() == Step(old(View()), e)
    {
      hide Machine.Receive, Machine.PlayTick;
      StepKeeps(View(), e);
      out, mail := [], [];
      SameResourcesKeeps(old(View()), View());
      if alive {
        InvIsReady();
        match e
        case Datagram(bytes, client, env) => Receive(bytes, client, env);
        case Thread(tick) => PlayTick(tick);
      }
    }

    /** Static initialisers, cwdaemon_cwdevices_init and cwdaemon_cwdevice_init. */
    constructor (defaults: Params)
      ensures Valid() && fresh(requestQueue) && fresh(replyBuffer) && View() == Boot(defaults)
    {
      this.defaults := defaults;
      current, hasAudio, wordmode := COMPILED_IN, false, false;
      requestQueue := new char[QUEUE_SIZE](_ => NUL);
      replyBuffer := new char[REPLY_SIZE_MAX + 1](_ => NUL);
      ptt, requestAddress, replyAddress := PTT_IDLE, 0, 0;
      libcw := Libcw(NoGenerator, 0, 0, 0, 0, 0, false, None, 0);
      dev := Devices(NullDevice, 0, 0, Some(Str(0, "ttyS0")), Some(Str(1, "null")), DEFAULT_PINS);
      os := Os(0, map[], [], 2, []);
      out, mail, alive := [], [], true;
      new;
      assert requestQueue[..][0] == NUL && replyBuffer[..][0] == NUL;
      CStrIs(requestQueue[..], 0);
      CStrIs(replyBuffer[..], 0);
    }

    /** One argument of the command line; `false` is exit(EXIT_FAILURE). */
    method Argue(a: Argument) returns (ok: bool)
      requires Valid() && Booting(View())
      modifies this`os, this`out, this`dev
      ensures ok == Machine.Argue(old(View()), a).Some?
      ensures ok ==> View() == Machine.Argue(old(View()), a).value && Booting(View())
    {
      if Machine.Argue(View(), a).Some? {
        ArgueKeeps(View(), a);
      }
      assert dev.current.Tty? ==> os.open.Keys == {dev.ttyFd};
      match a
      case Device(name, probe) =>
        ok := name != "";
        if ok {
          CwdeviceSet(name, probe);
        }
      case DriverOption(text) =>
        ok := dev.current.Tty?;
        if ok {
          ok := OptParse(text);
        }
    }

    /** ttys_optparse on the selected device. */
    method OptParse(option: string) returns (ok: bool)
      requires Valid() && dev.current.Tty? && dev.ttyFd in os.open
      modifies this`os, this`out, this`dev
      ensures ok == Machine.Argue(old(View()), DriverOption(option)).Some?
      ensures ok ==> View() == Machine.Argue(old(View()), DriverOption(option)).value
    {
      var choice := DriverOptions.OptParse(option);
      ok := !choice.Refused?;
      match choice
      case Key(line) =>
        dev := dev.(pins := dev.pins.(key := line));
        DriveLine(line, false);
      case Ptt(line) =>
        dev := dev.(pins := dev.pins.(ptt := line));
        DriveLine(line, false);
      case Refused =>
    }

    /** The rest of main() up to its loop; `false` is exit(EXIT_FAILURE). */
    method Start(bind: Address, r: OpenResult) returns (ok: bool)
      requires Valid() && Booting(View())
      modifies this, requestQueue
      ensures Valid() && ok == Machine.Start(old(View()), bind, r).Some?
      ensures ok ==> View() == Machine.Start(old(View()), bind, r).value && Inv(View())
    {
      hide Machine.Start, Inv, Booting, CStr;
      if Machine.Start(View(), bind, r).Some? {
        StartKeeps(View(), bind, r);
      }
      ok := StartUp(bind, r);
    }

    method StartUp(bind: Address, r: OpenResult) returns (ok: bool)
      requires Valid()
      modifies this, requestQueue
      ensures Valid() && ok == Machine.Start(old(View()), bind, r).Some?
      ensures ok ==> View() == Machine.Start(old(View()), bind, r).value
    {
      hide Machine.ResetAlmostAll, CStr, OptValidate;
      ok := !(dev.current.Tty? && !OptValidate(dev.pins));
      if ok {
        requestAddress := bind;
        ResetAlmostAll(r);
        ok := hasAudio;
        ClearQueue();
      }
    }
  }
}
