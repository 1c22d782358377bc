/** The promises of the daemon over whole runs, spelled out: `Reached` is any state of any run from any command
    line, with callbacks at any point. */
module Guarantees {
  import opened Basics
  import opened DriverOptions
  import opened World
  import opened Machine
  import opened Safety
  import opened PttRelease

  /** No request ever finds another one in the queue, so the "queue full" branch is dead and the queue never
      holds more than the 256 bytes of one request. */
  lemma QueueIsEmptyOnArrival(defaults: Params, args: seq<Argument>, bind: Address, r: OpenResult, es: seq<Event>,
                              text: string)
    requires InRangeParams(defaults) && Launch(defaults, args, bind, r).Some? && |text| <= 256
    ensures var s := Reached(defaults, args, bind, r, es);
      s.queue == "" && |s.queue + text| <= 256 && |text| + |s.queue| <= 4000 - 1
  {
    EveryRunIsSafe(defaults, args, bind, r, es);
  }

  /** The PTT pin of a daemon with validated pins is raised only while automatic PTT is on and the delay is
      between 1 and 50 ms. */
  lemma PttPinNeedsAutoAndDelay(defaults: Params, args: seq<Argument>, bind: Address, r: OpenResult, es: seq<Event>)
    requires InRangeParams(defaults) && Launch(defaults, args, bind, r).Some?
    ensures var s := Reached(defaults, args, bind, r, es);
      && 0 <= s.current.delay <= 50
      && (OptValidate(s.dev.pins) && PttPinOn(s) ==> s.ptt.auto && s.current.delay > 0)
  {
    EveryRunIsSafe(defaults, args, bind, r, es);
  }

  /** While the sound output is open, libcw runs with the daemon's parameters. */
  lemma LibcwMirrorsDaemon(defaults: Params, args: seq<Argument>, bind: Address, r: OpenResult, es: seq<Event>)
    requires InRangeParams(defaults) && Launch(defaults, args, bind, r).Some?
    requires Reached(defaults, args, bind, r, es).alive && Reached(defaults, args, bind, r, es).hasAudio
    ensures var s := Reached(defaults, args, bind, r, es);
      && s.libcw.gen == Running(s.current.system)
      && s.libcw.speed == s.current.speed && CW.speedMin <= s.current.speed <= CW.speedMax
      && s.libcw.weighting == LibcwWeighting(s.current.weighting) && 20 <= s.libcw.weighting <= 80
      && (s.libcw.volume == s.current.volume || (s.libcw.volume == 0 && s.current.tone == 0))
      && (s.current.tone != 0 ==> s.libcw.frequency == s.current.tone)
  {
    EveryRunIsSafe(defaults, args, bind, r, es);
  }

  /** A pending reply has at most 255 characters, so appending CRLF to it never truncates. */
  lemma PendingReplyFits(defaults: Params, args: seq<Argument>, bind: Address, r: OpenResult, es: seq<Event>)
    requires InRangeParams(defaults) && Launch(defaults, args, bind, r).Some?
    requires Reached(defaults, args, bind, r, es).ptt.echo
    ensures var s := Reached(defaults, args, bind, r, es);
      |s.reply| <= 255 && '\0' !in s.reply && BoundedAppend(s.reply, "\r\n", 257) == s.reply + "\r\n"
  {
    EveryRunIsSafe(defaults, args, bind, r, es);
  }

  /** No line has been raised. */
  predicate LinesOnlyFall(a: Os, b: Os) {
    b == a.(open := b.open) && b.open.Keys == a.open.Keys && forall fd :: fd in a.open ==> b.open[fd] <= a.open[fd]
  }

  /** After an ABORT in character mode nothing is left of the message: however long libcw runs on, it can end a mark
      but start none, nothing is sent, and PTT is off. In word mode the request changes nothing. */
  lemma AbortIsFinal(s: State, ticks: seq<Tick>)
    requires Inv(s) && s.alive
    ensures s.wordmode ==> Abort(s) == s
    ensures !s.wordmode ==> var a, t := Abort(s), PlayTicks(Abort(s), ticks);
      && t == a.(os := t.os, out := t.out) && LinesOnlyFall(a.os, t.os)
      && t.ptt == PTT_IDLE && (OptValidate(s.dev.pins) ==> !PttPinOn(t))
  {
    if !s.wordmode {
      var a := Abort(s);
      AbortKeeps(s);
      assert a.libcw.tones == 0 && a.ptt == PTT_IDLE && a.dev == s.dev;
      hide Abort, PlayTicks, PttPinOn;
      PlayTicksKeeps(a, ticks);
      EmptyQueueIsQuiet(a, ticks);
      IdleMeansPinOff(PlayTicks(a, ticks));
    }
  }

  lemma OneQuietTick(s: State, tick: Tick)
    requires s.libcw.tones == 0
    ensures var t := PlayTick(s, tick); t == s.(os := t.os, out := t.out) && LinesOnlyFall(s.os, t.os)
  {
  }

  lemma {:induction false} EmptyQueueIsQuiet(s: State, ticks: seq<Tick>)
    requires s.libcw.tones == 0
    ensures var t := PlayTicks(s, ticks); t == s.(os := t.os, out := t.out) && LinesOnlyFall(s.os, t.os)
    decreases |ticks|
  {
    hide PlayTick;
    if ticks != [] {
      OneQuietTick(s, ticks[0]);
      EmptyQueueIsQuiet(PlayTick(s, ticks[0]), ticks[1..]);
    }
  }

  /** Tuning queues one tone a second and a last character, and PTT comes off when they have been played. */
  lemma TuneIsReleased(s: State, seconds: nat, tones: nat)
    requires Inv(s) && s.alive && s.hasAudio && !s.ptt.manual
    requires 0 < seconds <= TUNE_SECONDS_MAX && seconds + tones >= 2
    ensures var t := Tune(s, seconds, tones);
      && t.libcw.tones == seconds + tones
      && (s.current.delay > 0 ==> t.ptt.auto)
      && ComesOff(t)
  {
    hide ComesOff;
    TunedSafely(s, seconds, tones);
    TunedTones(s, seconds, tones);
    hide Tune, Inv;
    ReleasedExactly(Tune(s, seconds, tones));
  }

  lemma TunedSafely(s: State, seconds: nat, tones: nat)
    requires Inv(s) && s.alive
    ensures Inv(Tune(s, seconds, tones))
  {
    hide SetPttOn, QueueTones, Behaviour;
    if seconds > 0 {
      var s1 := Call(s, FlushQueue);
      var s2 := SetPttOn(s1);
      FlushKeeps(s);
      SetPttOnKeeps(s1);
      QueueTonesKeeps(s2, s2.current.tone, seconds);
      CharacterKeeps(QueueTones(s2, 1_000_000, s2.current.tone, seconds), tones);
      SameResourcesKeeps(s, Tune(s, seconds, tones));
    }
  }

  lemma FlushKeeps(s: State)
    requires Behaviour(s)
    ensures Behaviour(Call(s, FlushQueue))
  {
  }

  lemma CharacterKeeps(s: State, tones: nat)
    requires Behaviour(s)
    ensures Behaviour(Call(s, SendCharacter('e', tones)))
  {
  }

  lemma TunedTones(s: State, seconds: nat, tones: nat)
    requires Inv(s) && s.alive && s.hasAudio && seconds > 0
    ensures var t := Tune(s, seconds, tones);
      && t.libcw.tones == seconds + tones && t.alive && t.hasAudio && t.ptt == s.ptt.(auto := t.ptt.auto)
      && (s.current.delay > 0 ==> t.ptt.auto)
  {
    hide DriveLine, QueueTones;
    var s2 := SetPttOn(Call(s, FlushQueue));
    assert !s2.libcw.gen.NoGenerator?;
    QueuedTones(s2, s2.current.tone, seconds);
  }

  lemma {:induction false} QueuedTones(s: State, hz: int, n: nat)
    requires !s.libcw.gen.NoGenerator?
    ensures QueueTones(s, 1_000_000, hz, n).libcw == s.libcw.(tones := s.libcw.tones + n)
  {
    if n > 0 {
      QueuedTones(s, hz, n - 1);
    }
  }
}
