/** When PTT comes off after a text request, told from the text and from what libcw's thread does meanwhile. */
module TextRelease {
  import opened Basics
  import opened World
  import opened Machine
  import opened Safety
  import opened PttRelease
  import Player

  // ---------- the last command ----------

  /** The state right after the last command has emptied the queue, before libcw's thread runs on. */
  function Emptied(s: State, text: string, schedule: Schedule): State {
    Perform(After(s, text, |Commands(s, text)| - 1, schedule), Player.Cut(0), 0)
  }

  lemma TextEnds(s: State, text: string, schedule: Schedule)
    requires s.queue == "" && |text| <= REQUEST_SIZE_MAX
    ensures TextRequest(s, text, schedule)
      == PlayTicks(Emptied(s, text, schedule), schedule(|Commands(s, text)| - 1).ticks)
  {
    hide Exec, Player.Interp, TextRequest, PlayTicks;
    var cs := Commands(s, text);
    TextRequestIs(s, text, schedule);
    assert cs[..|cs|] == cs;
    LastIsCut(s, text);
    OneMore(s, text, |cs| - 1, schedule);
  }

  lemma LastIsCut(s: State, text: string)
    ensures Commands(s, text)[|Commands(s, text)| - 1] == Player.Cut(0)
  {
  }

  lemma EmptiedIsSafe(s: State, text: string, schedule: Schedule)
    requires Inv(s) && s.alive && |text| <= REQUEST_SIZE_MAX && NUL !in text
    ensures Inv(Emptied(s, text, schedule)) && Emptied(s, text, schedule).alive
  {
    hide Exec, Player.Interp, Behaviour, Resources, Perform, Sound;
    var cs := Commands(s, text);
    var a := After(s, text, |cs| - 1, schedule);
    InterpIsSound(text, Player.Cursor(0, s.current.speed, s.libcw.gap));
    QueuedKeeps(s, text);
    assert AllSound(cs[..|cs| - 1]);
    ExecKeeps(s.(queue := text), cs[..|cs| - 1], 0, schedule);
    LastCutKeeps(s, a);
  }

  lemma LastCutKeeps(s: State, a: State)
    requires Resources(s) && Behaviour(a) && SameResources(s, a)
    ensures Inv(Perform(a, Player.Cut(0), 0)) && Perform(a, Player.Cut(0), 0).alive == s.alive
  {
    hide Behaviour, Resources;
    PerformKeeps(a, Player.Cut(0), 0);
    SameResourcesKeeps(s, Perform(a, Player.Cut(0), 0));
  }

  // ---------- libcw's thread does not decide whether PTT comes off ----------

  lemma {:induction false} TicksInParts(s: State, a: seq<Tick>, b: seq<Tick>)
    ensures PlayTicks(s, a + b) == PlayTicks(PlayTicks(s, a), b)
    decreases |a|
  {
    hide PlayTick;
    if a == [] {
      assert a + b == b;
    } else {
      assert (a + b)[1..] == a[1..] + b;
      TicksInParts(PlayTick(s, a[0]), a[1..], b);
    }
  }

  lemma TickKeepsInv(s: State, tick: Tick)
    requires Inv(s) && s.alive
    ensures Inv(PlayTick(s, tick)) && PlayTick(s, tick).alive
  {
    hide PlayTick, Behaviour, Resources;
    PlayTickKeeps(s, tick);
    SameResourcesKeeps(s, PlayTick(s, tick));
  }

  lemma IdleStays(s: State, tick: Tick)
    requires s.ptt == PTT_IDLE
    ensures PlayTick(s, tick).ptt == PTT_IDLE
  {
  }

  lemma InvReleases(s: State)
    requires Inv(s) && s.alive && s.hasAudio && !s.ptt.manual && s.libcw.tones >= 2
    ensures Releasing(s)
  {
  }

  lemma OneTickComesOff(s: State, tick: Tick)
    requires Inv(s) && s.alive && ComesOff(s)
    ensures ComesOff(PlayTick(s, tick))
  {
    hide Inv, ComesOff, PlayTick, Releasing;
    TickKeepsInv(s, tick);
    ReleasedExactly(s);
    ReleasedExactly(PlayTick(s, tick));
    if s.ptt == PTT_IDLE {
      IdleStays(s, tick);
    } else {
      InvReleases(s);
      TickReleases(s, tick);
    }
  }

  lemma {:induction false} TicksComeOff(s: State, ticks: seq<Tick>)
    requires Inv(s) && s.alive && ComesOff(s)
    ensures ComesOff(PlayTicks(s, ticks))
    decreases |ticks|
  {
    hide Inv, ComesOff, PlayTick;
    if ticks != [] {
      TickKeepsInv(s, ticks[0]);
      OneTickComesOff(s, ticks[0]);
      TicksComeOff(PlayTick(s, ticks[0]), ticks[1..]);
    }
  }

  /** Once the queue is empty, nothing that libcw's thread does makes PTT come off or stay on. */
  lemma ComesOffStays(s: State, ticks: seq<Tick>)
    requires Inv(s) && s.alive
    ensures ComesOff(PlayTicks(s, ticks)) <==> ComesOff(s)
  {
    hide Inv, PlayTicks;
    if ComesOff(s) {
      TicksComeOff(s, ticks);
    }
    if ComesOff(PlayTicks(s, ticks)) {
      var more :| PlayTicks(PlayTicks(s, ticks), more).ptt == PTT_IDLE;
      TicksInParts(s, ticks, more);
    }
  }

  // ---------- the tones ----------

  /** The tones that the characters of a text make. */
  function TonesMade(cs: seq<Player.Command>, k: nat, schedule: Schedule): nat {
    if cs == [] then 0 else (if cs[0].Send? then schedule(k).tones else 0) + TonesMade(cs[1..], k + 1, schedule)
  }

  /** The tones that libcw's thread finished. */
  function Finished(s: State, ticks: seq<Tick>): nat
    decreases |ticks|
  {
    if ticks == [] then 0
    else
      var one := if ticks[0].Tone? && s.libcw.gen.Running? && s.libcw.tones > 0 then 1 else 0;
      one + Finished(PlayTick(s, ticks[0]), ticks[1..])
  }

  /** A callback is due that will send a reply under automatic PTT, and so queue two tones. */
  predicate RepliesUnderAuto(s: State) { CallbackDue(s) && s.ptt.auto && s.ptt.echo && !s.ptt.manual }

  /** How many replies were sent under automatic PTT. */
  function Replies(s: State, ticks: seq<Tick>): nat
    decreases |ticks|
  {
    if ticks == [] then 0
    else (if ticks[0].Tone? && RepliesUnderAuto(s) then 1 else 0) + Replies(PlayTick(s, ticks[0]), ticks[1..])
  }

  function FinishedIn(s: State, cs: seq<Player.Command>, k: nat, schedule: Schedule): nat
    decreases |cs|
  {
    if cs == [] then 0
    else
      Finished(Perform(s, cs[0], schedule(k).tones), schedule(k).ticks)
        + FinishedIn(ExecOne(s, cs[0], schedule(k)), cs[1..], k + 1, schedule)
  }

  function RepliesIn(s: State, cs: seq<Player.Command>, k: nat, schedule: Schedule): nat
    decreases |cs|
  {
    if cs == [] then 0
    else
      Replies(Perform(s, cs[0], schedule(k).tones), schedule(k).ticks)
        + RepliesIn(ExecOne(s, cs[0], schedule(k)), cs[1..], k + 1, schedule)
  }

  lemma TickBook(s: State, tick: Tick)
    requires s.libcw.gen.Running?
    ensures var t := PlayTick(s, tick);
      && t.libcw.gen == s.libcw.gen
      && t.libcw.tones + (if tick.Tone? && s.libcw.tones > 0 then 1 else 0)
        == s.libcw.tones + (if tick.Tone? && RepliesUnderAuto(s) then 2 else 0)
  {
    hide DriveLine;
  }

  lemma {:induction false} TicksBook(s: State, ticks: seq<Tick>)
    requires s.libcw.gen.Running?
    ensures var t := PlayTicks(s, ticks);
      && t.libcw.gen == s.libcw.gen
      && t.libcw.tones + Finished(s, ticks) == s.libcw.tones + 2 * Replies(s, ticks)
    decreases |ticks|
  {
    hide PlayTick, RepliesUnderAuto;
    if ticks != [] {
      TickBook(s, ticks[0]);
      TicksBook(PlayTick(s, ticks[0]), ticks[1..]);
    }
  }

  lemma PerformBook(s: State, c: Player.Command, tones: nat)
    requires s.libcw.gen.Running?
    ensures var p := Perform(s, c, tones);
      p.libcw.gen == s.libcw.gen && p.libcw.tones == s.libcw.tones + (if c.Send? then tones else 0)
  {
    hide DriveLine;
  }

  /** The tones in the queue are those made, less those finished, and two more for every reply sent under
      automatic PTT. */
  lemma {:induction false} ExecBook(s: State, cs: seq<Player.Command>, k: nat, schedule: Schedule)
    requires s.libcw.gen.Running?
    ensures var t := Exec(s, cs, k, schedule);
      && t.libcw.gen == s.libcw.gen
      && t.libcw.tones + FinishedIn(s, cs, k, schedule)
        == s.libcw.tones + TonesMade(cs, k, schedule) + 2 * RepliesIn(s, cs, k, schedule)
    decreases |cs|
  {
    hide Perform, PlayTicks, Finished, Replies;
    if cs != [] {
      PerformBook(s, cs[0], schedule(k).tones);
      TicksBook(Perform(s, cs[0], schedule(k).tones), schedule(k).ticks);
      ExecBook(ExecOne(s, cs[0], schedule(k)), cs[1..], k + 1, schedule);
    }
  }

  // ---------- the flags ----------

  /** Since a quiet state: no manual PTT, and a reply is pending exactly if its preparation is the last letter. */
  predicate QuietFlags(s: State) {
    !s.ptt.manual && (s.ptt.echo <==> s.mail != [] && s.mail[|s.mail| - 1].Prepared?)
  }

  lemma TickKeepsFlags(s: State, tick: Tick)
    requires QuietFlags(s)
    ensures QuietFlags(PlayTick(s, tick)) && (!s.ptt.auto ==> !PlayTick(s, tick).ptt.auto)
  {
    hide DriveLine;
  }

  lemma {:induction false} TicksKeepFlags(s: State, ticks: seq<Tick>)
    requires QuietFlags(s)
    ensures QuietFlags(PlayTicks(s, ticks)) && (!s.ptt.auto ==> !PlayTicks(s, ticks).ptt.auto)
    decreases |ticks|
  {
    hide PlayTick, QuietFlags;
    if ticks != [] {
      TickKeepsFlags(s, ticks[0]);
      TicksKeepFlags(PlayTick(s, ticks[0]), ticks[1..]);
    }
  }

  lemma PerformKeepsFlags(s: State, c: Player.Command, tones: nat)
    requires QuietFlags(s)
    ensures QuietFlags(Perform(s, c, tones)) && (!s.ptt.auto && !c.PttOn? ==> !Perform(s, c, tones).ptt.auto)
    ensures s.current.delay == 0 && !s.ptt.auto ==> !Perform(s, c, tones).ptt.auto
    ensures Perform(s, c, tones).current.delay == s.current.delay
  {
    hide DriveLine;
  }

  lemma TicksKeepDelay(s: State, ticks: seq<Tick>)
    ensures PlayTicks(s, ticks).current == s.current
    decreases |ticks|
  {
    if ticks != [] {
      TicksKeepDelay(PlayTick(s, ticks[0]), ticks[1..]);
    }
  }

  lemma {:induction false} ExecKeepsFlags(s: State, cs: seq<Player.Command>, k: nat, schedule: Schedule)
    requires QuietFlags(s)
    ensures var t := Exec(s, cs, k, schedule);
      QuietFlags(t) && (!s.ptt.auto && (s.current.delay == 0 || Player.PttOn !in cs) ==> !t.ptt.auto)
    decreases |cs|
  {
    hide Perform, PlayTicks, QuietFlags;
    if cs != [] {
      PerformKeepsFlags(s, cs[0], schedule(k).tones);
      TicksKeepFlags(Perform(s, cs[0], schedule(k).tones), schedule(k).ticks);
      TicksKeepDelay(Perform(s, cs[0], schedule(k).tones), schedule(k).ticks);
      ExecKeepsFlags(ExecOne(s, cs[0], schedule(k)), cs[1..], k + 1, schedule);
    }
  }

  /** A text that asks for PTT. */
  predicate AsksForPtt(s: State, text: string) {
    s.current.delay != 0 && Player.HasPlain(text, 0, Player.Stop(text, 0, s.libcw.gap))
  }

  lemma AsksMeansPttOn(s: State, text: string)
    ensures AsksForPtt(s, text) <==> s.current.delay != 0 && Player.PttOn in Commands(s, text)
    ensures var cs := Commands(s, text); Player.PttOn in cs <==> Player.PttOn in cs[..|cs| - 1]
  {
    hide Player.Interp, Player.HasPlain, Player.Armed, Player.Swallowed;
    var c := Player.Cursor(0, s.current.speed, s.libcw.gap);
    Player.FirstArrival(text, c);
    Player.PttOnExactly(text, c, s.libcw.gap);
    LastIsCut(s, text);
  }

  lemma AutoWhenAsked(s: State, text: string, schedule: Schedule)
    requires AsksForPtt(s, text)
    ensures Emptied(s, text, schedule).ptt.auto
  {
    hide Exec, Player.Interp, AsksForPtt, AllHarmless;
    var cs := Commands(s, text);
    AsksMeansPttOn(s, text);
    MessageIsHarmless(text, Player.Cursor(0, s.current.speed, s.libcw.gap));
    ExecHolds(s.(queue := text), cs[..|cs| - 1], 0, schedule);
  }

  lemma FlagsWhenEmptied(s: State, text: string, schedule: Schedule)
    requires s.ptt == PTT_IDLE && s.mail == []
    ensures var u := Emptied(s, text, schedule);
      QuietFlags(u) && (u.ptt.auto <==> AsksForPtt(s, text))
  {
    hide Exec, Player.Interp, AsksForPtt;
    var cs := Commands(s, text);
    AsksMeansPttOn(s, text);
    ExecKeepsFlags(s.(queue := text), cs[..|cs| - 1], 0, schedule);
    if AsksForPtt(s, text) {
      AutoWhenAsked(s, text, schedule);
    }
  }

  // ---------- the condition ----------

  /** For every text in every state in which one can arrive, and whatever libcw's thread does in and after it: PTT
      comes off exactly if it is idle when the player empties the queue, or nobody holds it manually and libcw has
      two tones left at that moment. Callbacks before that moment release nothing. */
  lemma TextReleasedExactly(s: State, text: string, schedule: Schedule)
    requires Inv(s) && s.alive && |text| <= REQUEST_SIZE_MAX && NUL !in text
    ensures var u := Emptied(s, text, schedule);
      ComesOff(TextRequest(s, text, schedule)) <==>
        u.ptt == PTT_IDLE || (u.hasAudio && !u.ptt.manual && u.libcw.tones >= 2)
  {
    assert s.queue == "";
    hide Inv, Emptied, TextRequest, ComesOff, PlayTicks;
    var u := Emptied(s, text, schedule);
    TextEnds(s, text, schedule);
    EmptiedIsSafe(s, text, schedule);
    ComesOffStays(u, schedule(|Commands(s, text)| - 1).ticks);
    ReleasedExactly(u);
  }

  /** The tones at that moment: those queued on arrival and those the text made, less those that libcw finished
      before, and two for every reply it sent under automatic PTT. */
  lemma TonesWhenEmptied(s: State, text: string, schedule: Schedule)
    requires s.libcw.gen.Running?
    ensures var s1, cs := s.(queue := text), Commands(s, text); var before := cs[..|cs| - 1];
      Emptied(s, text, schedule).libcw.tones + FinishedIn(s1, before, 0, schedule)
        == s.libcw.tones + TonesMade(cs, 0, schedule) + 2 * RepliesIn(s1, before, 0, schedule)
  {
    hide Exec, Player.Interp, TonesMade, FinishedIn, RepliesIn;
    var cs := Commands(s, text);
    ExecBook(s.(queue := text), cs[..|cs| - 1], 0, schedule);
    LastIsCut(s, text);
    LastMakesNothing(cs, 0, schedule);
  }

  lemma {:induction false} LastMakesNothing(cs: seq<Player.Command>, k: nat, schedule: Schedule)
    requires cs != [] && !cs[|cs| - 1].Send?
    ensures TonesMade(cs[..|cs| - 1], k, schedule) == TonesMade(cs, k, schedule)
    decreases |cs|
  {
    if |cs| > 1 {
      assert cs[..|cs| - 1][1..] == cs[1..][..|cs| - 2];
      LastMakesNothing(cs[1..], k + 1, schedule);
    } else {
      assert cs[1..] == [];
    }
  }

  /** From a state with PTT idle: PTT comes off after a text exactly if the text asked for no PTT and left no reply
      unsent when the queue was emptied, or two tones were left then. */
  lemma IdleReleasedExactly(s: State, text: string, schedule: Schedule)
    requires Inv(s) && s.alive && s.hasAudio && s.ptt == PTT_IDLE && s.mail == []
    requires |text| <= REQUEST_SIZE_MAX && NUL !in text
    ensures var u := Emptied(s, text, schedule);
      ComesOff(TextRequest(s, text, schedule)) <==>
        || (!AsksForPtt(s, text) && (u.mail == [] || u.mail[|u.mail| - 1].Sent?))
        || u.libcw.tones >= 2
  {
    hide Inv, TextRequest, ComesOff, Emptied, AsksForPtt;
    TextReleasedExactly(s, text, schedule);
    FlagsWhenEmptied(s, text, schedule);
    SoundStays(s, text, schedule);
  }

  lemma SoundStays(s: State, text: string, schedule: Schedule)
    ensures Emptied(s, text, schedule).hasAudio == s.hasAudio
  {
    hide Exec, Player.Interp;
    var cs := Commands(s, text);
    ExecSound(s.(queue := text), cs[..|cs| - 1], 0, schedule);
  }

  lemma {:induction false} TicksSound(s: State, ticks: seq<Tick>)
    ensures PlayTicks(s, ticks).hasAudio == s.hasAudio
    decreases |ticks|
  {
    if ticks != [] {
      assert PlayTick(s, ticks[0]).hasAudio == s.hasAudio;
      hide PlayTick;
      TicksSound(PlayTick(s, ticks[0]), ticks[1..]);
    }
  }

  lemma {:induction false} ExecSound(s: State, cs: seq<Player.Command>, k: nat, schedule: Schedule)
    ensures Exec(s, cs, k, schedule).hasAudio == s.hasAudio
    decreases |cs|
  {
    if cs != [] {
      var p := Perform(s, cs[0], schedule(k).tones);
      assert p.hasAudio == s.hasAudio;
      hide Perform, PlayTicks;
      TicksSound(p, schedule(k).ticks);
      ExecSound(ExecOne(s, cs[0], schedule(k)), cs[1..], k + 1, schedule);
    }
  }

  // ---------- a player that is too slow ----------

  /** The tones still to be finished before libcw falls silent. */
  function Outstanding(s: State): nat { s.libcw.tones + (if s.ptt.echo then 2 else 0) }

  lemma OneToneDrains(s: State)
    requires s.libcw.gen.Running?
    ensures var t := PlayTone(s);
      && t.libcw.gen == s.libcw.gen
      && (if s.libcw.tones == 0 then t == s else Outstanding(t) < Outstanding(s))
  {
    hide DriveLine;
  }

  lemma {:induction false} SilenceDrains(s: State, n: nat)
    requires s.libcw.gen.Running? && Outstanding(s) <= n
    ensures var t := PlayTicks(s, Silence(n)); t.libcw.gen == s.libcw.gen && t.libcw.tones == 0
    decreases n
  {
    hide PlayTone, Outstanding;
    if n > 0 {
      assert Silence(n)[1..] == Silence(n - 1);
      OneToneDrains(s);
      if s.libcw.tones == 0 {
        SilentStays(s, n);
      } else {
        SilenceDrains(PlayTone(s), n - 1);
      }
    } else {
      OutstandingTones(s);
    }
  }

  lemma OutstandingTones(s: State)
    ensures Outstanding(s) >= s.libcw.tones
  {
  }

  lemma {:induction false} SilentStays(s: State, n: nat)
    requires s.libcw.tones == 0
    ensures PlayTicks(s, Silence(n)) == s
    decreases n
  {
    if n > 0 {
      assert Silence(n)[1..] == Silence(n - 1);
      assert PlayTick(s, Tone) == s;
      hide PlayTick;
      SilentStays(s, n - 1);
    }
  }

  /** Every character makes `n` tones, and libcw has finished them before the player goes on. */
  function Eager(n: nat): Schedule { (k: nat) => Slot(n, Silence(n + 2)) }

  lemma {:induction false} EagerExec(s: State, cs: seq<Player.Command>, k: nat, n: nat)
    requires s.libcw.gen.Running? && s.libcw.tones == 0
    ensures var t := Exec(s, cs, k, Eager(n)); t.libcw.gen == s.libcw.gen && t.libcw.tones == 0
    decreases |cs|
  {
    hide Perform, PlayTicks, Silence;
    if cs != [] {
      PerformBook(s, cs[0], n);
      SilenceDrains(Perform(s, cs[0], n), n + 2);
      EagerExec(ExecOne(s, cs[0], Eager(n)(k)), cs[1..], k + 1, n);
    }
  }

  /** The tones of a text are no promise: on the schedule on which libcw is faster than the player, PTT stays on for
      good after every text that asks for it, however many tones each of its characters makes. */
  lemma EagerLibcwLeavesPttOn(s: State, text: string, n: nat)
    requires Inv(s) && s.alive && s.hasAudio && s.libcw.tones == 0
    requires |text| <= REQUEST_SIZE_MAX && NUL !in text && AsksForPtt(s, text)
    ensures !ComesOff(TextRequest(s, text, Eager(n)))
    ensures TonesMade(Commands(s, text), 0, Eager(n)) == n * |Player.Keyed(Commands(s, text))|
  {
    assert s.libcw.gen.Running?;
    hide Inv, TextRequest, ComesOff, Emptied, AsksForPtt, TonesMade, Player.Keyed, Silence, Commands;
    TextReleasedExactly(s, text, Eager(n));
    AutoWhenAsked(s, text, Eager(n));
    EagerEmptied(s, text, n);
    TonesEach(Commands(s, text), 0, Eager(n), n);
  }

  lemma EagerEmptied(s: State, text: string, n: nat)
    requires s.libcw.gen.Running? && s.libcw.tones == 0
    ensures Emptied(s, text, Eager(n)).libcw.tones == 0
  {
    hide Exec, Player.Interp, Eager;
    var cs := Commands(s, text);
    EagerExec(s.(queue := text), cs[..|cs| - 1], 0, n);
  }

  lemma {:induction false} TonesEach(cs: seq<Player.Command>, k: nat, schedule: Schedule, n: nat)
    requires forall i :: schedule(i).tones == n
    ensures TonesMade(cs, k, schedule) == n * |Player.Keyed(cs)|
    decreases |cs|
  {
    if cs != [] {
      TonesEach(cs[1..], k + 1, schedule, n);
      assert n * (1 + |Player.Keyed(cs[1..])|) == n + n * |Player.Keyed(cs[1..])|;
    }
  }

  /** So does a request of the single byte 0xff on every schedule: it turns PTT on and gives libcw nothing to play. */
  lemma StuckPtt(s: State, schedule: Schedule)
    requires Inv(s) && s.alive && s.hasAudio && s.current.delay != 0 && s.libcw.tones == 0
    ensures !ComesOff(TextRequest(s, [255 as char], schedule))
  {
    var text := [255 as char];
    assert s.libcw.gen.Running?;
    hide Inv, TextRequest, ComesOff, Emptied, AsksForPtt, Commands, Player.Keyed;
    TextReleasedExactly(s, text, schedule);
    NothingKeyable(s);
    AutoWhenAsked(s, text, schedule);
    MuteEmptied(s, text, schedule);
  }

  lemma NothingKeyable(s: State)
    requires s.current.delay != 0
    ensures var text := [255 as char]; AsksForPtt(s, text) && Player.Keyed(Commands(s, text)) == ""
  {
    hide Player.Interp, Player.Keyed, Player.Echoed;
    var text := [255 as char];
    assert Player.IsPlain(text[0]);
    assert Player.Stop(text, 0, s.libcw.gap) == 1;
    Player.KeyedAndEchoed(text, s.current.speed, s.libcw.gap);
  }

  lemma MuteEmptied(s: State, text: string, schedule: Schedule)
    requires s.libcw.gen.Running? && s.libcw.tones == 0 && Player.Keyed(Commands(s, text)) == ""
    ensures Emptied(s, text, schedule).libcw.tones == 0
  {
    hide Exec, Player.Interp;
    var cs := Commands(s, text);
    NothingSent(cs);
    MuteExec(s.(queue := text), cs[..|cs| - 1], 0, schedule);
  }

  lemma {:induction false} NothingSent(cs: seq<Player.Command>)
    requires Player.Keyed(cs) == ""
    ensures forall c :: c in cs ==> !c.Send?
  {
    if cs != [] {
      NothingSent(cs[1..]);
    }
  }

  lemma {:induction false} MuteTicks(s: State, ticks: seq<Tick>)
    requires s.libcw.tones == 0
    ensures PlayTicks(s, ticks).libcw.tones == 0
    decreases |ticks|
  {
    if ticks != [] {
      assert PlayTick(s, ticks[0]).libcw.tones == 0;
      hide PlayTick;
      MuteTicks(PlayTick(s, ticks[0]), ticks[1..]);
    }
  }

  lemma {:induction false} MuteExec(s: State, cs: seq<Player.Command>, k: nat, schedule: Schedule)
    requires s.libcw.gen.Running? && s.libcw.tones == 0 && forall c :: c in cs ==> !c.Send?
    ensures Exec(s, cs, k, schedule).libcw.tones == 0
    decreases |cs|
  {
    hide Perform, PlayTicks;
    if cs != [] {
      PerformBook(s, cs[0], schedule(k).tones);
      MuteTicks(Perform(s, cs[0], schedule(k).tones), schedule(k).ticks);
      TicksBook(Perform(s, cs[0], schedule(k).tones), schedule(k).ticks);
      MuteExec(ExecOne(s, cs[0], schedule(k)), cs[1..], k + 1, schedule);
    }
  }

  // ---------- a text request as one atomic step ----------

  lemma AtomicOne(s: State, c: Player.Command, slot: Slot)
    requires s.libcw.gen.Running? && slot.ticks == []
    ensures var t := ExecOne(s, c, slot);
      && t.ptt == s.ptt.(auto := s.ptt.auto || (s.current.delay != 0 && c.PttOn?), echo := s.ptt.echo || c.Reply?)
      && t.libcw.tones == s.libcw.tones + (if c.Send? then slot.tones else 0)
      && t.libcw.gen == s.libcw.gen && t.current.delay == s.current.delay
      && t.hasAudio == s.hasAudio && t.alive == s.alive
  {
    hide DriveLine;
    var p := Perform(s, c, slot.tones);
    assert ExecOne(s, c, slot) == p;
    match c
    case Speed(wpm) =>
    case Gap(dots) =>
    case PttOn =>
    case Send(ch) =>
    case Reply(text) =>
    case _ =>
  }

  lemma {:induction false} AtomicExec(s: State, cs: seq<Player.Command>, k: nat, schedule: Schedule)
    requires s.libcw.gen.Running? && forall i :: schedule(i).ticks == []
    ensures var t := Exec(s, cs, k, schedule);
      && t.ptt == s.ptt.(auto := s.ptt.auto || (s.current.delay != 0 && Player.PttOn in cs),
                         echo := s.ptt.echo || Player.Echoed(cs) != [])
      && t.libcw.tones == s.libcw.tones + TonesMade(cs, k, schedule)
      && t.hasAudio == s.hasAudio && t.alive == s.alive
    decreases |cs|
  {
    hide ExecOne;
    if cs != [] {
      AtomicOne(s, cs[0], schedule(k));
      AtomicExec(ExecOne(s, cs[0], schedule(k)), cs[1..], k + 1, schedule);
    }
  }

  /** A text that asks for neither PTT nor a reply. */
  predicate LeavesPttIdle(s: State, text: string) {
    var e := Player.Stop(text, 0, s.libcw.gap);
    e == |text| && (s.current.delay == 0 || !Player.HasPlain(text, 0, e))
  }

  /** The coarse view: from a quiet state, if libcw's thread does nothing before the request is over, PTT comes off
      afterwards exactly if the text never turned it on, or its characters make at least two tones. */
  lemma ReleasedAfterAtomicText(s: State, text: string, schedule: Schedule)
    requires Inv(s) && s.alive && s.hasAudio && s.ptt == PTT_IDLE && s.libcw.tones == 0
    requires |text| <= REQUEST_SIZE_MAX && NUL !in text && forall i :: schedule(i).ticks == []
    ensures ComesOff(TextRequest(s, text, schedule)) <==>
      LeavesPttIdle(s, text) || TonesMade(Commands(s, text), 0, schedule) >= 2
  {
    hide *;
    var t := TextRequest(s, text, schedule);
    AtomicText(s, text, schedule);
    TextRequestKeepsInv(s, text, schedule);
    ReleasedExactly(t);
  }

  lemma TextRequestKeepsInv(s: State, text: string, schedule: Schedule)
    requires Inv(s) && |text| <= REQUEST_SIZE_MAX && NUL !in text
    ensures Inv(TextRequest(s, text, schedule))
  {
    hide TextRequest, Resources, Behaviour;
    TextRequestKeeps(s, text, schedule);
    SameResourcesKeeps(s, TextRequest(s, text, schedule));
  }

  lemma AtomicText(s: State, text: string, schedule: Schedule)
    requires Inv(s) && s.alive && s.hasAudio && s.ptt == PTT_IDLE && s.libcw.tones == 0
    requires |text| <= REQUEST_SIZE_MAX && forall i :: schedule(i).ticks == []
    ensures var t := TextRequest(s, text, schedule);
      && t.alive && t.hasAudio && !t.ptt.manual && (t.ptt == PTT_IDLE <==> LeavesPttIdle(s, text))
      && t.libcw.tones == TonesMade(Commands(s, text), 0, schedule)
  {
    hide Exec, Player.Interp, TonesMade, Player.Keyed, Player.Echoed, Player.HasPlain, Player.Armed, Player.Swallowed,
      Player.Morse, Resources;
    var c := Player.Cursor(0, s.current.speed, s.libcw.gap);
    assert s.queue + text == text;
    AtomicExec(s.(queue := text), Commands(s, text), 0, schedule);
    Player.KeyedAndEchoed(text, s.current.speed, s.libcw.gap);
    Player.FirstArrival(text, c);
    Player.PttOnExactly(text, c, s.libcw.gap);
  }
}
