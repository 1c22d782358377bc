/** What libcw's thread does to the daemon when it finishes a tone. */
module Callback {
  import opened Basics
  import opened World
  import opened Machine
  import opened Safety
  import opened PttRelease
  import Effects

  /** One tone. libcw calls back only on dropping from two tones to one. A pending reply is then sent, whatever else
      holds PTT, and under automatic PTT alone two tones are queued behind it. Without one, automatic PTT alone is
      released if no text is queued. Nothing else happens. */
  lemma ToneIs(s: State)
    requires ReplyInv(s) && Effects.DeviceOpen(s)
    ensures var t := PlayTone(s); var auto := s.ptt.auto && !s.ptt.manual;
      if !s.libcw.gen.Running? || s.libcw.tones == 0 then t == s
      else if s.libcw.tones != 2 || !s.libcw.lowCallback then
        t == s.(libcw := s.libcw.(tones := s.libcw.tones - 1))
      else if s.ptt.echo then
        t == s.(ptt := PttFlag(s.ptt.auto, s.ptt.manual, false), reply := s.reply + "\r\n",
                mail := s.mail + [Sent(|s.out|, s.replyAddress, s.reply + "\r\n")],
                libcw := s.libcw.(tones := if auto then 3 else 1),
                out := s.out + (if auto then [Cw(QueueTone(1, 0)), Cw(QueueTone(1, 0))] else []))
      else if auto && s.queue == "" then
        && t == s.(ptt := PttFlag(false, false, false), libcw := s.libcw.(tones := 1), os := t.os,
                   out := s.out + Effects.PttIoctls(s, false))
        && Effects.PttMoved(s, t.os, false)
      else t == s.(libcw := s.libcw.(tones := 1))
  {
    hide Machine.SetPttOff, Effects.PttIoctls, Effects.PttMoved, Effects.DeviceOpen;
    var s1 := s.(libcw := s.libcw.(tones := if s.libcw.tones > 0 then s.libcw.tones - 1 else 0));
    Effects.SameDesk(s, s1);
    Effects.SetPttOffIs(s1);
    assert s.out + [] == s.out;
    if s.ptt.echo {
      assert BoundedAppend(s.reply, CRLF, REPLY_SIZE_MAX) == s.reply + "\r\n";
      assert s.out + [Cw(QueueTone(1, 0))] + [Cw(QueueTone(1, 0))]
        == s.out + [Cw(QueueTone(1, 0)), Cw(QueueTone(1, 0))];
    }
  }

  /** Waiting for the callback that sends the pending reply. */
  predicate ReplyDue(s: State) {
    s.ptt.echo && s.libcw.gen.Running? && s.libcw.lowCallback && s.libcw.tones >= 2 && ReplyInv(s)
  }

  lemma TickTowardsReply(s: State, tick: Tick)
    requires ReplyDue(s)
    ensures var t := PlayTick(s, tick); t.ptt.manual == s.ptt.manual
    ensures var t := PlayTick(s, tick);
      if tick.Tone? && s.libcw.tones == 2 then SendsFinalReply(s, t) && !t.ptt.echo
      else
        && ReplyDue(t) && t.mail == s.mail && t.reply == s.reply && t.replyAddress == s.replyAddress
        && t.libcw.tones == s.libcw.tones - (if tick.Tone? then 1 else 0)
  {
    hide DriveLine, DevCw, SendReply, BoundedAppend;
    if tick.Tone? && s.libcw.tones == 2 {
      CallbackReplies(s.(libcw := s.libcw.(tones := 1)));
    } else if tick.Mark? {
      MarkOnlyMoves(s, tick.on);
    }
  }

  lemma MarkOnlyMoves(s: State, on: bool)
    ensures var t := KeyingEvent(s, on); t == s.(os := t.os, out := t.out)
  {
    hide DriveLine;
  }

  lemma CallbackReplies(s: State)
    requires s.ptt.echo && ReplyInv(s)
    ensures var t := LowCallback(s); SendsFinalReply(s, t) && !t.ptt.echo && t.ptt.manual == s.ptt.manual
  {
    assert BoundedAppend(s.reply, CRLF, REPLY_SIZE_MAX) == s.reply + "\r\n";
  }

  lemma TickWithoutReply(s: State, tick: Tick)
    requires !s.ptt.echo
    ensures var t := PlayTick(s, tick); !t.ptt.echo && t.mail == s.mail && t.ptt.manual == s.ptt.manual
  {
    hide DriveLine;
  }

  lemma {:induction false} TicksWithoutReply(s: State, ticks: seq<Tick>)
    requires !s.ptt.echo
    ensures var t := PlayTicks(s, ticks); !t.ptt.echo && t.mail == s.mail && t.ptt.manual == s.ptt.manual
    decreases |ticks|
  {
    hide PlayTick;
    if ticks != [] {
      TickWithoutReply(s, ticks[0]);
      TicksWithoutReply(PlayTick(s, ticks[0]), ticks[1..]);
    }
  }

  lemma {:induction false} DueReplyIsSent(s: State, ticks: seq<Tick>)
    requires ReplyDue(s) && Tones(ticks) >= s.libcw.tones - 1
    ensures var t := PlayTicks(s, ticks); SendsFinalReply(s, t) && !t.ptt.echo && t.ptt.manual == s.ptt.manual
    decreases |ticks|
  {
    hide PlayTick, ReplyInv;
    var t := PlayTick(s, ticks[0]);
    TickTowardsReply(s, ticks[0]);
    if t.ptt.echo {
      DueReplyIsSent(t, ticks[1..]);
    } else {
      TicksWithoutReply(t, ticks[1..]);
    }
  }

  /** A pending reply with two tones or more in the queue is sent, once, when they have been played, and nothing else
      is, whether PTT is off, automatic or held manually; and a manual hold stays. */
  lemma PendingReplyIsSent(s: State, ticks: seq<Tick>)
    requires Inv(s) && s.alive && s.hasAudio && s.ptt.echo && s.libcw.tones >= 2
    requires Tones(ticks) >= s.libcw.tones - 1
    ensures var t := PlayTicks(s, ticks); SendsFinalReply(s, t) && !t.ptt.echo && t.ptt.manual == s.ptt.manual
  {
    assert ReplyDue(s);
    hide Inv, PlayTicks, SendsFinalReply, ReplyDue;
    DueReplyIsSent(s, ticks);
  }
}
