/** The player of src/cwdaemon.c as an interpreter over an immutable text: what commands a text stands for,
    and what that means for the keyed characters, the reply and the Morse speed. */
module Player {
  import opened Basics

  /** What the player tells the rest of the daemon to do. `Rewrite` and `Cut` are its edits of the buffer. */
  datatype Command =
    | Speed(wpm: int)
    | Gap(dots: int)
    | PttOn
    | Send(c: char)
    | Rewrite(at: nat)
    | Cut(at: nat)
    | Reply(text: string)

  /** The reading position, the speed and the inter-character gap that the player carries along. */
  datatype Cursor = Cursor(at: nat, speed: int, gap: int)

  const NOT_KEYABLE: char := 255 as char

  predicate IsSign(c: char) { c == '+' || c == '-' }

  /** A character that reaches the `default` branch of the player. */
  predicate IsPlain(c: char) { !IsSign(c) && c != '~' && c != '^' }

  function KeyedAs(c: char): char { if c == '*' then '+' else c }

  /** A text after every `*` in it has been overwritten with `+`. */
  function Rewritten(t: string): (r: string)
    ensures |r| == |t|
    ensures forall k :: 0 <= k < |t| ==> r[k] == KeyedAs(t[k])
  {
    seq(|t|, k requires 0 <= k < |t| => KeyedAs(t[k]))
  }

  /** One more character rewritten, in the buffer with its NUL. */
  lemma RewrittenNext(t: string, x: nat)
    requires x < |t|
    ensures var a := Rewritten(t[..x]) + t[x..] + [NUL];
      (if t[x] == '*' then a[x := '+'] else a) == Rewritten(t[..x + 1]) + t[x + 1..] + [NUL]
  {
    var a := Rewritten(t[..x]) + t[x..] + [NUL];
    var b, c := if t[x] == '*' then a[x := '+'] else a, Rewritten(t[..x + 1]) + t[x + 1..] + [NUL];
    assert |b| == |c|;
    forall k | 0 <= k < |b| ensures b[k] == c[k] {
      if k < x {
        assert b[k] == Rewritten(t[..x])[k] == KeyedAs(t[k]) == Rewritten(t[..x + 1])[k] == c[k];
      } else if k == x {
        assert c[k] == Rewritten(t[..x + 1])[k] == KeyedAs(t[k]);
      }
    }
  }

  /** End of the run of `+` and `-` that starts at `at`. */
  function RunEnd(t: string, at: nat): (e: nat)
    requires at <= |t|
    ensures at <= e <= |t|
    ensures forall k :: at <= k < e ==> IsSign(t[k])
    ensures e < |t| ==> !IsSign(t[e])
    decreases |t| - at
  {
    if at < |t| && IsSign(t[at]) then RunEnd(t, at + 1) else at
  }

  /** The speed after a run of signs, before clamping. */
  function AfterRun(speed: int, run: string): int {
    if run == "" then speed
    else AfterRun(speed, run[..|run| - 1]) + (if run[|run| - 1] == '+' then 2 else -2)
  }

  /** The commands for the item under the cursor. */
  function Item(t: string, c: Cursor): seq<Command>
    requires c.at < |t|
  {
    if IsSign(t[c.at]) then
      [Speed(Clamp(CW.speedMin, CW.speedMax, AfterRun(c.speed, t[c.at..RunEnd(t, c.at)])))]
    else if t[c.at] == '~' then
      [Gap(2)]
    else if t[c.at] == '^' then
      [Cut(c.at), Reply(Rewritten(t[..c.at]))]
    else
      Plain(t[c.at], c.at) + (if c.gap == 2 && !CaretAt(t, c.at + 1) then [Gap(0)] else [])
  }

  predicate CaretAt(t: string, k: nat) { k < |t| && t[k] == '^' }

  function Plain(c: char, at: nat): seq<Command> {
    (if c == '*' then [Rewrite(at)] else []) + [PttOn] + (if c == NOT_KEYABLE then [] else [Send(KeyedAs(c))])
  }

  /** Where the player looks next. A caret ends the text; a caret right after a character that was sent
      with gap 2 is stepped over. */
  function Next(t: string, c: Cursor): (n: Cursor)
    requires c.at < |t|
    ensures c.at < n.at <= |t|
  {
    if IsSign(t[c.at]) then
      var e := RunEnd(t, c.at);
      Cursor(e, Clamp(CW.speedMin, CW.speedMax, AfterRun(c.speed, t[c.at..e])), c.gap)
    else if t[c.at] == '~' then
      Cursor(c.at + 1, c.speed, 2)
    else if t[c.at] == '^' then
      c.(at := |t|)
    else if c.gap == 2 && CaretAt(t, c.at + 1) then
      c.(at := c.at + 2)
    else
      Cursor(c.at + 1, c.speed, if c.gap == 2 then 0 else c.gap)
  }

  /** All commands of the text from the cursor on; the last one empties the buffer. */
  function Interp(t: string, c: Cursor): (cs: seq<Command>)
    requires c.at <= |t|
    ensures |cs| > 0 && cs[|cs| - 1] == Cut(0)
    decreases |t| - c.at
  {
    if c.at == |t| then [Cut(0)] else Item(t, c) + Interp(t, Next(t, c))
  }

  // ---------- what is keyed, what is echoed ----------

  function Keyed(cs: seq<Command>): string {
    if cs == [] then "" else (if cs[0].Send? then [cs[0].c] else "") + Keyed(cs[1..])
  }

  function Echoed(cs: seq<Command>): seq<string> {
    if cs == [] then [] else (if cs[0].Reply? then [cs[0].text] else []) + Echoed(cs[1..])
  }

  /** Reference, reading backwards from a position and knowing nothing of cursors: is the gap 2 when the
      player arrives at position `i` of a text that it started with gap `gap`? */
  predicate Armed(t: string, i: nat, gap: int)
    requires i <= |t|
  {
    if i == 0 then gap == 2
    else if IsSign(t[i - 1]) then Armed(t, i - 1, gap)
    else t[i - 1] == '~' || t[i - 1] == '^'
  }

  /** Reference: the caret at `i` follows a character that was processed with gap 2. */
  predicate Swallowed(t: string, i: nat, gap: int)
    requires i < |t|
  {
    t[i] == '^' && i > 0 && IsPlain(t[i - 1]) && Armed(t, i - 1, gap)
  }

  /** Reference: the first caret at or after `i` that is not swallowed, or the end of the text. */
  function Stop(t: string, i: nat, gap: int): (e: nat)
    requires i <= |t|
    ensures i <= e <= |t|
    ensures forall k :: i <= k < e ==> t[k] == '^' ==> Swallowed(t, k, gap)
    ensures e < |t| ==> t[e] == '^' && !Swallowed(t, e, gap)
    decreases |t| - i
  {
    if i == |t| then i
    else if t[i] == '^' && !Swallowed(t, i, gap) then i
    else Stop(t, i + 1, gap)
  }

  /** Reference: the characters of a text that go to the key. */
  function Morse(t: string): string {
    if t == "" then ""
    else (if IsPlain(t[0]) && t[0] != NOT_KEYABLE then [KeyedAs(t[0])] else "") + Morse(t[1..])
  }

  /** What each character stands for. */
  lemma CharacterTable(c: char)
    ensures IsSign(c) <==> c == '+' || c == '-'
    ensures IsPlain(c) <==> c !in {'+', '-', '~', '^'}
    ensures Morse([c]) ==
      if c in {'+', '-', '~', '^'} || c as int == 255 then "" else if c == '*' then "+" else [c]
    ensures Rewritten([c]) == if c == '*' then "+" else [c]
  {
    assert [c][1..] == [];
  }

  /** A text without signs, tildes, carets and byte 0xff. */
  predicate Ordinary(t: string) {
    forall k :: 0 <= k < |t| ==> t[k] !in {'+', '-', '~', '^'} && t[k] as int != 255
  }

  /** The same text with every `*` as `+`. */
  predicate WithPluses(t: string, u: string) {
    |u| == |t| && forall k :: 0 <= k < |t| ==> u[k] == if t[k] == '*' then '+' else t[k]
  }

  /** Such a text is keyed whole; and any text is echoed whole. */
  lemma {:induction false} OrdinaryMorse(t: string)
    ensures Ordinary(t) ==> WithPluses(t, Morse(t))
    ensures WithPluses(t, Rewritten(t))
  {
    if t != "" {
      OrdinaryMorse(t[1..]);
    }
  }

  lemma {:induction false} KeyedConcat(a: seq<Command>, b: seq<Command>)
    ensures Keyed(a + b) == Keyed(a) + Keyed(b)
  {
    if a == [] {
      assert a + b == b;
    } else {
      assert (a + b)[1..] == a[1..] + b;
      KeyedConcat(a[1..], b);
      var h, rest := if a[0].Send? then [a[0].c] else "", Keyed(a[1..]);
      assert Keyed(a + b) == h + (rest + Keyed(b));
      assert Keyed(a) == h + rest;
    }
  }

  lemma {:induction false} EchoedConcat(a: seq<Command>, b: seq<Command>)
    ensures Echoed(a + b) == Echoed(a) + Echoed(b)
  {
    if a == [] {
      assert a + b == b;
    } else {
      assert (a + b)[1..] == a[1..] + b;
      EchoedConcat(a[1..], b);
      var h, rest := if a[0].Reply? then [a[0].text] else [], Echoed(a[1..]);
      assert Echoed(a + b) == h + (rest + Echoed(b));
      assert Echoed(a) == h + rest;
    }
  }

  lemma BothConcat(a: seq<Command>, b: seq<Command>)
    ensures Keyed(a + b) == Keyed(a) + Keyed(b)
    ensures Echoed(a + b) == Echoed(a) + Echoed(b)
  {
    hide *;
    KeyedConcat(a, b);
    EchoedConcat(a, b);
  }

  lemma SingleCommand(c: Command)
    ensures Keyed([c]) == if c.Send? then [c.c] else ""
    ensures Echoed([c]) == if c.Reply? then [c.text] else []
  {
    assert [c][1..] == [];
  }

  lemma PlainMeaning(c: char, at: nat)
    ensures Keyed(Plain(c, at)) == if c == NOT_KEYABLE then "" else [KeyedAs(c)]
    ensures Echoed(Plain(c, at)) == []
  {
    var a := if c == '*' then [Rewrite(at)] else [];
    var b := if c == NOT_KEYABLE then [] else [Send(KeyedAs(c))];
    SingleCommand(Rewrite(at));
    SingleCommand(PttOn);
    SingleCommand(Send(KeyedAs(c)));
    BothConcat(a, [PttOn]);
    BothConcat(a + [PttOn], b);
  }

  lemma {:induction false} MorseConcat(a: string, b: string)
    ensures Morse(a + b) == Morse(a) + Morse(b)
  {
    if a == [] {
      assert a + b == b;
    } else {
      assert (a + b)[1..] == a[1..] + b;
      MorseConcat(a[1..], b);
    }
  }

  lemma {:induction false} SignsAreSilent(run: string)
    requires forall k :: 0 <= k < |run| ==> IsSign(run[k])
    ensures Morse(run) == ""
  {
    if run != "" {
      SignsAreSilent(run[1..]);
    }
  }

  lemma {:induction false} SignsKeepArmed(t: string, lo: nat, hi: nat, gap: int)
    requires lo <= hi <= |t|
    requires forall k :: lo <= k < hi ==> IsSign(t[k])
    ensures Armed(t, hi, gap) == Armed(t, lo, gap)
    decreases hi
  {
    if lo < hi {
      SignsKeepArmed(t, lo, hi - 1, gap);
    }
  }

  lemma {:induction false} StopSkips(t: string, lo: nat, hi: nat, gap: int)
    requires lo <= hi <= |t|
    requires forall k :: lo <= k < hi ==> t[k] == '^' ==> Swallowed(t, k, gap)
    ensures Stop(t, lo, gap) == Stop(t, hi, gap)
    decreases hi - lo
  {
    if lo < hi {
      StopSkips(t, lo + 1, hi, gap);
    }
  }

  /** A position at which the player can arrive: not a caret that it steps over. */
  predicate Arrival(t: string, c: Cursor, gap: int)
    requires c.at <= |t|
  {
    && (c.gap == 2 <==> Armed(t, c.at, gap))
    && (c.at < |t| ==> !Swallowed(t, c.at, gap))
  }

  lemma FirstArrival(t: string, c: Cursor)
    requires c.at == 0
    ensures Arrival(t, c, c.gap)
  {
  }

  lemma CaretMeaning(t: string, c: Cursor)
    requires c.at < |t| && t[c.at] == '^'
    ensures Keyed(Item(t, c)) == "" && Echoed(Item(t, c)) == [Rewritten(t[..c.at])]
  {
    hide Keyed, Echoed;
    var r := Rewritten(t[..c.at]);
    SingleCommand(Cut(c.at));
    SingleCommand(Reply(r));
    BothConcat([Cut(c.at)], [Reply(r)]);
    assert Item(t, c) == [Cut(c.at)] + [Reply(r)];
  }

  lemma PlainItemMeaning(t: string, c: Cursor)
    requires c.at < |t| && IsPlain(t[c.at])
    ensures Keyed(Item(t, c)) == Morse(t[c.at..Next(t, c).at]) && Echoed(Item(t, c)) == []
  {
    hide Keyed, Echoed, Plain;
    var n := Next(t, c).at;
    var rest := if c.gap == 2 && !CaretAt(t, c.at + 1) then [Gap(0)] else [];
    BothConcat(Plain(t[c.at], c.at), rest);
    PlainMeaning(t[c.at], c.at);
    SingleCommand(Gap(0));
    NoCommand();
    assert t[c.at..n] == [t[c.at]] + t[c.at + 1..n];
    assert Morse(t[c.at + 1..n]) == "";
  }

  lemma NoCommand()
    ensures Keyed([]) == "" && Echoed([]) == []
  {
  }

  lemma ItemMeaning(t: string, c: Cursor)
    requires c.at < |t| && t[c.at] != '^'
    ensures Keyed(Item(t, c)) == Morse(t[c.at..Next(t, c).at]) && Echoed(Item(t, c)) == []
  {
    if IsPlain(t[c.at]) {
      PlainItemMeaning(t, c);
    } else {
      hide Keyed, Echoed;
      SingleCommand(Item(t, c)[0]);
      if IsSign(t[c.at]) {
        SignsAreSilent(t[c.at..Next(t, c).at]);
      } else {
        assert t[c.at..c.at + 1] == ['~'];
      }
    }
  }

  lemma NextIsArrival(t: string, c: Cursor, gap: int)
    requires c.at < |t| && t[c.at] != '^' && Arrival(t, c, gap)
    ensures Arrival(t, Next(t, c), gap)
    ensures forall k :: c.at <= k < Next(t, c).at && t[k] == '^' ==> Swallowed(t, k, gap)
  {
    if IsSign(t[c.at]) {
      SignsKeepArmed(t, c.at, RunEnd(t, c.at), gap);
    }
  }

  /** Every text, from any arrival: exactly the keyable characters before the first unswallowed caret are
      keyed, and that caret, if there is one, prepares everything before it as the only reply. */
  lemma {:induction false} KeyedAndEchoedFrom(t: string, c: Cursor, gap: int)
    requires c.at <= |t| && Arrival(t, c, gap)
    ensures var e := Stop(t, c.at, gap);
      && Keyed(Interp(t, c)) == Morse(t[c.at..e])
      && Echoed(Interp(t, c)) == if e < |t| then [Rewritten(t[..e])] else []
    decreases |t| - c.at
  {
    hide Keyed, Echoed, Morse, Item, Armed, Swallowed;
    if c.at == |t| {
      SingleCommand(Cut(0));
      NoMorse();
      assert t[c.at..c.at] == "";
    } else if t[c.at] == '^' {
      CaretMeaning(t, c);
      SingleCommand(Cut(0));
      NoMorse();
      BothConcat(Item(t, c), [Cut(0)]);
      assert t[c.at..c.at] == "";
    } else {
      var n := Next(t, c);
      ItemMeaning(t, c);
      BothConcat(Item(t, c), Interp(t, n));
      NextIsArrival(t, c, gap);
      KeyedAndEchoedFrom(t, n, gap);
      StopSkips(t, c.at, n.at, gap);
      MorseSplit(t, c.at, n.at, Stop(t, n.at, gap));
    }
  }

  lemma NoMorse()
    ensures Morse("") == ""
  {
  }

  lemma MorseSplit(t: string, lo: nat, mid: nat, hi: nat)
    requires lo <= mid <= hi <= |t|
    ensures Morse(t[lo..hi]) == Morse(t[lo..mid]) + Morse(t[mid..hi])
  {
    assert t[lo..hi] == t[lo..mid] + t[mid..hi];
    MorseConcat(t[lo..mid], t[mid..hi]);
  }

  /** The whole text, for every starting speed and gap. */
  lemma KeyedAndEchoed(t: string, speed: int, gap: int)
    ensures var e := Stop(t, 0, gap);
      && Keyed(Interp(t, Cursor(0, speed, gap))) == Morse(t[..e])
      && Echoed(Interp(t, Cursor(0, speed, gap))) == if e < |t| then [Rewritten(t[..e])] else []
  {
    KeyedAndEchoedFrom(t, Cursor(0, speed, gap), gap);
    assert t[0..Stop(t, 0, gap)] == t[..Stop(t, 0, gap)];
  }

  /** The gap that commands leave behind. */
  function GapAfter(cs: seq<Command>, gap: int): int {
    if cs == [] then gap
    else if cs[|cs| - 1].Gap? then cs[|cs| - 1].dots
    else GapAfter(cs[..|cs| - 1], gap)
  }

  lemma {:induction false} GapConcat(a: seq<Command>, b: seq<Command>, gap: int)
    ensures GapAfter(a + b, gap) == GapAfter(b, GapAfter(a, gap))
    decreases |b|
  {
    if b == [] {
      assert a + b == a;
    } else {
      assert (a + b)[..|a + b| - 1] == a + b[..|b| - 1];
      GapConcat(a, b[..|b| - 1], gap);
    }
  }

  lemma SingleGap(c: Command, gap: int)
    ensures GapAfter([c], gap) == if c.Gap? then c.dots else gap
  {
    assert [c][..0] == [];
  }

  lemma {:induction false} NoGapCommand(cs: seq<Command>, gap: int)
    requires forall c :: c in cs ==> !c.Gap?
    ensures GapAfter(cs, gap) == gap
  {
    if cs != [] {
      NoGapCommand(cs[..|cs| - 1], gap);
    }
  }

  lemma PlainItemGap(t: string, c: Cursor)
    requires c.at < |t| && IsPlain(t[c.at])
    ensures GapAfter(Item(t, c), c.gap) == Next(t, c).gap
  {
    hide GapAfter, Plain;
    var rest := if c.gap == 2 && !CaretAt(t, c.at + 1) then [Gap(0)] else [];
    PlainGap(t[c.at], c.at, c.gap);
    GapConcat(Plain(t[c.at], c.at), rest, c.gap);
    SingleGap(Gap(0), c.gap);
    NoGapCommand([], c.gap);
  }

  lemma PlainGap(c: char, at: nat, gap: int)
    ensures GapAfter(Plain(c, at), gap) == gap
  {
    hide GapAfter;
    NoGapCommand(Plain(c, at), gap);
  }

  lemma ItemGap(t: string, c: Cursor)
    requires c.at < |t|
    ensures GapAfter(Item(t, c), c.gap) == Next(t, c).gap
  {
    hide GapAfter, Plain, Rewritten, AfterRun;
    if IsPlain(t[c.at]) {
      PlainItemGap(t, c);
    } else if t[c.at] == '~' {
      SingleGap(Gap(2), c.gap);
    } else {
      NoGapCommand(Item(t, c), c.gap);
    }
  }

  /** The gap that a text leaves for the next request: 2 exactly if it is armed where the text stopped. */
  lemma {:induction false} GapLeftBehind(t: string, c: Cursor, gap: int)
    requires c.at <= |t| && Arrival(t, c, gap)
    ensures GapAfter(Interp(t, c), c.gap) == 2 <==> Armed(t, Stop(t, c.at, gap), gap)
    decreases |t| - c.at
  {
    hide GapAfter, Item, Armed, Swallowed;
    if c.at == |t| {
      SingleGap(Cut(0), c.gap);
    } else {
      ItemGap(t, c);
      GapConcat(Item(t, c), Interp(t, Next(t, c)), c.gap);
      if t[c.at] == '^' {
        SingleGap(Cut(0), c.gap);
      } else {
        NextIsArrival(t, c, gap);
        StopSkips(t, c.at, Next(t, c).at, gap);
        GapLeftBehind(t, Next(t, c), gap);
      }
    }
  }

  // ---------- where PTT and characters stand among the commands ----------

  /** Reference: a character between `lo` and `hi` reaches the `default` branch. */
  predicate HasPlain(t: string, lo: nat, hi: nat)
    requires lo <= hi <= |t|
  {
    exists k :: lo <= k < hi && IsPlain(t[k])
  }

  lemma ItemPttOn(t: string, c: Cursor)
    requires c.at < |t|
    ensures PttOn in Item(t, c) <==> IsPlain(t[c.at])
    ensures HasPlain(t, c.at, Next(t, c).at) ==> IsPlain(t[c.at]) || t[c.at] == '^'
  {
    if IsPlain(t[c.at]) {
      var a := if t[c.at] == '*' then [Rewrite(c.at)] else [];
      assert (a + [PttOn])[|a|] == PttOn;
    }
  }

  /** PTT is asked for exactly if there is a character to play before the stop. */
  lemma {:induction false} PttOnExactly(t: string, c: Cursor, gap: int)
    requires c.at <= |t| && Arrival(t, c, gap)
    ensures PttOn in Interp(t, c) <==> HasPlain(t, c.at, Stop(t, c.at, gap))
    decreases |t| - c.at
  {
    hide Item, Armed, Swallowed;
    if c.at < |t| {
      var n := Next(t, c);
      ItemPttOn(t, c);
      if t[c.at] == '^' {
        assert Interp(t, c) == Item(t, c) + [Cut(0)];
      } else {
        NextIsArrival(t, c, gap);
        StopSkips(t, c.at, n.at, gap);
        PttOnExactly(t, n, gap);
        assert IsPlain(t[c.at]) ==> HasPlain(t, c.at, n.at);
        var e := Stop(t, n.at, gap);
        assert HasPlain(t, c.at, e) <==> HasPlain(t, c.at, n.at) || HasPlain(t, n.at, e);
      }
    }
  }

  /** A character is sent right after PTT was asked for. */
  predicate PttBeforeSend(cs: seq<Command>) {
    forall j :: 0 <= j < |cs| && cs[j].Send? ==> j > 0 && cs[j - 1] == PttOn
  }

  lemma {:induction false} InterpPttBeforeSend(t: string, c: Cursor)
    requires c.at <= |t|
    ensures PttBeforeSend(Interp(t, c))
    decreases |t| - c.at
  {
    if c.at < |t| {
      hide Rewritten, AfterRun;
      InterpPttBeforeSend(t, Next(t, c));
      assert PttBeforeSend(Item(t, c));
    }
  }

  lemma {:induction false} KeyedMeansSent(cs: seq<Command>) returns (j: nat)
    requires Keyed(cs) != ""
    ensures j < |cs| && cs[j].Send?
  {
    if cs[0].Send? {
      j := 0;
    } else {
      j := KeyedMeansSent(cs[1..]);
      j := j + 1;
    }
  }

  /** Position of the first caret, or the end of the text. */
  function FirstCaret(t: string): (e: nat)
    ensures e <= |t| && '^' !in t[..e] && (e < |t| ==> t[e] == '^')
  {
    if t == "" || t[0] == '^' then 0 else 1 + FirstCaret(t[1..])
  }

  /** Without `~` in the text and in the gap left by the previous request, no caret is swallowed. */
  lemma StopWithoutTilde(t: string, gap: int)
    requires '~' !in t && gap != 2
    ensures Stop(t, 0, gap) == FirstCaret(t)
  {
    var e := FirstCaret(t);
    assert forall k :: 0 <= k < e ==> t[..e][k] == t[k];
    StopSkips(t, 0, e, gap);
    if e < |t| && e > 0 {
      NotArmedBeforeCaret(t, e - 1, gap);
    }
  }

  lemma {:induction false} NotArmedBeforeCaret(t: string, i: nat, gap: int)
    requires i <= |t| && '~' !in t && '^' !in t[..i] && gap != 2
    ensures !Armed(t, i, gap)
  {
    if i > 0 {
      assert t[i - 1] == t[..i][i - 1];
      assert t[..i - 1] == t[..i][..i - 1];
      NotArmedBeforeCaret(t, i - 1, gap);
    }
  }

  /** The plain case that clients rely on: no `~`, starting gap 0. */
  lemma KeyedAndEchoedWithoutTilde(t: string, speed: int)
    requires '~' !in t
    ensures var e := FirstCaret(t);
      && Keyed(Interp(t, Cursor(0, speed, 0))) == Morse(t[..e])
      && Echoed(Interp(t, Cursor(0, speed, 0))) == if e < |t| then [Rewritten(t[..e])] else []
  {
    KeyedAndEchoed(t, speed, 0);
    StopWithoutTilde(t, 0);
  }

  /** A caret does not always get its reply: in `~` + `c` + `^` the character is keyed, nothing is echoed, and
      no command resets the gap, so the next request starts with gap 2. */
  lemma SwallowedCaret(c: char, speed: int)
    requires IsPlain(c)
    ensures Interp(['~', c, '^'], Cursor(0, speed, 0)) == [Gap(2)] + (Plain(c, 1) + [Cut(0)])
    ensures Echoed([Gap(2)] + (Plain(c, 1) + [Cut(0)])) == []
  {
    var t := ['~', c, '^'];
    var c1 := Cursor(1, speed, 2);
    assert Next(t, Cursor(0, speed, 0)) == c1 && Item(t, Cursor(0, speed, 0)) == [Gap(2)];
    assert Next(t, c1) == Cursor(3, speed, 2) && Item(t, c1) == Plain(c, 1);
    assert Interp(t, Cursor(3, speed, 2)) == [Cut(0)];
    assert Interp(t, c1) == Plain(c, 1) + [Cut(0)];
    SwallowedCaretEchoesNothing(c);
  }

  lemma SwallowedCaretEchoesNothing(c: char)
    ensures Echoed([Gap(2)] + (Plain(c, 1) + [Cut(0)])) == []
  {
    SingleCommand(Gap(2));
    SingleCommand(Cut(0));
    PlainMeaning(c, 1);
    BothConcat(Plain(c, 1), [Cut(0)]);
    BothConcat([Gap(2)], Plain(c, 1) + [Cut(0)]);
  }

  // ---------- speed ----------

  /** A run sets the speed by the difference between its pluses and minuses, in whatever order they come. */
  lemma {:induction false} RunIsUnordered(speed: int, run: string)
    requires forall k :: 0 <= k < |run| ==> IsSign(run[k])
    ensures AfterRun(speed, run) == speed + 2 * multiset(run)['+'] - 2 * multiset(run)['-']
  {
    if run != "" {
      RunIsUnordered(speed, run[..|run| - 1]);
      assert run == run[..|run| - 1] + [run[|run| - 1]];
    }
  }

  /** Reference: clamping after every single sign. */
  function ClampedRun(speed: int, run: string): int {
    if run == "" then speed
    else Clamp(CW.speedMin, CW.speedMax,
               ClampedRun(speed, run[..|run| - 1]) + (if run[|run| - 1] == '+' then 2 else -2))
  }

  /** For a run of one sign it makes no difference that the player clamps only once. */
  lemma {:induction false} OneSignRun(speed: int, run: string)
    requires CW.speedMin <= speed <= CW.speedMax
    requires forall k :: 0 <= k < |run| ==> run[k] == run[0] && IsSign(run[k])
    ensures Clamp(CW.speedMin, CW.speedMax, AfterRun(speed, run)) == ClampedRun(speed, run)
    ensures run != "" && run[0] == '+' ==> AfterRun(speed, run) >= speed
    ensures run != "" && run[0] == '-' ==> AfterRun(speed, run) <= speed
  {
    if run != "" {
      OneSignRun(speed, run[..|run| - 1]);
    }
  }

  /** Nor for a run of both signs, as long as the sum is in range before the last of them. */
  lemma {:induction false} RunInRange(speed: int, run: string)
    requires forall k :: 0 <= k < |run| ==> CW.speedMin <= AfterRun(speed, run[..k]) <= CW.speedMax
    ensures run != "" ==> Clamp(CW.speedMin, CW.speedMax, AfterRun(speed, run)) == ClampedRun(speed, run)
    ensures run == "" ==> ClampedRun(speed, run) == speed
  {
    if run != "" {
      var init := run[..|run| - 1];
      assert forall k :: 0 <= k < |init| ==> init[..k] == run[..k];
      RunInRange(speed, init);
      assert ClampedRun(speed, init) == AfterRun(speed, init);
    }
  }

  /** Reference: the sum held at the minimum after every single sign. */
  function FlooredRun(speed: int, run: string): int {
    if run == "" then speed
    else
      var sum := FlooredRun(speed, run[..|run| - 1]) + (if run[|run| - 1] == '+' then 2 else -2);
      if sum < CW.speedMin then CW.speedMin else sum
  }

  /** The lowest sum on the way, the start and the end included. */
  function LowestSum(speed: int, run: string): int {
    if run == "" then speed
    else
      var before := LowestSum(speed, run[..|run| - 1]);
      if AfterRun(speed, run) < before then AfterRun(speed, run) else before
  }

  /** Holding at the minimum lifts all later sums by what was missing at the lowest. */
  lemma {:induction false} FlooredIsLifted(speed: int, run: string)
    requires speed >= CW.speedMin
    ensures var low := LowestSum(speed, run);
      FlooredRun(speed, run) == AfterRun(speed, run) + (if low < CW.speedMin then CW.speedMin - low else 0)
    ensures LowestSum(speed, run) <= AfterRun(speed, run)
  {
    if run != "" {
      FlooredIsLifted(speed, run[..|run| - 1]);
    }
  }

  lemma {:induction false} ClampedIsFloored(speed: int, run: string)
    requires forall k :: 0 <= k <= |run| ==> FlooredRun(speed, run[..k]) <= CW.speedMax
    ensures ClampedRun(speed, run) == FlooredRun(speed, run)
  {
    assert run[..|run|] == run;
    if run != "" {
      var init := run[..|run| - 1];
      assert forall k :: 0 <= k <= |init| ==> init[..k] == run[..k];
      ClampedIsFloored(speed, init);
    }
  }

  /** For a run that does not exceed the maximum, clamping once and clamping each time agree if and only if no sum
      falls below the minimum or the final sum is the lowest of all. */
  lemma RunBelowMaximum(speed: int, run: string)
    requires speed >= CW.speedMin
    requires forall k :: 0 <= k <= |run| ==> FlooredRun(speed, run[..k]) <= CW.speedMax
    ensures Clamp(CW.speedMin, CW.speedMax, AfterRun(speed, run)) == ClampedRun(speed, run) <==>
      LowestSum(speed, run) >= CW.speedMin || AfterRun(speed, run) == LowestSum(speed, run)
  {
    assert run[..|run|] == run;
    FlooredIsLifted(speed, run);
    ClampedIsFloored(speed, run);
  }

  /** So at the lowest speed every run of minuses and then as many pluses leaves the speed alone, where clamping each
      time would raise it. */
  lemma MixedRun(n: nat)
    requires 0 < n
    ensures var run := Signs('-', n) + Signs('+', n);
      && Clamp(CW.speedMin, CW.speedMax, AfterRun(CW.speedMin, run)) == CW.speedMin
      && ClampedRun(CW.speedMin, run) == Clamp(CW.speedMin, CW.speedMax, CW.speedMin + 2 * n)
  {
    PlusAfterMinus(n, n);
  }

  function Signs(c: char, n: nat): (r: string)
    ensures |r| == n && forall k :: 0 <= k < n ==> r[k] == c
  {
    seq(n, _ => c)
  }

  lemma {:induction false} MinusesAlone(n: nat)
    ensures AfterRun(CW.speedMin, Signs('-', n)) == CW.speedMin - 2 * n
    ensures ClampedRun(CW.speedMin, Signs('-', n)) == CW.speedMin
  {
    if n > 0 {
      assert Signs('-', n)[..n - 1] == Signs('-', n - 1);
      MinusesAlone(n - 1);
    }
  }

  lemma {:induction false} PlusAfterMinus(n: nat, m: nat)
    ensures var run := Signs('-', n) + Signs('+', m);
      && AfterRun(CW.speedMin, run) == CW.speedMin - 2 * n + 2 * m
      && ClampedRun(CW.speedMin, run) == Clamp(CW.speedMin, CW.speedMax, CW.speedMin + 2 * m)
    decreases m
  {
    var run := Signs('-', n) + Signs('+', m);
    if m == 0 {
      assert run == Signs('-', n);
      MinusesAlone(n);
    } else {
      assert run[..|run| - 1] == Signs('-', n) + Signs('+', m - 1);
      PlusAfterMinus(n, m - 1);
    }
  }

  lemma NoRun(speed: int, t: string, x: nat)
    requires x <= |t|
    ensures AfterRun(speed, t[x..x]) == speed
  {
  }

  lemma LongerRun(speed: int, t: string, x: nat, y: nat)
    requires x <= y < |t|
    ensures AfterRun(speed, t[x..y + 1]) == AfterRun(speed, t[x..y]) + (if t[y] == '+' then 2 else -2)
  {
    assert t[x..y + 1][..y - x] == t[x..y];
  }

  /** The sum before clamping moves by at most 2 wpm a character, so it stays far inside a C int. */
  lemma {:induction false} RunCannotOverflow(speed: int, run: string)
    ensures speed - 2 * |run| <= AfterRun(speed, run) <= speed + 2 * |run|
  {
    if run != "" {
      RunCannotOverflow(speed, run[..|run| - 1]);
    }
  }

  // ---------- the speed of each character ----------

  /** A keyed character and the speed it is keyed at. */
  datatype Paced = Paced(c: char, wpm: int)

  /** What has been keyed so far, and the speed in force. */
  datatype Transcript = Transcript(keyed: seq<Paced>, wpm: int)

  function Take(tr: Transcript, c: Command): Transcript {
    match c
    case Speed(wpm) => tr.(wpm := wpm)
    case Send(ch) => tr.(keyed := tr.keyed + [Paced(ch, tr.wpm)])
    case _ => tr
  }

  function TakeAll(tr: Transcript, cs: seq<Command>): Transcript
    decreases |cs|
  {
    if cs == [] then tr else TakeAll(Take(tr, cs[0]), cs[1..])
  }

  /** Start of the run of signs that ends at `k`. */
  function RunStart(t: string, k: nat): (b: nat)
    requires k <= |t|
    ensures b <= k && (forall i :: b <= i < k ==> IsSign(t[i])) && (b > 0 ==> !IsSign(t[b - 1]))
  {
    if k > 0 && IsSign(t[k - 1]) then RunStart(t, k - 1) else k
  }

  /** Reference, reading backwards: the speed in force before position `k`. Every run of signs moves it by 2 for
      each plus and minus together, and then into libcw's range. */
  function SpeedAt(t: string, k: nat, speed: int): int
    requires k <= |t|
    decreases k
  {
    if k == 0 then speed
    else if !IsSign(t[k - 1]) then SpeedAt(t, k - 1, speed)
    else
      var b := RunStart(t, k);
      assert b < k;
      var run := multiset(t[b..k]);
      Clamp(CW.speedMin, CW.speedMax, SpeedAt(t, b, speed) + 2 * run['+'] - 2 * run['-'])
  }

  /** Reference: the characters between two positions that go to the key, each at the speed in force there. */
  function PacedMorse(t: string, lo: nat, hi: nat, speed: int): seq<Paced>
    requires lo <= hi <= |t|
    decreases hi - lo
  {
    if lo == hi then []
    else
      (if IsPlain(t[lo]) && t[lo] != NOT_KEYABLE then [Paced(KeyedAs(t[lo]), SpeedAt(t, lo, speed))] else [])
        + PacedMorse(t, lo + 1, hi, speed)
  }

  function Letters(keyed: seq<Paced>): string { seq(|keyed|, k requires 0 <= k < |keyed| => keyed[k].c) }

  /** The letters alone are the keyed characters. */
  lemma {:induction false} PacedMorseLetters(t: string, lo: nat, hi: nat, speed: int)
    requires lo <= hi <= |t|
    ensures Letters(PacedMorse(t, lo, hi, speed)) == Morse(t[lo..hi])
    decreases hi - lo
  {
    if lo < hi {
      assert t[lo..hi][1..] == t[lo + 1..hi];
      PacedMorseLetters(t, lo + 1, hi, speed);
      hide SpeedAt;
      var h := if IsPlain(t[lo]) && t[lo] != NOT_KEYABLE then [Paced(KeyedAs(t[lo]), SpeedAt(t, lo, speed))] else [];
      LettersInParts(h, PacedMorse(t, lo + 1, hi, speed));
    }
  }

  lemma LettersInParts(a: seq<Paced>, b: seq<Paced>)
    ensures Letters(a + b) == Letters(a) + Letters(b)
  {
  }

  lemma {:induction false} PacedMorseSplit(t: string, lo: nat, mid: nat, hi: nat, speed: int)
    requires lo <= mid <= hi <= |t|
    ensures PacedMorse(t, lo, hi, speed) == PacedMorse(t, lo, mid, speed) + PacedMorse(t, mid, hi, speed)
    decreases mid - lo
  {
    hide SpeedAt;
    if lo < mid {
      PacedMorseSplit(t, lo + 1, mid, hi, speed);
      var h := if IsPlain(t[lo]) && t[lo] != NOT_KEYABLE then [Paced(KeyedAs(t[lo]), SpeedAt(t, lo, speed))] else [];
      assert PacedMorse(t, lo, hi, speed) == h + (PacedMorse(t, lo + 1, mid, speed) + PacedMorse(t, mid, hi, speed));
    }
  }

  lemma {:induction false} PacedMorseSilent(t: string, lo: nat, hi: nat, speed: int)
    requires lo <= hi <= |t| && forall k :: lo <= k < hi ==> !IsPlain(t[k])
    ensures PacedMorse(t, lo, hi, speed) == []
    decreases hi - lo
  {
    hide SpeedAt;
    if lo < hi {
      PacedMorseSilent(t, lo + 1, hi, speed);
    }
  }

  lemma {:induction false} TakeInParts(tr: Transcript, a: seq<Command>, b: seq<Command>)
    ensures TakeAll(tr, a + b) == TakeAll(TakeAll(tr, a), b)
    decreases |a|
  {
    if a == [] {
      assert a + b == b;
    } else {
      assert (a + b)[1..] == a[1..] + b;
      TakeInParts(Take(tr, a[0]), a[1..], b);
    }
  }

  lemma TakeOne(tr: Transcript, c: Command)
    ensures TakeAll(tr, [c]) == Take(tr, c)
  {
    assert [c][1..] == [];
  }

  lemma {:induction false} TakeNothing(tr: Transcript, cs: seq<Command>)
    requires forall c :: c in cs ==> !c.Send? && !c.Speed?
    ensures TakeAll(tr, cs) == tr
    decreases |cs|
  {
    if cs != [] {
      TakeNothing(tr, cs[1..]);
    }
  }

  lemma TakePlain(tr: Transcript, c: char, at: nat)
    ensures TakeAll(tr, Plain(c, at)) ==
      if c == NOT_KEYABLE then tr else tr.(keyed := tr.keyed + [Paced(KeyedAs(c), tr.wpm)])
  {
    hide TakeAll;
    var a := (if c == '*' then [Rewrite(at)] else []) + [PttOn];
    var b := if c == NOT_KEYABLE then [] else [Send(KeyedAs(c))];
    assert Plain(c, at) == a + b;
    TakeInParts(tr, a, b);
    TakeNothing(tr, a);
    TakeNothing(tr, []);
    TakeOne(tr, Send(KeyedAs(c)));
  }

  /** A position at which the player can arrive, with the speed in force there. */
  predicate PacedArrival(t: string, c: Cursor, speed: int)
    requires c.at <= |t|
  {
    && c.speed == SpeedAt(t, c.at, speed)
    && (0 < c.at < |t| && IsSign(t[c.at]) ==> !IsSign(t[c.at - 1]))
  }

  lemma RunIsTaken(t: string, c: Cursor, speed: int)
    requires c.at < |t| && IsSign(t[c.at]) && PacedArrival(t, c, speed)
    ensures PacedArrival(t, Next(t, c), speed)
  {
    var e := RunEnd(t, c.at);
    assert RunStart(t, e) == c.at;
    RunIsUnordered(c.speed, t[c.at..e]);
  }

  lemma ItemIsPaced(tr: Transcript, t: string, c: Cursor, speed: int)
    requires c.at < |t| && t[c.at] != '^' && PacedArrival(t, c, speed) && tr.wpm == c.speed
    ensures PacedArrival(t, Next(t, c), speed)
    ensures TakeAll(tr, Item(t, c))
      == Transcript(tr.keyed + PacedMorse(t, c.at, Next(t, c).at, speed), Next(t, c).speed)
  {
    hide TakeAll, Plain, PacedMorse, AfterRun;
    var n := Next(t, c);
    if IsSign(t[c.at]) {
      hide SpeedAt;
      TakeOne(tr, Speed(n.speed));
      PacedMorseSilent(t, c.at, n.at, speed);
      RunIsTaken(t, c, speed);
    } else if t[c.at] == '~' {
      TakeOne(tr, Gap(2));
      PacedMorseSilent(t, c.at, n.at, speed);
    } else {
      PlainIsPaced(tr, t, c, speed);
    }
  }

  lemma PlainIsPaced(tr: Transcript, t: string, c: Cursor, speed: int)
    requires c.at < |t| && IsPlain(t[c.at]) && PacedArrival(t, c, speed) && tr.wpm == c.speed
    ensures PacedArrival(t, Next(t, c), speed)
    ensures TakeAll(tr, Item(t, c))
      == Transcript(tr.keyed + PacedMorse(t, c.at, Next(t, c).at, speed), Next(t, c).speed)
  {
    hide TakeAll, Plain, SpeedAt;
    var n := Next(t, c);
    var rest := if c.gap == 2 && !CaretAt(t, c.at + 1) then [Gap(0)] else [];
    TakeInParts(tr, Plain(t[c.at], c.at), rest);
    TakePlain(tr, t[c.at], c.at);
    TakeNothing(TakeAll(tr, Plain(t[c.at], c.at)), rest);
    PacedMorseSilent(t, c.at + 1, n.at, speed);
    SpeedStays(t, c.at, speed);
    if n.at != c.at + 1 {
      SpeedStays(t, c.at + 1, speed);
    }
  }

  lemma SpeedStays(t: string, k: nat, speed: int)
    requires k < |t| && !IsSign(t[k])
    ensures SpeedAt(t, k + 1, speed) == SpeedAt(t, k, speed)
  {
  }

  /** Every text from any arrival: each keyed character is keyed at the speed in force where it stands. */
  lemma {:induction false} PacedFrom(tr: Transcript, t: string, c: Cursor, gap: int, speed: int)
    requires c.at <= |t| && Arrival(t, c, gap) && PacedArrival(t, c, speed) && tr.wpm == c.speed
    ensures TakeAll(tr, Interp(t, c)).keyed == tr.keyed + PacedMorse(t, c.at, Stop(t, c.at, gap), speed)
    decreases |t| - c.at
  {
    hide TakeAll, Item, Armed, Swallowed, PacedArrival, PacedMorse;
    if c.at == |t| {
      TakeOne(tr, Cut(0));
      PacedMorseSilent(t, c.at, c.at, speed);
    } else if t[c.at] == '^' {
      StopCommandsTakeNothing(tr, t, c);
      PacedMorseSilent(t, c.at, c.at, speed);
    } else {
      var n := Next(t, c);
      ItemIsPaced(tr, t, c, speed);
      NextIsArrival(t, c, gap);
      TakeInParts(tr, Item(t, c), Interp(t, n));
      PacedFrom(TakeAll(tr, Item(t, c)), t, n, gap, speed);
      StopSkips(t, c.at, n.at, gap);
      PacedMorseSplit(t, c.at, n.at, Stop(t, n.at, gap), speed);
    }
  }

  lemma StopCommandsTakeNothing(tr: Transcript, t: string, c: Cursor)
    requires c.at < |t| && t[c.at] == '^'
    ensures TakeAll(tr, Interp(t, c)) == tr
  {
    hide TakeAll, Rewritten;
    assert Interp(t, c) == Item(t, c) + [Cut(0)];
    TakeNothing(tr, Interp(t, c));
  }

  /** The whole text. */
  lemma KeyedAtSpeed(t: string, speed: int, gap: int)
    ensures TakeAll(Transcript([], speed), Interp(t, Cursor(0, speed, gap))).keyed
      == PacedMorse(t, 0, Stop(t, 0, gap), speed)
  {
    hide TakeAll, Interp, PacedMorse;
    FirstArrival(t, Cursor(0, speed, gap));
    PacedFrom(Transcript([], speed), t, Cursor(0, speed, gap), gap, speed);
  }
}
