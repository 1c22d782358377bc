# cwdaemon

cwdaemon is a server that keys a transmitter in Morse code. Clients send it datagrams: a plain text is keyed, a
text that starts with ESC changes a parameter, switches a device, aborts, tunes, resets or asks for a reply.
libcw turns characters into tones on a thread of its own and calls back when its tone queue runs low; the callback
releases PTT (the line that puts the transmitter on air) or sends a pending reply.

This project models the daemon as one state machine and proves what it promises on whole runs.

- `Daemon.dfy` is the program as it is written: a class with the file-level variables of `src/cwdaemon.c`, the
  4000-byte request queue and the 258-byte reply buffer, updated in place. Every method is proved to take the step
  of the machine that bears its name; on the way the buffer bounds, the CRLF assertion of `cwdaemon_sendto`, the
  range of the speed sum and the liveness of every descriptor and name that is closed or freed are proved.
- `Machine.dfy` is the state machine over values, `World.dfy` what lies outside (libcw, descriptors, modem lines,
  heap strings) and the record of what the daemon did to it. Answers of the environment (does the sound output
  open, is a name a tty, how many tones does a character make) come with each event, so a statement over all events
  holds for all answers.
- `Player.dfy` is the text player as an interpreter over an immutable text, with reference definitions of what is
  keyed and echoed that know nothing of its cursor.
- `Effects.dfy` and `DeviceEffects.dfy` say for every request, from the bytes of its datagram, what the daemon then
  holds, which calls and ioctls it makes and what it sends; `Callback.dfy` says it for libcw's callback. They name
  numbers, letters and texts outright, not the constants and handlers of the machine.
- The other files prove properties of the machine. `Safety.dfy` holds the inductive invariant.

Two views of time. A schedule says what libcw's thread does after each command of the player: which tones it finishes
(and so when it calls back) and when it starts and ends marks on the keying line. The theorems about texts and runs hold
for all schedules and so cover callbacks at any point inside the player. The coarse view, in which a request is one
atomic step, is the schedule in which the thread does nothing; the one result that holds only there says so
(`TextRelease.ReleasedAfterAtomicText`).

libcw's limits (`CW_SPEED_MIN` and so on) are symbolic: only that cwdaemon's own defaults lie between them is used.

Where the code and its comments or documentation disagree, the code is modelled:

- The comment at `src/cwdaemon.c:1345-1351` takes the caret after a character sent with gap 2 for the last one, which
  leads to a reply. The code steps over it: no reply is prepared, later text is keyed, and the gap of 2 stays for the
  next request (`Player.SwallowedCaret`, `Player.GapLeftBehind`).
- `*` is rewritten to `+` in the buffer before a later caret copies the buffer, so the reply does not repeat the
  client's `*`.
- The guard `!(ptt_flag & !PTT_ACTIVE_AUTO)` at line 2057 is always true. So manual PTT "off" while nothing is being
  sent also drops a pending reply (`ReplyLedger.DropsReply`).
- Driver options are validated once, on the device that is current when the command line ends (lines 2128-2133); pins
  set for a tty that a later `-d` replaces are never validated (`DeviceBooks.UnvalidatedPins`).
- The comment at lines 1323-1324 says that automatic PTT will be turned off on low tone queue. It is not if libcw finishes
  its tones before the player empties the queue: then PTT stays on after every text that asks for it
  (`TextRelease.EagerLibcwLeavesPttOn`), and after a request of the single byte 0xff always (`TextRelease.StuckPtt`).
  `TextRelease.TextReleasedExactly` says exactly when it comes off.
- "Exactly one CRLF" at line 1474 holds because the queue is empty when a request arrives; see
  `Guarantees.PendingReplyFits`.

## Model

| member | source | states |
|---|---|---|
| Player.KeyedAndEchoed | src/cwdaemon.c:1273-1367 | For every text, starting speed and starting gap: the keyed characters are those before the first unswallowed caret, less signs, tildes, swallowed carets and byte 0xff, with `*` as `+`; a reply is prepared exactly if there is such a caret, and it is everything before it |
| Player.CharacterTable | src/cwdaemon.c:1280-1340 | What each character stands for: `+ - ~ ^` and byte 255 key nothing, `*` keys `+`, every other keys itself; `*` is echoed as `+` |
| Player.KeyedAndEchoedWithoutTilde | src/cwdaemon.c:1301-1340 | Without `~`, from gap 0: keyed is the part before the first caret, and the reply is prepared exactly if a caret occurs |
| Player.SwallowedCaret | src/cwdaemon.c:1343-1352 | `~c^` keys `c`, prepares nothing and leaves gap 2: the caret promise fails on this whole family of texts |
| Player.GapLeftBehind | src/cwdaemon.c:1301-1306 | The gap carried into the next request is 2 exactly if the text left it armed where it stopped |
| Player.RunIsUnordered | src/cwdaemon.c:1287-1290 | A run of signs moves the speed by twice pluses minus minuses, in whatever order |
| Player.OneSignRun | src/cwdaemon.c:1287-1298 | For a run of one sign, clamping once equals clamping after each character |
| Player.RunInRange | src/cwdaemon.c:1287-1298 | Nor does it matter for a run of both signs whose sum is in range before the last sign |
| Player.RunBelowMaximum | src/cwdaemon.c:1292-1298 | For a run that does not exceed the maximum, clamping once and clamping each time agree if and only if no sum falls below the minimum or the final sum is the lowest |
| Player.MixedRun | src/cwdaemon.c:1292-1298 | So minuses and as many pluses at the lowest speed leave it alone, any number of them, where clamping each time would raise it |
| Player.KeyedAtSpeed | src/cwdaemon.c:1281-1300 | Every character is keyed at the speed in force where it stands, read backwards from the text: each run of signs moves it by 2 a sign together, and then into range |
| Player.RunCannotOverflow | src/cwdaemon.c:1287-1290 | The unclamped sum moves at most 2 wpm a character |
| Transmission.TextIsTransmitted | src/cwdaemon.c:1273-1367 | On the daemon's own trace, with libcw's thread at work anywhere: libcw is given exactly the keyable characters, each at its speed, at most one reply is prepared and it is the text before the caret, and the gap left behind follows |
| Transmission.OrdinaryTextIsKeyed | src/cwdaemon.c:1335-1340 | From the datagram, in any state and on any schedule: a text without `+ - ~ ^` and byte 255 is given to libcw whole and in order, with `*` as `+`, and prepares no reply |
| PttRelease.NoPttDropInsideMessage | src/cwdaemon.c:1434-1452 | Once a character has been keyed with a delay, then up to the end of the message automatic PTT stays on, whatever the pins, no line but the keying line changes, and with validated pins the PTT pin stays as it is |
| PttRelease.PinHoldsExactly | src/cwdaemon.c:1395-1409 | While libcw keys a tty, the PTT pin stays put through a message on all schedules if and only if the pins pass validation |
| PttRelease.PinIsUpExactly | src/cwdaemon.c:551-568 | On an open tty with valid pins, once PTT has been asked for, the PTT pin is up to the end of the message if and only if on arrival automatic PTT was off or the pin was up |
| PttRelease.MessageIsHarmless | src/cwdaemon.c:1361-1362 | In a message that keys anything, only the last edit of the buffer makes its first byte NUL |
| PttRelease.ReleasedWithinTwoCallbacks | src/cwdaemon.c:1424-1511 | With tones queued and no manual PTT, playing them releases PTT after one callback, or two if a reply is pending under automatic PTT, whatever marks are made meanwhile; the pin is off and the reply has been sent once |
| Callback.ToneIs | src/cwdaemon.c:1424-1515 | Everything that one finished tone does: a callback only on dropping from two tones to one; a pending reply is sent however PTT is held, with two tones queued behind it under automatic PTT alone; otherwise automatic PTT alone is released if no text is queued; otherwise nothing |
| Callback.PendingReplyIsSent | src/cwdaemon.c:1454-1479 | A pending reply is sent, once and with nothing else, when the queued tones have been played, whether PTT is off, automatic or held manually; a manual hold stays |
| PttRelease.ReleasedExactly | src/cwdaemon.c:1434-1511 | Left alone, PTT is released if and only if it was not on, or it is not held manually and libcw has two tones left |
| TextRelease.TextReleasedExactly | src/cwdaemon.c:1361-1362 | After a text, on every schedule, PTT comes off if and only if it is idle at the moment the player empties the queue, or nobody holds it manually and libcw has two tones left at that moment; earlier callbacks release nothing |
| TextRelease.TonesWhenEmptied | src/cwdaemon.c:1337-1338 | The tones left at that moment: queued on arrival and made by the text, less those finished before, and two for each reply sent under automatic PTT |
| TextRelease.IdleReleasedExactly | src/cwdaemon.c:1322-1362 | From idle PTT that means: the text asked for no PTT and left no reply unsent when the queue was emptied, or two tones were left then |
| TextRelease.EagerLibcwLeavesPttOn | src/cwdaemon.c:1434-1442 | On the schedule on which libcw finishes each character before the player goes on, PTT stays on for good after every text that asks for it, however many tones its characters make |
| TextRelease.ReleasedAfterAtomicText | src/cwdaemon.c:1322-1341 | Coarse view only: from a quiet state, if libcw's thread does nothing during the request, PTT comes off if and only if the text asked for neither PTT nor a reply, or its characters make at least two tones |
| TextRelease.StuckPtt | src/cwdaemon.c:1335-1340 | A request of byte 0xff turns PTT on for good, on every schedule |
| Safety.StepKeeps | src/cwdaemon.c:864-1257 | Every request, callback and key change keeps the invariant: empty queue, PTT pin, libcw mirror, keying target, reply room, ranges, descriptors, names |
| Safety.EveryRunIsSafe | src/cwdaemon.c:2143-2307 | Every state of every run from every command line satisfies the invariant |
| Safety.CwdeviceSetKeeps | src/cwdaemon.c:2413-2495 | Switching devices keeps the books of descriptors and names, gives a tty or else the null device, and leaves the PTT pin of the new device off |
| Safety.ResetAlmostAllIs | src/cwdaemon.c:647-677 | The state that start and RESET share: defaults in force, libcw configured with them, keying on the current device, or no output at all |
| DeviceEffects.ResetIs | src/cwdaemon.c:948-964 | ESC 0: the whole new state with every libcw call in order: defaults, character mode, no PTT, no reply, libcw set up with the defaults if it opens, and both pins of a tty low |
| DeviceEffects.SoundSystemIs | src/cwdaemon.c:1155-1227 | ESC f: which letter names which system, the fallback to the null system, and libcw set up with the current parameters, with every call in order |
| DeviceEffects.CwdeviceIs | src/cwdaemon.c:2413-2495 | ESC 8: keying detached, the pins of the old tty lowered and its descriptor closed, the pins of the new one lowered, the new device named, keying attached |
| DeviceEffects.ExitIs | src/cwdaemon.c:1014-1025 | ESC 5: output closed, pins of a tty lowered and its descriptor closed, no name left |
| DeviceEffects.ClosedPinsAreLow | src/ttys.c:186-196 | In every step that closes the tty's descriptor, whatever the event, the last ioctl on each of its pins lowers it |
| DeviceEffects.BootIs | src/cwdaemon.c:2325-2350 | Before the command line: the null device, and a tty keyed with DTR and PTT on RTS |
| DeviceEffects.ArgumentIs | src/cwdaemon.c:2085-2100 | `-d` switches devices, `-o` sets and lowers one pin of a tty; anything else ends the program |
| DeviceEffects.StartIs | src/cwdaemon.c:2255-2272 | Start is refused exactly with both pins of a tty on one line or without sound output, and otherwise leaves libcw set up with the defaults |
| Guarantees.QueueIsEmptyOnArrival | src/cwdaemon.c:902-917 | No request ever finds another in the queue; the queue-full branch is dead and the queue holds at most 256 bytes |
| Guarantees.PttPinNeedsAutoAndDelay | src/cwdaemon.c:546-594 | In every state of every run the delay is 0 to 50 ms, and with validated pins a raised PTT pin means automatic PTT and a delay above 0 |
| SharedPins.PttPinExactly | src/cwdaemon.c:2128-2133 | A raised PTT pin means automatic PTT on all runs if and only if the pins the daemon was launched with differ or one is opted out; otherwise a client that switches to a tty, sets the delay to 0 and has a letter keyed raises it |
| Guarantees.LibcwMirrorsDaemon | src/cwdaemon.c:1155-1233 | With the output open, libcw runs with the daemon's speed, weighting, volume (or 0 with tone 0), tone and sound system |
| Guarantees.PendingReplyFits | src/cwdaemon.c:1473-1474 | A pending reply has at most 255 characters, so CRLF is appended whole |
| Guarantees.AbortIsFinal | src/cwdaemon.c:993-1012 | After ABORT in character mode, however long libcw runs, nothing is sent, no line is raised and PTT is off; in word mode it changes nothing |
| Guarantees.TuneIsReleased | src/cwdaemon.c:612-627 | Tuning queues a tone per second and a last character, with PTT on if there is a delay, and PTT comes off afterwards |
| Effects.SpeedIsSet | src/cwdaemon.c:965-970 | ESC 2 with a number in range: the whole new state, with libcw told that speed and nothing else done; out of range nothing changes |
| Effects.ToneIsSet | src/cwdaemon.c:971-992 | ESC 3: with 0 libcw's volume is 0; otherwise libcw has that frequency and the current volume again; out of range nothing changes |
| Effects.WeightingIsSet | src/cwdaemon.c:1034-1043 | ESC 7: libcw has 0.6 times the number plus 50, cut to an integer |
| Effects.VolumeIsSet | src/cwdaemon.c:1228-1233 | ESC g: libcw has that volume |
| Effects.DelayIsSet | src/cwdaemon.c:1100-1138 | ESC d: at most 50 ms, and 0 turns PTT off with its pin down; a negative number changes nothing |
| Effects.ManualPttOn | src/cwdaemon.c:2041-2050 | ESC a with a number other than 0: manual PTT on; with a delay also automatic PTT and the pin up unless it was on already; without one no line moves |
| Effects.ManualPttOff | src/cwdaemon.c:2052-2071 | ESC a0: only under manual PTT; with at most one tone left PTT is off and its pin down, otherwise it turns into automatic PTT and no line moves |
| Effects.TuneIs | src/cwdaemon.c:612-627 | ESC c with 1 to 10: flush, PTT as for a text, the current tone for a second each time, and an `e`; any other number does nothing |
| Effects.WordModeIsSet | src/cwdaemon.c:1027-1033 | ESC 6 sets word mode and nothing else |
| Effects.AbortIs | src/cwdaemon.c:993-1012 | ESC 4: nothing in word mode; otherwise no tone is left, PTT is off with its pin down if it was on, and a waiting client gets "break" and CRLF |
| Effects.ReplyIsPrepared | src/cwdaemon.c:1235-1253 | ESC h: the text with its `h` is the pending reply for this client |
| Effects.OtherCodesDoNothing | src/cwdaemon.c:947-1254 | Any other code does nothing |
| Effects.NoCodeDoesNothing | src/cwdaemon.c:883-947 | ESC alone or a line end alone does nothing |
| Effects.MarkDrivesKeyLine | src/ttys.c:224-239 | A mark raises the keying line of the tty, its end lowers it, and no other line moves |
| ReplyLedger.EveryReplyIsAccountedFor | src/cwdaemon.c:827-848 | On every run, replies prepared are those sent, superseded, replaced by "break", dropped and at most one pending; every datagram goes to the client of the latest request that asked for a reply, with the text that this request asked for, one CRLF and at most 257 bytes, and settles it |
| ReplyLedger.StepBalances | src/cwdaemon.c:1454-1486 | Every single event keeps that ledger, which takes texts and addresses from the requests, in agreement with the daemon's flag, buffer and address |
| ReplyLedger.EscapedSettles | src/cwdaemon.c:932-1257 | Of the escaped requests only ESC h prepares a reply, only ABORT sends anything, and only RESET, delay 0 and idle manual PTT "off" lose a reply |
| Restart.ResetIsRestart | src/cwdaemon.c:948-964 | After a RESET that opened the output, at any point of any run, the daemon does whatever comes next exactly as one launched afresh with the same defaults and command line plus a `-d` for every device that clients switched to: line changes, libcw calls and datagrams, event by event |
| Restart.RunningLike | src/cwdaemon.c:2413-2495 | At any point of any run, devices, names, descriptors and (reset) lines are what that longer command line leads to |
| Restart.StepAlike | src/cwdaemon.c:827-848 | A reply that is not pending, its address and the last client's address never show in what the daemon does |
| Restart.FreshLaunchExactly | src/cwdaemon.c:2114-2135 | That fresh daemon can be launched if and only if the running one has the null device or pins that pass validation; so always if it was launched on a tty |
| Renaming.ResetIsPlainRestart | src/cwdaemon.c:948-964 | The same RESET compared with a daemon that was given only the kind of the current device and its pins on the command line: the same trace up to descriptor numbers, and it can be launched if and only if the device is null or the pins pass validation |
| Renaming.StepTwins | src/ttys.c:169-196 | Descriptor numbers, names and line states never show in what the daemon does but as the numbers in its ioctls |
| Renaming.NumberingIsOneToOne | src/ttys.c:169-196 | The renumbering confuses no two descriptors in use or to come |
| KeyingTarget.KeyedDevice | src/cwdaemon.c:1045-1051 | On every run, keying is registered for the current device or for none, and which one follows from the last start, RESET, CWDEVICE or valid SOUND_SYSTEM request |
| DeviceBooks.DescriptorsBalance | src/ttys.c:87-196 | Opened less closed descriptors is 1 with a tty and 0 otherwise, the open one is the tty's, and none is closed twice |
| DeviceBooks.NothingLeaksAtExit | src/cwdaemon.c:2362-2382 | After exit every descriptor was closed once and every name freed once |
| DeviceBooks.PinsAreIndependent | src/ttys.c:224-267 | On an open tty, keying leaves the PTT line alone and PTT the keying line if and only if the pins pass validation |
| DeviceBooks.PinsStaySeparate | src/cwdaemon.c:2085-2135 | Launched on a tty, with any `-o` options, the pins never change and stay independent over all runs and device switches |
| DeviceBooks.UnvalidatedPins | src/cwdaemon.c:2128-2133 | A command line that ends on the null device starts a daemon with both pins on one line |
| DriverOptions.FoundExactly | src/utils.c:86-127 | A value is found exactly in keyword, `=`, value, with no space around the first `=`, the keyword in any case and the value possibly empty |
| DriverOptions.OptionExactly | src/ttys.c:281-321 | A pin is chosen exactly by `key` or `ptt`, `=`, and `dtr`, `rts` or `none`, in any case |
| Decimal.AcceptedExactly | src/utils.c:133-157 | Accepted are exactly the strings of spaces, optional sign and digits whose value is in the range of a C long |
| Decimal.NumeralIsParsed | src/utils.c:133-157 | A numeral gives its value, or nothing if that is out of range |
| Decimal.PrintThenParse | src/utils.c:146-156 | Printing a number and parsing it gives it back if and only if it is a C long |
| Decimal.LeadingZeros | src/utils.c:146-156 | Leading zeros change nothing |
| Requests.TextArrives | src/socket.c:185-193 | A text of up to 256 bytes arrives as it is, whatever CRs and LFs are behind it, cut or not |
| Requests.TextEndsAtNul | src/socket.c:185-193 | A text that the client ends with NUL arrives up to there, CRs and LFs before the NUL included, whatever is behind it |
| Requests.LongTextIsCut | src/cwdaemon.c:872-890 | A longer text is cut at 256 bytes and the CRs and LFs before the cut are trimmed |
| Requests.NumberIsTaken | src/cwdaemon.c:1784-1965 | Any C long that a client prints into a speed, tone, weighting, volume or delay request, with any line end, becomes that parameter if it is in range (a delay above 50 counts as 50), and otherwise the request changes nothing |
| Requests.GarbageIsIgnored | src/cwdaemon.c:1784-2040 | A numeric request without a number changes nothing |
| Printable.GetPrintable | tests/library/string_utils.c:57-136 | The buffer ends up with the whole encoding if it fits, otherwise with the longest run of whole forms that fits and `#` to the end; always printable and NUL-terminated, no write outside |
| Printable.EnoughRoom | tests/library/test_defines.h:50 | With 6 * n + 1 bytes the `#` exit is never taken |
| Printable.GlyphTable | tests/library/string_utils.c:63-121 | The form of every byte: itself from 32 to 126, `{NUL}`, `{CR}`, `{LF}`, `{ESC}`, or two hexadecimal digits |
| Printable.DecodeEncodedExactly | tests/library/string_utils.c:49-56 | An input can be decoded again if and only if no form such as `{CR}` is written out in it |
| Printable.DecodeEncoded | tests/library/string_utils.c:49-56 | So input without `{` always can |
| Printable.EncodeDecoded | tests/library/string_utils.c:57-136 | Every printable text is the encoding of what it decodes to |
| Printable.AmbiguousExactly | tests/library/string_utils.c:49-56 | Another input has the same encoding if and only if the input has a byte that is not printable or a form written out |
| Daemon.Strlen | src/cwdaemon.c:912 | The first NUL of a buffer, found by a scan |
| Daemon.Append | src/cwdaemon.c:912-913 | A bounded append at the terminating NUL never leaves the buffer and keeps it terminated |
| Daemon.TrimEol | src/socket.c:185-191 | The loop leaves the longest prefix without trailing CR and LF, with NULs behind it |
| Daemon.RecvFrom | src/socket.c:143-194 | The zeroed buffer of 257 bytes holds the trimmed datagram as a C string |
| Daemon.Cwdaemon.DriveLine | src/ttys.c:224-267 | An ioctl sets or clears one line, only on an open descriptor, or nothing if the pin is opted out |
| Daemon.Cwdaemon.CopyReply | src/cwdaemon.c:841-842 | The copy stays inside the reply buffer and leaves exactly the given characters in it |
| Daemon.Cwdaemon.PrepareReply | src/cwdaemon.c:827-848 | The flag, the address and the buffer hold the request's reply, with room for CRLF |
| Daemon.Cwdaemon.SendTo | src/socket.c:109-138 | The assertion about CRLF is a precondition that every caller meets |
| Daemon.Cwdaemon.AppendCrlf | src/cwdaemon.c:1473-1474 | The buffer holds the reply and one CRLF, uncut |
| Daemon.Cwdaemon.SendReply | src/cwdaemon.c:1454-1510 | What is sent from the buffer is what the machine sends |
| Daemon.Cwdaemon.LowCallback | src/cwdaemon.c:1424-1515 | Reading the first byte of the queue decides between release and reply as the machine does |
| Daemon.Cwdaemon.SumSigns | src/cwdaemon.c:1287-1290 | The inner loop reaches the end of the run with the speed summed, inside a C int |
| Daemon.Cwdaemon.PlayItem | src/cwdaemon.c:1280-1358 | One round of the loop emits the commands of the item under the cursor and arrives where the interpreter does |
| Daemon.Cwdaemon.PlayItems | src/cwdaemon.c:1279-1359 | The loop ends and does what the interpreter says, although a caret does not advance and the buffer is rewritten meanwhile |
| Daemon.Cwdaemon.PlayRequest | src/cwdaemon.c:1273-1367 | The in-place player refines the interpreter over the immutable text, under any interleaving of callbacks |
| Daemon.Cwdaemon.Abort | src/cwdaemon.c:993-1012 | "break" meets the CRLF assertion, and the queue is emptied through its first byte |
| Daemon.Cwdaemon.ProbeTty | src/ttys.c:87-120 | Probing keeps no descriptor unless it is a tty's |
| Daemon.Cwdaemon.DevFree | src/ttys.c:186-196 | A tty is reset and its open descriptor closed |
| Daemon.Cwdaemon.CwdeviceSet | src/cwdaemon.c:2413-2495 | Only open descriptors are closed and only live names freed while devices are switched as the machine does |
| Daemon.Cwdaemon.Exit | src/cwdaemon.c:2362-2382 | The exit handlers close and free only what is open and live |
| Daemon.Cwdaemon.HandleEscaped | src/cwdaemon.c:932-1257 | The code and payload read from the request buffer select the machine's step |
| Daemon.Cwdaemon.Receive | src/cwdaemon.c:864-923 | From the bytes of a datagram in a buffer to the machine's reaction |
| Daemon.Cwdaemon.Handle | src/cwdaemon.c:2271-2304 | In a safe state any event is handled without violating a bound, takes the machine's step and leaves a safe state |
| Daemon.Cwdaemon.constructor | src/cwdaemon.c:2325-2350 | The state before the command line is read |
| Daemon.Cwdaemon.OptParse | src/ttys.c:281-321 | A driver option changes one pin and lowers the chosen line of the open descriptor |
| Daemon.Cwdaemon.Start | src/cwdaemon.c:2143-2276 | The rest of main up to its loop, refused with invalid pins or without sound output, ends in a safe state |

## Left out

- Parallel port (`src/lp.c`) with its footswitch, SSB way and band switch: wrappers around ioctls; requests `b` and `e`
  do nothing on the devices modelled here.
- Sockets, `select`, forking, logging, `getopt`, option parsers other than `-d` and `-o`: a datagram is a text with a
  client address, the other options only choose the defaults.
- `exit` on a failing ioctl or `recvfrom`, and allocation failure in `strdup`.
- `build_full_device_path`: it only chooses the path that the probe opens; the probe's answer is part of the event.
- libcw itself: a new generator has its own parameters, of which only the gap of 0 is known; calls without a generator only update its parameters; flushing ends all tones at once; the retries for
  OSS are one answer; waiting for the empty queue and the sleep in `cwdaemon_set_ptt_on` take no time.
- Callbacks inside an escaped request: each escaped request is one step; libcw's thread acts between requests and
  between commands of the player.
- When libcw keys: a mark can start whenever a generator runs with tones queued, and end whenever one runs; which tones
  are marks is not modelled.
- Memory-level races between libcw's thread and the main thread: whole callbacks are interleaved.
- Floating point in the weighting formula: 0.6 * w + 50 is taken exactly and truncated.
- Reuse of descriptor numbers: each successful open gives a fresh number, which makes double closing visible.
- Values wider than a C long in `int` variables: every parser checks the range before it narrows, so nothing is lost.
- The log threshold and the inactivity counter, which nothing else depends on.
- Guarantees.PttPinNeedsAutoAndDelay: needs validated pins; SharedPins.PttPinExactly shows that this cannot be dropped.
- Printable.GetPrintable: needs a buffer as long as the longest form in the input, because the unsigned `size - 6` of
  the source wraps below that; 6 bytes always suffice.
- Player.RunBelowMaximum: is about runs that do not exceed the maximum; runs that meet both limits on the way have no
  condition short of following them sign by sign.
