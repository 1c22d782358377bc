/** What lies outside cwdaemon: libcw with its generator and tone queue, the operating system with its
    descriptors, modem lines and heap strings, and the trace of what the daemon did to them. */
module World {
  import opened Basics
  import opened DriverOptions

  /** The two keying devices of this model (src/cwdaemon.c: cwdevice_ttys, cwdevice_null). */
  datatype Kind = Tty | NullDevice

  datatype AudioSystem = NullAudio | Console | Soundcard | Alsa | Pulse | Oss

  // ---------- libcw ----------

  datatype Generator = NoGenerator | Idle(system: AudioSystem) | Running(system: AudioSystem)

  /** libcw's parameters, registered callbacks and the length of its tone queue. */
  datatype Libcw = Libcw(gen: Generator, speed: int, frequency: int, volume: int, gap: int, weighting: int,
                         lowCallback: bool, keying: Option<Kind>, tones: nat)

  /** A call into libcw, together with libcw's answer where it has one. */
  datatype CwCall =
    | NewGenerator(system: AudioSystem, created: bool)
    | StartGenerator(started: bool)
    | StopGenerator
    | DeleteGenerator
    | RegisterLowCallback
    | RegisterKeying(target: Option<Kind>)
    | SetFrequency(hz: int)
    | SetSpeed(wpm: int)
    | SetVolume(percent: int)
    | SetGap(dots: int)
    | SetWeighting(weight: int)
    | SendCharacter(c: char, tones: nat)
    | QueueTone(microseconds: nat, hz: int)
    | FlushQueue
    | WaitForQueue

  /** libcw's own parameters for a new generator (`CW_*_INITIAL`), of which nothing is known but that its gap
      is 0. */
  datatype Initial = Initial(speed: int, frequency: int, volume: int, weighting: int)

  const CW_INITIAL: Initial

  function NewLibcw(l: Libcw, system: AudioSystem): Libcw {
    l.(gen := Idle(system), speed := CW_INITIAL.speed, frequency := CW_INITIAL.frequency, volume := CW_INITIAL.volume,
       gap := 0, weighting := CW_INITIAL.weighting)
  }

  function Enqueue(l: Libcw, n: nat): Libcw {
    if l.gen.NoGenerator? then l else l.(tones := l.tones + n)
  }

  /** Deleting a generator loses its tone queue and the callbacks (README.dev.org, item R0030). */
  function AfterCall(l: Libcw, c: CwCall): Libcw {
    match c
    case NewGenerator(system, created) => if created then NewLibcw(l, system) else l
    case StartGenerator(started) => if started && l.gen.Idle? then l.(gen := Running(l.gen.system)) else l
    case StopGenerator => if l.gen.Running? then l.(gen := Idle(l.gen.system)) else l
    case DeleteGenerator => l.(gen := NoGenerator, lowCallback := false, keying := None, tones := 0)
    case RegisterLowCallback => l.(lowCallback := true)
    case RegisterKeying(target) => l.(keying := target)
    case SetFrequency(hz) => l.(frequency := hz)
    case SetSpeed(wpm) => l.(speed := wpm)
    case SetVolume(percent) => l.(volume := percent)
    case SetGap(dots) => l.(gap := dots)
    case SetWeighting(weight) => l.(weighting := weight)
    case SendCharacter(_, tones) => Enqueue(l, tones)
    case QueueTone(_, _) => Enqueue(l, 1)
    case FlushQueue => l.(tones := 0)
    case WaitForQueue => l
  }

  /** cwdaemon weights run from -50 to 50, libcw ones from 20 to 80: 0.6 * w + 50, truncated. */
  function LibcwWeighting(w: int): int { (3 * w + 250) / 5 }

  /** The formula of the source, over the reals. */
  lemma WeightingFormula(w: int)
    ensures LibcwWeighting(w) == (w as real * 0.6 + 50.0).Floor
  {
    var x := 3 * w + 250;
    assert (w as real * 0.6 + 50.0) == x as real / 5.0;
    var q, r := x / 5, x % 5;
    assert x as real / 5.0 == q as real + r as real / 5.0;
  }

  // ---------- operating system ----------

  /** `opens` counts the calls of open() that gave a descriptor and numbers them; `open` holds the raised
      lines of each one still open; `closed` is the history of close(). Likewise strdup() and free(). */
  datatype Os = Os(opens: nat, open: map<int, set<Line>>, closed: seq<int>, strings: nat, freed: seq<nat>)

  function OpenFd(os: Os, lines: set<Line>): Os {
    os.(opens := os.opens + 1, open := os.open[os.opens := lines])
  }

  function CloseFd(os: Os, fd: int): Os {
    os.(open := os.open - {fd}, closed := os.closed + [fd])
  }

  function SetLine(os: Os, fd: int, line: Line, on: bool): Os {
    if fd in os.open then
      os.(open := os.open[fd := if on then os.open[fd] + {line} else os.open[fd] - {line}])
    else os
  }

  function Strdup(os: Os): Os { os.(strings := os.strings + 1) }

  function Free(os: Os, id: nat): Os { os.(freed := os.freed + [id]) }

  // ---------- trace ----------

  type Address = int

  datatype Action =
    | Ioctl(fd: int, line: Line, on: bool)
    | Cw(call: CwCall)

  /** A reply prepared for a client, or a datagram sent: `after` says how many actions came before it in the
      same step. */
  datatype Letter =
    | Prepared(address: Address, text: string)
    | Sent(after: nat, address: Address, text: string)
}
