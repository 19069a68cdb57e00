/** The DMA engine of the CC2530 (s51.src/CC2530DMA.cc): five channel state machines that are
    stepped in index order over one shared memory. */
module DmaModel {

  type Byte = b: int | 0 <= b < 256

  /** External RAM; an address that was never written holds 0. */
  type Mem = map<int, Byte>

  function Read(m: Mem, a: int): Byte { if a in m then m[a] else 0 }

  datatype State = Idle | LoadConfig | Armed | Transfer | Disarm

  /** A channel.  `irq` is its bit in DMAIRQ, `ircon` whether it raised the shared interrupt. */
  datatype Channel = Channel(
    state: State, config: int, s: int, d: int, count: int, len: int, vlen: int,
    srcInc: int, destInc: int, word: bool, single: bool, repeated: bool, itMask: bool,
    trigEvent: int, armed: bool, triggered: bool, irq: bool, ircon: bool)

  // ----- loading a configuration (s51.src/CC2530DMA.cc:242-327) -----

  /** The three high bits of the fifth configuration byte. */
  function Vlen(m: Mem, c: int): int { Read(m, c + 4) / 32 }

  function Len(m: Mem, c: int): (r: int)
    ensures 0 <= r <= 0x1FFF
  {
    Read(m, c + 4) % 32 * 256 + Read(m, c + 5)
  }

  function Min(a: int, b: int): int { if a < b then a else b }

  function VlenDelta(vlen: int): int {
    match vlen
    case 1 => 1
    case 3 => 2
    case 4 => 3
    case _ => 0
  }

  /** LEN, or the first source byte plus a constant if that is less. */
  function TransferCount(vlen: int, len: int, first: Byte): int {
    if vlen == 0 || vlen == 7 then len
    else if vlen <= 4 then Min(len, first + VlenDelta(vlen))
    else Min(len, first)
  }

  function Increment(code: int): int {
    match code
    case 0 => 0
    case 1 => 1
    case 2 => 2
    case _ => -1
  }

  /** The channel as its configuration block describes it; everything else is reset, the armed bit
      and a pending trigger included. */
  function Loaded(ch: Channel, m: Mem): Channel {
    var c := ch.config;
    var s := Read(m, c) * 256 + Read(m, c + 1);
    var mode, inc := Read(m, c + 6), Read(m, c + 7);
    Channel(
      Armed, 0, s, Read(m, c + 2) * 256 + Read(m, c + 3),
      TransferCount(Vlen(m, c), Len(m, c), Read(m, s)), Len(m, c), Vlen(m, c),
      Increment(inc / 64), Increment(inc / 16 % 4),
      mode / 128 == 1, mode / 32 % 2 == 0, mode / 64 % 2 == 1, inc / 8 % 2 == 1,
      mode % 32, false, false, ch.irq, ch.ircon)
  }

  // ----- one transfer (s51.src/CC2530DMA.cc:216-238) -----

  datatype Cell = Cell(addr: int, val: Byte)

  function Apply(m: Mem, ws: seq<Cell>): Mem {
    if ws == [] then m else Apply(m, ws[..|ws| - 1])[ws[|ws| - 1].addr := ws[|ws| - 1].val]
  }

  /** Where the second byte of a word lies, seen from the first. */
  function Beside(ch: Channel): int { if ch.destInc >= 0 then 1 else -1 }

  /** The bytes that one transfer writes.  The second byte is read after the first was written. */
  function Moved(ch: Channel, m: Mem): seq<Cell> {
    var first := Cell(ch.d, Read(m, ch.s));
    if !ch.word then [first]
    else
      var m1 := m[first.addr := first.val];
      [first, Cell(ch.d + Beside(ch), Read(m1, ch.s + Beside(ch)))]
  }

  // ----- one step of a channel (s51.src/CC2530DMA.cc:330-396) -----

  /** The channel after a step.  `m` is the memory before it. */
  function Stepped(ch: Channel, m: Mem): Channel {
    match ch.state
    case Idle => if ch.armed then ch.(state := LoadConfig) else ch
    case LoadConfig => Loaded(ch, m)
    case Armed => if ch.triggered then ch.(state := Transfer, triggered := false) else ch
    case Transfer =>
      var c1 := ch.(s := ch.s + ch.srcInc, d := ch.d + ch.destInc, count := ch.count - 1);
      if c1.count <= 0 then
        c1.(irq := true, ircon := ch.ircon || ch.itMask,
            state := if ch.repeated then LoadConfig else Disarm)
      else if ch.single && !ch.triggered then c1.(state := Armed)
      else c1
    case Disarm => ch.(armed := false, state := Idle)
  }

  function Written(ch: Channel, m: Mem): seq<Cell> {
    if ch.state == Transfer then Moved(ch, m) else []
  }

  // ----- ticks -----

  /** What a register write, if there was one, says to a channel. */
  datatype BitWrite = NoWrite | Set(bit: bool)

  /** What happens to a channel between two ticks: DMAARM and DMAREQ writes, trigger events, DMAIRQ
      writes, which also mask, and the configuration address that the SFRs give it at the tick
      (s51.src/CC2530DMA.cc:145-213, 399-432). */
  datatype Input = Input(arm: BitWrite, request: bool, events: set<int>, irq: BitWrite, config: int)

  function Given(ch: Channel, x: Input): Channel {
    ch.(armed := if x.arm.Set? then x.arm.bit else ch.armed,
        triggered := ch.triggered || x.request || ch.trigEvent in x.events,
        irq := if x.irq.Set? then x.irq.bit else ch.irq,
        itMask := ch.itMask || x.irq == Set(true), config := x.config)
  }

  datatype Engine = Engine(ch: seq<Channel>, mem: Mem)

  predicate Five(e: Engine) { |e.ch| == 5 }

  function StepChannel(e: Engine, i: int): (r: Engine)
    requires Five(e) && 0 <= i < 5
    ensures Five(r)
  {
    Engine(e.ch[i := Stepped(e.ch[i], e.mem)], Apply(e.mem, Written(e.ch[i], e.mem)))
  }

  function StepChannels(e: Engine, k: nat): (r: Engine)
    requires Five(e) && k <= 5
    ensures Five(r)
  {
    if k == 0 then e else StepChannel(StepChannels(e, k - 1), k - 1)
  }

  function GivenAll(e: Engine, xs: seq<Input>): (r: Engine)
    requires Five(e) && |xs| == 5
    ensures Five(r)
  {
    e.(ch := seq(5, i requires 0 <= i < 5 => Given(e.ch[i], xs[i])))
  }

  function Tick(e: Engine, xs: seq<Input>): (r: Engine)
    requires Five(e) && |xs| == 5
    ensures Five(r)
  {
    StepChannels(GivenAll(e, xs), 5)
  }
}
