/** From the configuration block to the data: a channel that is armed loads the parameters that were
    written into its block and, at its trigger, moves the block's source to the block's destination. */
module DmaConfig {
  import opened Bits
  import opened DmaModel
  import opened DmaIsolation
  import opened DmaBlock

  // ----- writing a block -----

  datatype Stride = Still | Up1 | Up2 | Down1

  function StrideCode(s: Stride): int {
    match s
    case Still => 0
    case Up1 => 1
    case Up2 => 2
    case Down1 => 3
  }

  function StrideStep(s: Stride): int {
    match s
    case Still => 0
    case Up1 => 1
    case Up2 => 2
    case Down1 => -1
  }

  datatype Job = Job(
    source: int, destination: int, vlen: int, len: int, word: bool, block: bool, repeats: bool,
    trigger: int, sourceStride: Stride, destinationStride: Stride, interrupts: bool, rest: int)

  /** Every field fits into its bits; `rest` stands for M8 and the priority, which nothing uses. */
  predicate IsJob(j: Job) {
    && 0 <= j.source < 0x10000 && 0 <= j.destination < 0x10000 && 0 <= j.vlen < 8
    && 0 <= j.len < 0x2000 && 0 <= j.trigger < 32 && 0 <= j.rest < 8
  }

  /** The eight bytes of a configuration block. */
  function Block(j: Job): (r: seq<Byte>)
    requires IsJob(j)
    ensures |r| == 8
  {
    [j.source / 256, j.source % 256, j.destination / 256, j.destination % 256,
     j.vlen * 32 + j.len / 256, j.len % 256,
     128 * Bit(j.word) + 64 * Bit(j.repeats) + 32 * Bit(j.block) + j.trigger,
     64 * StrideCode(j.sourceStride) + 16 * StrideCode(j.destinationStride) + 8 * Bit(j.interrupts) + j.rest]
  }

  /** The block of `j` lies at `c`. */
  predicate Holds(m: Mem, c: int, j: Job)
    requires IsJob(j)
  {
    forall k :: 0 <= k < 8 ==> HoldsByte(m, c, j, k)
  }

  predicate HoldsByte(m: Mem, c: int, j: Job, k: int)
    requires IsJob(j) && 0 <= k < 8
  {
    Read(m, c + k) == Block(j)[k]
  }

  /** How much more than the first source byte a variable length is; 0 and 7 fix the length. */
  function Extra(vlen: int): int {
    match vlen
    case 1 => 1
    case 3 => 2
    case 4 => 3
    case _ => 0
  }

  /** `n` units: LEN, or less if the length is variable and the first source byte says so. */
  predicate IsCount(j: Job, first: Byte, n: int) {
    if j.vlen == 0 || j.vlen == 7 then n == j.len
    else n <= j.len && n <= first + Extra(j.vlen) && (n == j.len || n == first + Extra(j.vlen))
  }

  /** The channel has the parameters of the job and is at its start. */
  predicate HasJob(ch: Channel, j: Job, n: int) {
    && ch.s == j.source && ch.d == j.destination && ch.count == n && ch.word == j.word
    && ch.single == !j.block && ch.repeated == j.repeats && ch.trigEvent == j.trigger
    && ch.srcInc == StrideStep(j.sourceStride) && ch.destInc == StrideStep(j.destinationStride)
  }

  // ----- reading it back -----

  lemma WordOf(w: int)
    requires 0 <= w < 0x10000
    ensures w / 256 * 256 + w % 256 == w
  {
  }

  lemma LengthReadsBack(vlen: int, len: int)
    requires 0 <= vlen < 8 && 0 <= len < 0x2000
    ensures var b := vlen * 32 + len / 256; b / 32 == vlen && b % 32 * 256 + len % 256 == len
  {
  }

  lemma ModeReadsBack(word: bool, repeats: bool, block: bool, trigger: int)
    requires 0 <= trigger < 32
    ensures var b := 128 * Bit(word) + 64 * Bit(repeats) + 32 * Bit(block) + trigger;
      && (b / 128 == 1) == word && (b / 64 % 2 == 1) == repeats && (b / 32 % 2 == 0) == !block
      && b % 32 == trigger
  {
  }

  lemma StridesReadBack(s: Stride, d: Stride, interrupts: bool, rest: int)
    requires 0 <= rest < 8
    ensures var b := 64 * StrideCode(s) + 16 * StrideCode(d) + 8 * Bit(interrupts) + rest;
      && Increment(b / 64) == StrideStep(s) && Increment(b / 16 % 4) == StrideStep(d)
      && (b / 8 % 2 == 1) == interrupts
  {
    var b := 64 * StrideCode(s) + 16 * StrideCode(d) + 8 * Bit(interrupts) + rest;
    assert b / 64 == StrideCode(s);
    assert b / 16 == 4 * StrideCode(s) + StrideCode(d);
    assert b / 8 == 2 * (4 * StrideCode(s) + StrideCode(d)) + Bit(interrupts);
  }

  lemma BlockBytes(m: Mem, c: int, j: Job)
    requires IsJob(j) && Holds(m, c, j)
    ensures var b := Block(j);
      && Read(m, c) == b[0] && Read(m, c + 1) == b[1] && Read(m, c + 2) == b[2] && Read(m, c + 3) == b[3]
      && Read(m, c + 4) == b[4] && Read(m, c + 5) == b[5] && Read(m, c + 6) == b[6] && Read(m, c + 7) == b[7]
  {
    hide Read, Block;
    assert HoldsByte(m, c, j, 0) && HoldsByte(m, c, j, 1) && HoldsByte(m, c, j, 2) && HoldsByte(m, c, j, 3);
    assert HoldsByte(m, c, j, 4) && HoldsByte(m, c, j, 5) && HoldsByte(m, c, j, 6) && HoldsByte(m, c, j, 7);
  }

  /** A channel loaded from a written block has exactly the parameters that were written. */
  lemma LoadsWhatWasWritten(ch: Channel, m: Mem, j: Job)
    requires IsJob(j) && Holds(m, ch.config, j)
    ensures var r := Loaded(ch, m);
      && r.state == Armed && !r.triggered && HasJob(r, j, r.count) && IsCount(j, Read(m, j.source), r.count)
      && r.len == j.len && r.vlen == j.vlen && r.itMask == j.interrupts
      && !r.armed && r.irq == ch.irq && r.ircon == ch.ircon
  {
    hide Increment, Read, Holds, TransferCount, IsCount;
    BlockBytes(m, ch.config, j);
    WordOf(j.source);
    WordOf(j.destination);
    LengthReadsBack(j.vlen, j.len);
    ModeReadsBack(j.word, j.repeats, j.block, j.trigger);
    StridesReadBack(j.sourceStride, j.destinationStride, j.interrupts, j.rest);
    CountIs(j, Read(m, j.source));
  }

  lemma CountIs(j: Job, first: Byte)
    requires IsJob(j)
    ensures IsCount(j, first, TransferCount(j.vlen, j.len, first))
  {
  }

  // ----- from idle to the trigger -----

  /** Channel `i` is idle at tick `a` and then armed; at the next tick its configuration address points
      to the block of `j`; its first signal after that comes at tick `b`. */
  ghost predicate Starts(w: Setting, i: int, a: nat, b: nat, j: Job) {
    && Fits(w) && 0 <= i < 5 && IsJob(j) && a + 2 <= b < |w.xs|
    && Own(w, i, a).ch.state == Idle && w.xs[a][i].arm == Set(true)
    && Holds(Own(w, i, a + 1).mem, w.xs[a + 1][i].config, j)
    && (forall n :: a + 2 <= n < b ==> !Signals(w.xs[n][i], j.trigger))
    && Signals(w.xs[b][i], j.trigger)
  }

  /** The count that the channel loads. */
  function JobCount(w: Setting, i: int, a: nat): int
    requires Fits(w) && 0 <= i < 5 && a + 2 <= |w.xs|
  {
    Own(w, i, a + 2).ch.count
  }

  lemma OneTick(w: Setting, i: int, n: nat)
    requires Fits(w) && 0 <= i < 5 && n < |w.xs|
    ensures var p, r := Own(w, i, n), Own(w, i, n + 1);
      var c := Given(p.ch, w.xs[n][i]);
      r.ch == Stepped(c, p.mem) && (c.state != Transfer ==> r.mem == p.mem)
  {
    hide Stepped;
    NothingApplied(Own(w, i, n).mem);
  }

  lemma Loads(w: Setting, i: int, a: nat, b: nat, j: Job)
    requires Starts(w, i, a, b, j)
    ensures var p, r := Own(w, i, a + 1), Own(w, i, a + 2);
      && r.ch.state == Armed && !r.ch.triggered && HasJob(r.ch, j, r.ch.count)
      && IsCount(j, Read(p.mem, j.source), r.ch.count)
      && Own(w, i, a).mem == p.mem == r.mem
  {
    hide Own, Loaded, Holds, HasJob, IsCount;
    OneTick(w, i, a);
    OneTick(w, i, a + 1);
    var p := Own(w, i, a + 1);
    assert p.ch.state == LoadConfig;
    LoadsWhatWasWritten(Given(p.ch, w.xs[a + 1][i]), p.mem, j);
  }

  /** Until the signal the channel waits. */
  lemma {:induction false} Waits(w: Setting, i: int, a: nat, b: nat, j: Job, n: nat)
    requires Starts(w, i, a, b, j) && a + 2 <= n <= b
    ensures var q, r := Own(w, i, a + 2), Own(w, i, n);
      r.ch.state == Armed && !r.ch.triggered && HasJob(r.ch, j, q.ch.count) && r.mem == q.mem
  {
    hide Own, Loaded, Holds, IsCount;
    if n == a + 2 {
      Loads(w, i, a, b, j);
    } else {
      Waits(w, i, a, b, j, n - 1);
      OneTick(w, i, n - 1);
    }
  }

  lemma TriggersAt(w: Setting, i: int, a: nat, b: nat, j: Job)
    requires Starts(w, i, a, b, j) && j.block
    ensures Triggers(w, i, b) && HasJob(Own(w, i, b).ch, j, JobCount(w, i, a))
    ensures IsCount(j, Read(Own(w, i, a + 1).mem, j.source), JobCount(w, i, a))
  {
    hide Own, Loaded, Holds, IsCount;
    Waits(w, i, a, b, j, b);
    Loads(w, i, a, b, j);
  }

  // ----- the data -----

  /** A count of 0 moves one unit all the same. */
  function Max1(n: int): int { if n >= 1 then n else 1 }

  /** The block of the job as seen in the engine's memory, when channel `i` reads it. */
  lemma BlockIsShared(w: Setting, i: int, a: nat, j: Job)
    requires Isolated(w) && 0 <= i < 5 && IsJob(j) && a + 1 < |w.xs|
    requires Own(w, i, a + 1).ch.state == LoadConfig
    ensures var c := w.xs[a + 1][i].config;
      Holds(Own(w, i, a + 1).mem, c, j) <==> Holds(Together(w.e, w.xs, a + 1).mem, c, j)
  {
    hide Own, Together, HoldsByte;
    var c, m := w.xs[a + 1][i].config, Together(w.e, w.xs, a + 1).mem;
    var own := Own(w, i, a + 1).mem;
    forall k | 0 <= k < 8
      ensures HoldsByte(m, c, j, k) == HoldsByte(own, c, j, k)
    {
      ByteIsShared(w, i, a, j, k);
    }
    assert Holds(own, c, j) == Holds(m, c, j);
  }

  /** So is the first byte of its source. */
  lemma SourceIsShared(w: Setting, i: int, a: nat, j: Job)
    requires Isolated(w) && 0 <= i < 5 && IsJob(j) && a + 1 < |w.xs|
    requires Own(w, i, a + 1).ch.state == LoadConfig && Holds(Own(w, i, a + 1).mem, w.xs[a + 1][i].config, j)
    ensures Read(Own(w, i, a + 1).mem, j.source) == Read(Together(w.e, w.xs, a + 1).mem, j.source)
  {
    hide Own, Together, OwnReads, OwnWrites, Read, Holds;
    var c, p := w.xs[a + 1][i].config, Own(w, i, a + 1);
    OwnFootprints(w, i, a + 1);
    BlockBytes(p.mem, c, j);
    WordOf(j.source);
    var b := Given(p.ch, w.xs[a + 1][i]);
    assert b.state == LoadConfig && b.config == c;
    assert j.source in Reads(b, p.mem);
    SharedView(w, i, a + 1, j.source);
  }

  lemma ByteIsShared(w: Setting, i: int, a: nat, j: Job, k: int)
    requires Isolated(w) && 0 <= i < 5 && IsJob(j) && a + 1 < |w.xs| && 0 <= k < 8
    requires Own(w, i, a + 1).ch.state == LoadConfig
    ensures var c := w.xs[a + 1][i].config;
      HoldsByte(Own(w, i, a + 1).mem, c, j, k) == HoldsByte(Together(w.e, w.xs, a + 1).mem, c, j, k)
  {
    hide Own, Together, OwnReads, OwnWrites, Block, Read;
    var c, p := w.xs[a + 1][i].config, Own(w, i, a + 1);
    OwnFootprints(w, i, a + 1);
    var b := Given(p.ch, w.xs[a + 1][i]);
    assert b.state == LoadConfig && b.config == c;
    assert c + k in Reads(b, p.mem);
    SharedView(w, i, a + 1, c + k);
  }

  /** The same start, in terms of the engine. */
  ghost predicate EngineStarts(w: Setting, i: int, a: nat, b: nat, j: Job) {
    && Isolated(w) && 0 <= i < 5 && IsJob(j) && a + 2 <= b < |w.xs|
    && Together(w.e, w.xs, a).ch[i].state == Idle && w.xs[a][i].arm == Set(true)
    && Holds(Together(w.e, w.xs, a + 1).mem, w.xs[a + 1][i].config, j)
    && (forall n :: a + 2 <= n < b ==> !Signals(w.xs[n][i], j.trigger))
    && Signals(w.xs[b][i], j.trigger)
  }

  lemma EngineStart(w: Setting, i: int, a: nat, b: nat, j: Job)
    requires EngineStarts(w, i, a, b, j)
    ensures Starts(w, i, a, b, j)
    ensures Read(Own(w, i, a + 1).mem, j.source) == Read(Together(w.e, w.xs, a + 1).mem, j.source)
  {
    hide Own, Together, Holds, Loaded;
    TicksStayAsAlone(w, a);
    OneTick(w, i, a);
    BlockIsShared(w, i, a, j);
    SourceIsShared(w, i, a, j);
  }

  /** The units of the job lie apart: none is read from where one is written. */
  ghost predicate JobApart(j: Job, n: int) {
    forall k, l :: 0 <= k < n && 0 <= l < n ==> DestinationOf(j, k) != SourceOf(j, l)
  }

  function SourceOf(j: Job, k: int): int { j.source + k * StrideStep(j.sourceStride) }
  function DestinationOf(j: Job, k: int): int { j.destination + k * StrideStep(j.destinationStride) }

  /** Bytes: a channel that is idle, armed with a block in memory, and then signalled by its event or a
      request, leaves byte `k` of the block's source at byte `k` of the block's destination, however
      long the signal takes and whatever the other channels do on their own ground. */
  lemma ArmedMovesBytes(w: Setting, i: int, a: nat, b: nat, j: Job, n: nat, k: nat)
    requires EngineStarts(w, i, a, b, j) && j.block && !j.word && j.destinationStride != Still
    requires n == Max1(JobCount(w, i, a)) && JobApart(j, n) && k < n && b + 1 + n <= |w.xs|
    ensures IsCount(j, Read(Together(w.e, w.xs, a + 1).mem, j.source), JobCount(w, i, a))
    ensures var e, r := Together(w.e, w.xs, b), Together(w.e, w.xs, b + 1 + n);
      && Read(r.mem, DestinationOf(j, k)) == Read(e.mem, SourceOf(j, k))
      && r.ch[i].irq && r.ch[i].state == if j.repeats then LoadConfig else Disarm
  {
    hide Own, Together, Holds, Triggers, Isolated, IsCount;
    EngineStart(w, i, a, b, j);
    TriggersAt(w, i, a, b, j);
    var c := Own(w, i, b).ch;
    forall x: int, y: int | 0 <= x < n && 0 <= y < n
      ensures Dst(c, x) != Src(c, y)
    {
      assert DestinationOf(j, x) != SourceOf(j, y);
    }
    assert ByteJob(c);
    EngineMovesBytes(w, i, b, k);
  }

  /** Words, with both strides two. */
  lemma ArmedMovesWords(w: Setting, i: int, a: nat, b: nat, j: Job, n: nat, k: nat)
    requires EngineStarts(w, i, a, b, j) && j.block && j.word
    requires j.sourceStride == Up2 && j.destinationStride == Up2
    requires n == Max1(JobCount(w, i, a)) && k < 2 * n && b + 1 + n <= |w.xs|
    requires j.source + 2 * n <= j.destination || j.destination + 2 * n <= j.source
    ensures IsCount(j, Read(Together(w.e, w.xs, a + 1).mem, j.source), JobCount(w, i, a))
    ensures var e, r := Together(w.e, w.xs, b), Together(w.e, w.xs, b + 1 + n);
      && Read(r.mem, j.destination + k) == Read(e.mem, j.source + k)
      && r.ch[i].irq && r.ch[i].state == if j.repeats then LoadConfig else Disarm
  {
    hide Own, Together, Holds, Triggers, Isolated, IsCount;
    EngineStart(w, i, a, b, j);
    TriggersAt(w, i, a, b, j);
    EngineMovesWords(w, i, b, k / 2);
    assert k == 2 * (k / 2) || k == 2 * (k / 2) + 1;
  }

  /** A channel that repeats reads its block again at the tick after its last unit, and waits for the next
      signal with the same parameters; the armed bit plays no part. */
  lemma RepeatReloads(w: Setting, i: int, a: nat, j: Job)
    requires Triggers(w, i, a) && Own(w, i, a).ch.repeated && IsJob(j)
    requires var n := a + 1 + Units(Own(w, i, a).ch);
      n < |w.xs| && Holds(Own(w, i, n).mem, w.xs[n][i].config, j)
    ensures var n := a + 1 + Units(Own(w, i, a).ch);
      var r := Own(w, i, n + 1).ch;
      && r.state == Armed && !r.triggered && HasJob(r, j, r.count)
      && IsCount(j, Read(Own(w, i, n).mem, j.source), r.count)
  {
    hide Own, Loaded, Holds, HasJob, IsCount;
    var n := a + 1 + Units(Own(w, i, a).ch);
    BlockEnds(w, i, a, n - a - 1);
    OneTick(w, i, n);
    LoadsWhatWasWritten(Given(Own(w, i, n).ch, w.xs[n][i]), Own(w, i, n).mem, j);
  }

  /** One that does not is idle then, and disarmed, even if it was armed at that very tick; it stays so
      until it is armed. */
  lemma {:induction false} RestsUntilArmed(w: Setting, i: int, a: nat, n: nat)
    requires Triggers(w, i, a) && !Own(w, i, a).ch.repeated
    requires var b := a + 2 + Units(Own(w, i, a).ch);
      b <= n <= |w.xs| && forall k :: b <= k < n ==> w.xs[k][i].arm != Set(true)
    ensures Own(w, i, n).ch.state == Idle && !Own(w, i, n).ch.armed
  {
    hide Own, Loaded;
    var c := Own(w, i, a).ch;
    BlockEnds(w, i, a, Units(c));
    OneTick(w, i, n - 1);
    if n > a + 2 + Units(c) {
      RestsUntilArmed(w, i, a, n - 1);
      assert w.xs[n - 1][i].arm != Set(true);
    }
  }
}
