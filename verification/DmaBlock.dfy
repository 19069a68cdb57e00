/** Block transfers: how many units one trigger moves, when the interrupt comes, and what the
    destination holds afterwards, whatever the registers and triggers do meanwhile, and in the engine
    of five channels as well. */
module DmaBlock {
  import opened DmaModel
  import opened DmaIsolation

  /** Units that a block channel moves for one trigger: at least one, even if its count is 0. */
  function Units(ch: Channel): (n: nat)
    ensures n >= 1
  {
    if ch.count >= 1 then ch.count else 1
  }

  /** A loaded count is never more than LEN, and LEN has 13 bits. */
  lemma LoadedCount(ch: Channel, m: Mem)
    ensures var r := Loaded(ch, m); 0 <= r.count <= r.len <= 0x1FFF
  {
  }

  /** Channel `i` with its inputs of tick `n`. */
  function Before(w: Setting, i: int, n: nat): Channel
    requires Fits(w) && 0 <= i < 5 && n < |w.xs|
  {
    Given(Own(w, i, n).ch, w.xs[n][i])
  }

  /** At tick `a` channel `i`, armed and in block mode, takes a trigger. */
  predicate Triggers(w: Setting, i: int, a: nat) {
    && Fits(w) && 0 <= i < 5 && a < |w.xs|
    && Own(w, i, a).ch.state == Armed && !Own(w, i, a).ch.single && Before(w, i, a).triggered
  }

  /** The settings that no input changes. */
  predicate SameJob(c: Channel, r: Channel) {
    && r.word == c.word && r.single == c.single && r.repeated == c.repeated
    && r.srcInc == c.srcInc && r.destInc == c.destInc
  }

  /** `r` is `c` with `k` units moved and more to move. */
  predicate Underway(c: Channel, r: Channel, k: nat) {
    && r.state == Transfer && SameJob(c, r)
    && r.s == c.s + k * c.srcInc && r.d == c.d + k * c.destInc && r.count == c.count - k
  }

  lemma UnitMoved(c: Channel, r: Channel, m: Mem, k: nat)
    requires Underway(c, r, k) && !c.single && k + 1 < Units(c)
    ensures Underway(c, Stepped(r, m), k + 1)
  {
    assert k * c.srcInc + c.srcInc == (k + 1) * c.srcInc;
    assert k * c.destInc + c.destInc == (k + 1) * c.destInc;
  }

  lemma GivenStays(c: Channel, r: Channel, x: Input, k: nat)
    ensures Underway(c, r, k) ==> Underway(c, Given(r, x), k)
  {
  }

  /** Once triggered the block goes on, whatever the inputs are. */
  lemma {:induction false} BlockGoesOn(w: Setting, i: int, a: nat, k: nat)
    requires Triggers(w, i, a) && k < Units(Own(w, i, a).ch) && a + 1 + k <= |w.xs|
    ensures Underway(Own(w, i, a).ch, Own(w, i, a + 1 + k).ch, k)
  {
    hide Stepped, Given, Written, Apply, Underway;
    var c := Own(w, i, a).ch;
    if k == 0 {
      Taken(c, w.xs[a][i], Own(w, i, a).mem);
    } else {
      BlockGoesOn(w, i, a, k - 1);
      var p := Own(w, i, a + k);
      GivenStays(c, p.ch, w.xs[a + k][i], k - 1);
      UnitMoved(c, Given(p.ch, w.xs[a + k][i]), p.mem, k - 1);
    }
  }

  lemma Taken(c: Channel, x: Input, m: Mem)
    requires c.state == Armed && Given(c, x).triggered
    ensures Underway(c, Stepped(Given(c, x), m), 0) && Written(Given(c, x), m) == []
  {
  }

  /** After exactly `Units` transfers the block is over: the channel sets its interrupt flag then and
      not before, raises the shared interrupt if its mask is set at that tick, and is disarmed, or
      loads its configuration again if it repeats. */
  lemma BlockEnds(w: Setting, i: int, a: nat, k: nat)
    requires Triggers(w, i, a) && 1 <= k <= Units(Own(w, i, a).ch) && a + 1 + k <= |w.xs|
    ensures var c, b, r := Own(w, i, a).ch, Before(w, i, a + k), Own(w, i, a + 1 + k).ch;
      && b.state == Transfer
      && (k < Units(c) ==> r.state == Transfer && r.irq == b.irq && r.ircon == b.ircon)
      && (k == Units(c) ==>
            && r.state == (if c.repeated then LoadConfig else Disarm)
            && r.irq && r.ircon == (b.ircon || b.itMask))
  {
    hide Given, Written, Apply;
    var c, p := Own(w, i, a).ch, Own(w, i, a + k);
    BlockGoesOn(w, i, a, k - 1);
    GivenStays(c, p.ch, w.xs[a + k][i], k - 1);
  }

  /** The interrupt mask of a running block: as loaded, or set by any write of a 1 into its bit of DMAIRQ
      since the trigger. */
  lemma {:induction false} MaskOfBlock(w: Setting, i: int, a: nat, k: nat)
    requires Triggers(w, i, a) && k <= Units(Own(w, i, a).ch) && a + k < |w.xs|
    ensures Before(w, i, a + k).itMask
      <==> Own(w, i, a).ch.itMask || exists l :: a <= l <= a + k && w.xs[l][i].irq == Set(true)
  {
    hide Own, Underway;
    if k > 0 {
      MaskOfBlock(w, i, a, k - 1);
      MaskStays(w, i, a, k);
    }
  }

  lemma MaskStays(w: Setting, i: int, a: nat, k: nat)
    requires Triggers(w, i, a) && 1 <= k <= Units(Own(w, i, a).ch) && a + k < |w.xs|
    ensures Own(w, i, a + k).ch.itMask == Before(w, i, a + k - 1).itMask
  {
    hide Given, Own, Stepped, Underway;
    var c, p := Own(w, i, a).ch, Own(w, i, a + k - 1);
    var b := Given(p.ch, w.xs[a + k - 1][i]);
    StepOf(w, i, a + k - 1);
    if k == 1 {
      GivenState(p.ch, w.xs[a][i]);
    } else {
      BlockGoesOn(w, i, a, k - 2);
      GivenStays(c, p.ch, w.xs[a + k - 1][i], k - 2);
      UnderwayTransfers(c, b, k - 2);
    }
    MaskStep(b, p.mem);
  }

  lemma StepOf(w: Setting, i: int, n: nat)
    requires Fits(w) && 0 <= i < 5 && n < |w.xs|
    ensures Own(w, i, n + 1).ch == Stepped(Given(Own(w, i, n).ch, w.xs[n][i]), Own(w, i, n).mem)
  {
  }

  lemma UnderwayTransfers(c: Channel, r: Channel, k: nat)
    requires Underway(c, r, k)
    ensures r.state == Transfer
  {
  }

  lemma MaskStep(c: Channel, m: Mem)
    ensures c.state != LoadConfig ==> Stepped(c, m).itMask == c.itMask
  {
  }

  lemma GivenState(c: Channel, x: Input)
    ensures Given(c, x).state == c.state
  {
  }

  // ----- single transfers -----

  /** The inputs of a tick trigger a channel that waits for this event. */
  predicate Signals(x: Input, event: int) { x.request || event in x.events }

  /** Taking a trigger uses it up. */
  lemma TriggerIsTaken(w: Setting, i: int, a: nat)
    requires Fits(w) && 0 <= i < 5 && a + 1 < |w.xs|
    requires Own(w, i, a).ch.state == Armed && Before(w, i, a).triggered
    ensures Before(w, i, a + 1).triggered <==> Signals(w.xs[a + 1][i], Own(w, i, a).ch.trigEvent)
  {
    hide Written, Apply;
    assert Own(w, i, a + 1).ch == Stepped(Before(w, i, a), Own(w, i, a).mem);
  }

  /** At tick `a` channel `i`, armed and in single mode, takes a trigger. */
  predicate TriggersOne(w: Setting, i: int, a: nat) {
    && Fits(w) && 0 <= i < 5 && a + 1 < |w.xs|
    && Own(w, i, a).ch.state == Armed && Own(w, i, a).ch.single && Before(w, i, a).triggered
  }

  /** Without another trigger by the next tick, that tick moves one unit and the channel waits again;
      the last unit interrupts as in block mode. */
  lemma SingleMovesOne(w: Setting, i: int, a: nat)
    requires TriggersOne(w, i, a) && !Signals(w.xs[a + 1][i], Own(w, i, a).ch.trigEvent)
    ensures var c, p, r := Own(w, i, a).ch, Own(w, i, a + 1), Own(w, i, a + 2).ch;
      && Underway(c, p.ch, 0) && SameJob(c, r)
      && r.s == c.s + c.srcInc && r.d == c.d + c.destInc && r.count == c.count - 1
      && Own(w, i, a + 2).mem == Apply(p.mem, Moved(Before(w, i, a + 1), p.mem))
      && (c.count >= 2 ==> r.state == Armed && !r.triggered && r.irq == Before(w, i, a + 1).irq)
      && (c.count <= 1 ==> r.irq && r.state == if c.repeated then LoadConfig else Disarm)
  {
    hide Moved, Apply;
    TriggerIsTaken(w, i, a);
    Taken(Own(w, i, a).ch, w.xs[a][i], Own(w, i, a).mem);
  }

  /** A trigger that arrives before the unit is moved is not forgotten until the channel waits again, and
      it does not wait again: the rest of the block follows without further triggers. */
  lemma {:induction false} OverrunGoesOn(w: Setting, i: int, a: nat, k: nat)
    requires TriggersOne(w, i, a) && Signals(w.xs[a + 1][i], Own(w, i, a).ch.trigEvent)
    requires k < Units(Own(w, i, a).ch) && a + 1 + k < |w.xs|
    ensures Underway(Own(w, i, a).ch, Own(w, i, a + 1 + k).ch, k) && Before(w, i, a + 1 + k).triggered
  {
    hide Own, Underway, Stepped, Given;
    if k == 0 {
      FirstUnit(w, i, a);
      TriggerIsTaken(w, i, a);
    } else {
      OverrunGoesOn(w, i, a, k - 1);
      UnitFollows(w, i, a, k);
    }
  }

  lemma FirstUnit(w: Setting, i: int, a: nat)
    requires TriggersOne(w, i, a)
    ensures Underway(Own(w, i, a).ch, Own(w, i, a + 1).ch, 0)
  {
    Taken(Own(w, i, a).ch, w.xs[a][i], Own(w, i, a).mem);
  }

  lemma UnitFollows(w: Setting, i: int, a: nat, k: nat)
    requires Fits(w) && 0 <= i < 5 && 1 <= k && a + 1 + k < |w.xs| && k < Units(Own(w, i, a).ch)
    requires Underway(Own(w, i, a).ch, Own(w, i, a + k).ch, k - 1) && Before(w, i, a + k).triggered
    ensures Underway(Own(w, i, a).ch, Own(w, i, a + 1 + k).ch, k) && Before(w, i, a + 1 + k).triggered
  {
    var c, p := Own(w, i, a).ch, Own(w, i, a + k);
    var b := Before(w, i, a + k);
    assert Own(w, i, a + 1 + k).ch == Stepped(b, p.mem);
    assert (k - 1) * c.srcInc + c.srcInc == k * c.srcInc;
    assert (k - 1) * c.destInc + c.destInc == k * c.destInc;
  }

  // ----- the data, byte by byte -----

  /** Source and destination of unit `k` of a byte transfer. */
  function Src(ch: Channel, k: int): int { ch.s + k * ch.srcInc }
  function Dst(ch: Channel, k: int): int { ch.d + k * ch.destInc }

  /** No unit is read from where one is written. */
  ghost predicate Apart(ch: Channel, n: int) {
    forall j, k :: 0 <= j < n && 0 <= k < n ==> Dst(ch, j) != Src(ch, k)
  }

  lemma DestinationsDiffer(ch: Channel, j: int, k: int)
    requires ch.destInc != 0 && j != k
    ensures Dst(ch, j) != Dst(ch, k)
  {
    assert Dst(ch, j) - Dst(ch, k) == (j - k) * ch.destInc;
  }

  /** Byte mode with a destination stride, and destinations off the sources. */
  ghost predicate ByteJob(c: Channel) { !c.word && c.destInc != 0 && Apart(c, Units(c)) }

  lemma ByteStep(c: Channel, r: Channel, m: Mem, k: nat)
    requires Underway(c, r, k) && !c.word
    ensures Apply(m, Written(r, m)) == m[Dst(c, k) := Read(m, Src(c, k))]
    ensures Reads(r, m) == {Src(c, k)} && Writes(r) == {Dst(c, k)}
  {
    var ws := Written(r, m);
    assert ws == [Cell(Dst(c, k), Read(m, Src(c, k)))];
    assert ws[..0] == [];
  }

  /** Alone: the first `n` units have arrived, and nothing else has changed. */
  lemma {:induction false} BytesArrive(w: Setting, i: int, a: nat, n: nat)
    requires Triggers(w, i, a) && n <= Units(Own(w, i, a).ch) && a + 1 + n <= |w.xs|
    requires ByteJob(Own(w, i, a).ch)
    ensures var c, m, m1 := Own(w, i, a).ch, Own(w, i, a).mem, Own(w, i, a + 1 + n).mem;
      && (forall k :: 0 <= k < n ==> Read(m1, Dst(c, k)) == Read(m, Src(c, k)))
      && (forall x :: (forall k :: 0 <= k < n ==> x != Dst(c, k)) ==> Read(m1, x) == Read(m, x))
  {
    hide Src, Dst, Stepped, Written, Apply, Given, Underway;
    var c, m := Own(w, i, a).ch, Own(w, i, a).mem;
    if n == 0 {
      Taken(c, w.xs[a][i], m);
      NothingApplied(m);
    } else {
      BytesArrive(w, i, a, n - 1);
      var p := Own(w, i, a + n);
      BlockGoesOn(w, i, a, n - 1);
      GivenStays(c, p.ch, w.xs[a + n][i], n - 1);
      ByteStep(c, Before(w, i, a + n), p.mem, n - 1);
      assert Read(p.mem, Src(c, n - 1)) == Read(m, Src(c, n - 1));
      forall k | 0 <= k < n - 1
        ensures Dst(c, k) != Dst(c, n - 1)
      {
        DestinationsDiffer(c, k, n - 1);
      }
    }
  }

  lemma NothingApplied(m: Mem)
    ensures Apply(m, []) == m
  {
  }

  // ----- the data, word by word -----

  /** Word mode with strides of two, and two ranges that do not overlap. */
  predicate WordJob(c: Channel) {
    && c.word && c.srcInc == 2 && c.destInc == 2
    && (c.s + 2 * Units(c) <= c.d || c.d + 2 * Units(c) <= c.s)
  }

  lemma WordStep(c: Channel, r: Channel, m: Mem, k: nat)
    requires Underway(c, r, k) && WordJob(c) && k < Units(c)
    ensures var s, d := c.s + 2 * k, c.d + 2 * k;
      && Apply(m, Written(r, m)) == m[d := Read(m, s)][d + 1 := Read(m, s + 1)]
      && Reads(r, m) == {s, s + 1} && Writes(r) == {d, d + 1}
  {
    var s, d := c.s + 2 * k, c.d + 2 * k;
    var ws := Written(r, m);
    assert ws == [Cell(d, Read(m, s)), Cell(d + 1, Read(m, s + 1))];
    assert ws[..1] == [ws[0]] && ws[..1][..0] == [];
    assert Apply(m, ws[..1]) == m[d := Read(m, s)];
  }

  /** One word: the second byte lies above the first, or below it if the destination counts down; it
      arrives unless the first byte was written over it. */
  lemma WordUnit(c: Channel, m: Mem)
    requires c.word
    ensures var second, m1 := if c.destInc < 0 then -1 else 1, Apply(m, Moved(c, m));
      && Read(m1, c.d) == Read(m, c.s)
      && (c.d != c.s + second ==> Read(m1, c.d + second) == Read(m, c.s + second))
      && forall x :: x != c.d && x != c.d + second ==> Read(m1, x) == Read(m, x)
  {
    var ws := Moved(c, m);
    assert ws[..1] == [ws[0]] && ws[..1][..0] == [];
    assert Apply(m, ws[..1]) == m[c.d := Read(m, c.s)];
  }

  lemma {:induction false} WordsArrive(w: Setting, i: int, a: nat, n: nat)
    requires Triggers(w, i, a) && n <= Units(Own(w, i, a).ch) && a + 1 + n <= |w.xs|
    requires WordJob(Own(w, i, a).ch)
    ensures var c, m, m1 := Own(w, i, a).ch, Own(w, i, a).mem, Own(w, i, a + 1 + n).mem;
      && (forall x :: c.d <= x < c.d + 2 * n ==> Read(m1, x) == Read(m, x - c.d + c.s))
      && (forall x :: !(c.d <= x < c.d + 2 * n) ==> Read(m1, x) == Read(m, x))
  {
    hide Stepped, Written, Apply, Given, Underway;
    var c, m := Own(w, i, a).ch, Own(w, i, a).mem;
    if n == 0 {
      Taken(c, w.xs[a][i], m);
      NothingApplied(m);
    } else {
      WordsArrive(w, i, a, n - 1);
      var p := Own(w, i, a + n);
      BlockGoesOn(w, i, a, n - 1);
      GivenStays(c, p.ch, w.xs[a + n][i], n - 1);
      WordStep(c, Before(w, i, a + n), p.mem, n - 1);
      var s, d := c.s + 2 * (n - 1), c.d + 2 * (n - 1);
      assert Read(p.mem, s) == Read(m, s) && Read(p.mem, s + 1) == Read(m, s + 1);
      var m1 := Own(w, i, a + 1 + n).mem;
      forall x | c.d <= x < c.d + 2 * n
        ensures Read(m1, x) == Read(m, x - c.d + c.s)
      {
        assert x < d ==> Read(p.mem, x) == Read(m, x - c.d + c.s);
        assert x - d + s == x - c.d + c.s;
      }
    }
  }

  // ----- in the engine -----

  /** Memory of the engine and of the channel alone agree where nobody else writes. */
  lemma SharedView(w: Setting, i: int, n: nat, x: int)
    requires Isolated(w) && 0 <= i < 5 && n <= |w.xs| && x in OwnReads(w, i) + OwnWrites(w, i)
    ensures Read(Together(w.e, w.xs, n).mem, x) == Read(Own(w, i, n).mem, x)
    ensures Together(w.e, w.xs, n).ch[i] == Own(w, i, n).ch
  {
    hide OwnReads, OwnWrites, Together, Own;
    TicksStayAsAlone(w, n);
    assert Foreign(w, i, x);
  }

  /** In the engine of five channels, whatever the other four do on their own ground: after its last
      unit the channel has set its interrupt flag, and destination unit `k` holds what source unit
      `k` held when the trigger was taken. */
  lemma EngineMovesBytes(w: Setting, i: int, a: nat, k: nat)
    requires Isolated(w) && Triggers(w, i, a) && ByteJob(Own(w, i, a).ch)
    requires k < Units(Own(w, i, a).ch) && a + 1 + Units(Own(w, i, a).ch) <= |w.xs|
    ensures var c := Own(w, i, a).ch;
      var e, r := Together(w.e, w.xs, a), Together(w.e, w.xs, a + 1 + Units(c));
      && e.ch[i] == c && Read(r.mem, Dst(c, k)) == Read(e.mem, Src(c, k))
      && r.ch[i].irq && r.ch[i].state == if c.repeated then LoadConfig else Disarm
  {
    hide Src, Dst, Stepped, Written, Apply, Given, Underway, Together, OwnReads, OwnWrites;
    var c := Own(w, i, a).ch;
    var n := Units(c);
    BytesArrive(w, i, a, n);
    BlockEnds(w, i, a, n);
    BlockGoesOn(w, i, a, k);
    var p := Own(w, i, a + 1 + k);
    GivenStays(c, p.ch, w.xs[a + 1 + k][i], k);
    ByteStep(c, Before(w, i, a + 1 + k), p.mem, k);
    OwnFootprints(w, i, a + 1 + k);
    assert Src(c, k) in OwnReads(w, i) && Dst(c, k) in OwnWrites(w, i);
    SharedView(w, i, a, Src(c, k));
    SharedView(w, i, a + 1 + n, Dst(c, k));
  }

  lemma EngineMovesWords(w: Setting, i: int, a: nat, k: nat)
    requires Isolated(w) && Triggers(w, i, a) && WordJob(Own(w, i, a).ch)
    requires k < Units(Own(w, i, a).ch) && a + 1 + Units(Own(w, i, a).ch) <= |w.xs|
    ensures var c := Own(w, i, a).ch;
      var e, r := Together(w.e, w.xs, a), Together(w.e, w.xs, a + 1 + Units(c));
      && e.ch[i] == c
      && Read(r.mem, c.d + 2 * k) == Read(e.mem, c.s + 2 * k)
      && Read(r.mem, c.d + 2 * k + 1) == Read(e.mem, c.s + 2 * k + 1)
      && r.ch[i].irq && r.ch[i].state == if c.repeated then LoadConfig else Disarm
  {
    hide Stepped, Written, Apply, Given, Underway, Together, OwnReads, OwnWrites;
    var c := Own(w, i, a).ch;
    var n, s, d := Units(c), c.s + 2 * k, c.d + 2 * k;
    WordsArrive(w, i, a, n);
    BlockEnds(w, i, a, n);
    BlockGoesOn(w, i, a, k);
    var p := Own(w, i, a + 1 + k);
    GivenStays(c, p.ch, w.xs[a + 1 + k][i], k);
    WordStep(c, Before(w, i, a + 1 + k), p.mem, k);
    OwnFootprints(w, i, a + 1 + k);
    assert {s, s + 1} <= OwnReads(w, i) && {d, d + 1} <= OwnWrites(w, i);
    SharedView(w, i, a, s);
    SharedView(w, i, a, s + 1);
    SharedView(w, i, a + 1 + n, d);
    SharedView(w, i, a + 1 + n, d + 1);
  }
}
