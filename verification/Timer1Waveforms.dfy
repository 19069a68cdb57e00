/** How the count of timer 1 runs in each mode, and that a batch of ticks is as good as the ticks
    one by one. */
module Timer1Waveforms {
  import opened Timer1Model
  import opened Quotients

  /** The number of overflows reported. */
  function Overflows(log: seq<Event>): nat {
    if log == [] then 0
    else
      var n := |log| - 1;
      Overflows(log[..n]) + (if log[n] == Overflow then 1 else 0)
  }

  lemma OverflowsAppend(log: seq<Event>, e: Event)
    ensures Overflows(log + [e]) == Overflows(log) + if e == Overflow then 1 else 0
  {
    assert (log + [e])[..|log|] == log;
  }

  lemma {:induction false} VisitsDoNotOverflow(t: Timer, n: nat)
    requires FiveChannels(t) && n <= 5
    ensures Overflows(VisitChannels(t, n).log) == Overflows(t.log)
  {
    hide PinAfter, Overflows;
    if n > 0 {
      VisitsDoNotOverflow(t, n - 1);
      OverflowsAppend(VisitChannels(t, n - 1).log, Matched(n - 1));
    }
  }

  /** No pin edge will replace the value of channel 0. */
  predicate TopIsSafe(t: Timer) { FiveChannels(t) && Quiet(t.ch[0]) }

  predicate SameCount(t: Timer, r: Timer)
    requires FiveChannels(t) && FiveChannels(r)
  {
    r.mode == t.mode && r.count == t.count && r.down == t.down && r.ch[0].value == t.ch[0].value
  }

  lemma {:induction false} VisitsKeepCount(t: Timer, n: nat)
    requires TopIsSafe(t) && n <= 5
    ensures SameCount(t, VisitChannels(t, n)) && TopIsSafe(VisitChannels(t, n))
  {
    hide PinAfter;
    if n > 0 {
      VisitsKeepCount(t, n - 1);
    }
  }

  /** Whether or not `CaptureCompare` runs, the end of a tick changes neither the count nor the
      number of overflows. */
  lemma CaptureKeepsCount(t: Timer)
    requires TopIsSafe(t)
    ensures SameCount(t, CaptureCompare(t)) && TopIsSafe(CaptureCompare(t))
    ensures Overflows(CaptureCompare(t).log) == Overflows(t.log)
  {
    hide Predict;
    VisitsKeepCount(t.(log := t.log + [Ran(t.count)]), 5);
    OverflowsAppend(t.log, Ran(t.count));
    VisitsDoNotOverflow(t.(log := t.log + [Ran(t.count)]), 5);
  }

  // ----- batching -----

  lemma {:induction false} TicksAdd(t: Timer, a: nat, b: nat)
    requires FiveChannels(t)
    ensures Ticks(Ticks(t, a), b) == Ticks(t, a + b)
  {
    hide Tick;
    if b > 0 {
      TicksAdd(t, a, b - 1);
    }
  }

  // ----- modulo mode -----

  /** The count of a modulo timer is within its range. */
  predicate InRange(t: Timer, top: int) {
    TopIsSafe(t) && t.mode == Modulo && t.ch[0].value == top && 0 <= t.count <= top
  }

  lemma ModuloTickWave(t: Timer, top: int)
    requires InRange(t, top)
    ensures InRange(Tick(t), top)
    ensures Tick(t).count == if t.count == top then 0 else t.count + 1
    ensures Overflows(Tick(t).log) == Overflows(t.log) + if t.count == top then 1 else 0
  {
    hide CaptureCompare, Predict, Overflows;
    var t1 := ModuloCount(t);
    OverflowsAppend(t.log, Overflow);
    CaptureKeepsCount(t1);
  }

  /** Sawtooth: after n ticks the count is (c + n) mod (top + 1), with one overflow a turn. */
  lemma {:induction false} ModuloWave(t: Timer, top: int, n: nat)
    requires InRange(t, top)
    ensures var r := Ticks(t, n);
      && InRange(r, top)
      && r.count == Rem(t.count + n, top + 1)
      && Overflows(r.log) == Overflows(t.log) + Quo(t.count + n, top + 1)
  {
    hide Tick, Overflows, Rem, Quo;
    if n == 0 {
      SmallQuotient(t.count, top + 1);
    } else {
      ModuloWave(t, top, n - 1);
      ModuloTickWave(Ticks(t, n - 1), top);
      NextQuotient(t.count + (n - 1), top + 1);
    }
  }

  // ----- up/down mode -----

  predicate OnTriangle(t: Timer, top: int) {
    && TopIsSafe(t) && t.mode == UpDown && t.ch[0].value == top && 0 < top
    && (if t.down then 0 < t.count <= top else 0 <= t.count < top)
  }

  /** Where on the triangle of period 2 * top the timer is. */
  function Phase(t: Timer, top: int): int { if t.down then 2 * top - t.count else t.count }

  lemma UpDownTickWave(t: Timer, top: int)
    requires OnTriangle(t, top)
    ensures OnTriangle(Tick(t), top)
    ensures var p, q := Phase(t, top), Phase(Tick(t), top); q == if p == 2 * top - 1 then 0 else p + 1
    ensures Overflows(Tick(t).log) ==
      Overflows(t.log) + if Phase(t, top) == 2 * top - 1 then 1 else 0
  {
    hide CaptureCompare, Predict, Overflows, UpDownCount;
    UpDownCountWave(t, top);
    CaptureKeepsCount(UpDownCount(t));
  }

  lemma UpDownCountWave(t: Timer, top: int)
    requires OnTriangle(t, top)
    ensures OnTriangle(UpDownCount(t), top)
    ensures var p, q := Phase(t, top), Phase(UpDownCount(t), top);
      q == if p == 2 * top - 1 then 0 else p + 1
    ensures Overflows(UpDownCount(t).log) ==
      Overflows(t.log) + if Phase(t, top) == 2 * top - 1 then 1 else 0
  {
    hide Overflows;
    OverflowsAppend(t.log, Overflow);
  }

  /** Triangle wave: from phase p, after n ticks the phase is (p + n) mod (2 * top); the count is
      the height of the triangle there, and there is one overflow a period. */
  lemma UpDownWave(t: Timer, top: int, n: nat)
    requires OnTriangle(t, top)
    ensures 0 <= Phase(t, top)
    ensures var r := Ticks(t, n);
      var x := Rem(Phase(t, top) + n, 2 * top);
      && OnTriangle(r, top)
      && r.count == (if x <= top then x else 2 * top - x) && (r.down <==> x >= top)
      && Overflows(r.log) == Overflows(t.log) + Quo(Phase(t, top) + n, 2 * top)
  {
    hide Tick, Overflows, Rem, Quo;
    UpDownPhase(t, top, 2 * top, n);
  }

  lemma {:induction false} UpDownPhase(t: Timer, top: int, m: nat, n: nat)
    requires OnTriangle(t, top) && m == 2 * top
    ensures var r := Ticks(t, n);
      && OnTriangle(r, top) && 0 <= Phase(t, top) < m && 0 <= Phase(r, top) < m
      && Phase(r, top) == Rem(Phase(t, top) + n, m)
      && Overflows(r.log) == Overflows(t.log) + Quo(Phase(t, top) + n, m)
  {
    hide Tick, Overflows, Rem, Quo;
    if n == 0 {
      SmallQuotient(Phase(t, top), m);
    } else {
      UpDownPhase(t, top, m, n - 1);
      UpDownTickWave(Ticks(t, n - 1), top);
      NextQuotient(Phase(t, top) + (n - 1), m);
    }
  }
}
