/** Prediction of timer 1 in free-running mode, where the count wraps around 16 bits. */
module Timer1FreeRunning {
  import opened Timer1Model
  import opened Timer1Prediction

  /** A `short int` read as a number of ticks. */
  function Unsigned(x: int): nat { x % 0x1_0000 }

  /** The counts at which `CaptureCompare` ran. */
  function RanAt(log: seq<Event>): seq<Short> {
    if log == [] then []
    else
      var n := |log| - 1;
      RanAt(log[..n]) + (if log[n].Ran? then [log[n].count] else [])
  }

  lemma RanAtAppend(log: seq<Event>, e: Event)
    ensures RanAt(log + [e]) == RanAt(log) + if e.Ran? then [e.count] else []
  {
    assert (log + [e])[..|log|] == log;
  }

  lemma {:induction false} VisitsDoNotRun(t: Timer, n: nat)
    requires FiveChannels(t) && n <= 5
    ensures RanAt(VisitChannels(t, n).log) == RanAt(t.log)
  {
    hide PinAfter, RanAt;
    if n > 0 {
      VisitsDoNotRun(t, n - 1);
      RanAtAppend(VisitChannels(t, n - 1).log, Matched(n - 1));
    }
  }

  lemma CaptureRunsOnce(t: Timer)
    requires FiveChannels(t)
    ensures RanAt(CaptureCompare(t).log) == RanAt(t.log) + [t.count]
  {
    RanAtAppend(t.log, Ran(t.count));
    VisitsDoNotRun(t.(log := t.log + [Ran(t.count)]), 5);
  }

  /** Free-running without pin events. */
  predicate Free(t: Timer) { QuietTimer(t) && t.mode == FreeRunning && !t.pinEvent }

  /** One tick: the count goes on modulo 2^16, and `CaptureCompare` runs when the countdown ends. */
  lemma FreeTickEffect(t: Timer)
    requires Free(t)
    ensures var r, c := Tick(t), Wrap(t.count + 1);
      && Free(r) && r.count == c
      && (forall i :: 0 <= i < 5 ==> r.ch[i].value == t.ch[i].value && r.ch[i].ctl == t.ch[i].ctl)
      && if t.next == 1 then RanAt(r.log) == RanAt(t.log) + [c] && r.next == Predict(r, 5)
         else RanAt(r.log) == RanAt(t.log) && r.next == Wrap(t.next - 1)
  {
    hide CaptureCompare, Predict, Wrap, RanAt;
    var t1, r := FreeCount(t), Tick(t);
    RanAtAppend(t.log, Overflow);
    WrapZero(t.next);
    assert Due(t1) <==> t.next == 1;
    if t.next == 1 {
      CaptureKeepsSettings(t1);
      CaptureRunsOnce(t1);
      PredictDependsOnSettings(t1, r, 5);
    }
  }

  lemma WrapZero(x: Short)
    ensures Wrap(x - 1) == 0 <==> x == 1
  {
  }

  /** Wrapping twice is wrapping once, and does not change the number of ticks. */
  lemma WrapAgain(x: int, y: int)
    ensures Wrap(Wrap(x) + y) == Wrap(x + y) && Unsigned(Wrap(x)) == Unsigned(x)
  {
  }

  /** Until the countdown ends nothing runs. */
  lemma {:induction false} Countdown(t: Timer, n: nat)
    requires Free(t) && n < Unsigned(t.next)
    ensures var r := Ticks(t, n);
      && Free(r) && r.count == Wrap(t.count + n) && r.next == Wrap(t.next - n)
      && (forall i :: 0 <= i < 5 ==> r.ch[i].value == t.ch[i].value && r.ch[i].ctl == t.ch[i].ctl)
      && RanAt(r.log) == RanAt(t.log)
  {
    hide Wrap, Unsigned, Tick, RanAt;
    if n == 0 {
      WrapNothing(t.count);
      WrapNothing(t.next);
    } else {
      assert n - 1 < Unsigned(t.next);
      Countdown(t, n - 1);
      FreeTickEffect(Ticks(t, n - 1));
      WrapAgain(t.count + (n - 1), 1);
      WrapAgain(t.next - (n - 1), -1);
      NotYet(t.next, n);
    }
  }

  lemma WrapNothing(x: Short)
    ensures Wrap(x) == x && Wrap(x - 0) == x && Wrap(x + 0) == x
  {
  }

  lemma NotYet(next: Short, n: nat)
    requires 0 < n < Unsigned(next)
    ensures Wrap(next - (n - 1)) != 1
  {
  }

  // ----- one channel -----

  /** Of all channels only `k`, one of the first three, is in compare mode. */
  predicate Only(t: Timer, k: int) {
    && Free(t) && 0 <= k < 3 && Compares(t.ch[k])
    && forall i :: 0 <= i < 5 && i != k ==> !Compares(t.ch[i])
  }

  lemma PredictOne(t: Timer, k: int)
    requires Only(t, k)
    ensures var d := Wrap(t.ch[k].value - t.count); Predict(t, 5) == if d == 0 then -1 else d
  {
    var d := Wrap(t.ch[k].value - t.count);
    assert Predict(t, 0) == -1;
    assert Predict(t, 1) == if k == 0 && d != 0 then d else -1;
    assert Predict(t, 2) == if k <= 1 && d != 0 then d else -1;
    assert Predict(t, 3) == if d != 0 then d else -1;
    assert Predict(t, 4) == Predict(t, 3);
  }

  /** Ticks from the count to the compare value; a whole turn if they are equal now. */
  function TicksTo(t: Timer, k: int): (d: int)
    requires 0 <= k < |t.ch|
    ensures 1 <= d <= 0x1_0000
  {
    To(t.count, t.ch[k].value)
  }

  /** The countdown is nonzero and right, or one tick early. */
  ghost predicate Tracks(t: Timer, k: int) {
    Only(t, k) && t.next != 0 && TicksTo(t, k) - 1 <= Unsigned(t.next) <= TicksTo(t, k)
  }

  predicate Early(t: Timer, k: int)
    requires 0 <= k < |t.ch|
  {
    Unsigned(t.next) == TicksTo(t, k) - 1
  }

  lemma FreshPredictionTracks(t: Timer, k: int)
    requires Only(t, k)
    ensures Tracks(Repredicted(t), k)
    ensures Early(Repredicted(t), k) <==> t.count == t.ch[k].value
  {
    hide Predict;
    PredictOne(t, k);
  }

  /** `CaptureCompare` runs at every tick that reaches the compare value, and at one other tick:
      just before it, when the countdown was started on the compare value itself. */
  lemma TickTracks(t: Timer, k: int)
    requires Tracks(t, k)
    ensures var r := Tick(t); var v := t.ch[k].value;
      && Tracks(r, k) && r.ch[k].value == v && r.count == Wrap(t.count + 1)
      && RanAt(r.log) ==
           RanAt(t.log) + (if r.count == v || (r.count == Wrap(v - 1) && Early(t, k)) then [r.count] else [])
      && (Early(r, k) <==> r.count == v || (Early(t, k) && r.count != Wrap(v - 1)))
  {
    hide Predict, Tick, RanAt, Wrap, Unsigned, To;
    FreeTickEffect(t);
    var r := Tick(t);
    assert Only(r, k);
    PredictOne(r, k);
    TicksToStep(t.count, t.ch[k].value, t.next);
    MinusOne();
    WrapZero(t.next);
    if t.next != 1 {
      assert r.next != 0;
    }
  }

  lemma MinusOne()
    ensures Unsigned(-1) == 0xFFFF
  {
  }

  function To(count: Short, v: Short): int {
    var d := Unsigned(v - count);
    if d == 0 then 0x1_0000 else d
  }

  /** The arithmetic of one tick. */
  lemma TicksToStep(count: Short, v: Short, next: Short)
    requires next != 0
    ensures var to, c := To(count, v), Wrap(count + 1);
      && (c == v <==> to == 1) && (c == Wrap(v - 1) <==> to == 2)
      && To(c, v) == (if to == 1 then 0x1_0000 else to - 1)
      && (Wrap(v - c) == 0 <==> to == 1) && (to != 1 ==> Unsigned(Wrap(v - c)) == to - 1)
      && Unsigned(next) >= 1 && (next == 1 <==> Unsigned(next) == 1)
      && Unsigned(Wrap(next - 1)) == Unsigned(next) - 1
  {
    CountStep(count, v);
    NextStep(next);
  }

  lemma CountStep(count: Short, v: Short)
    ensures var to, c := To(count, v), Wrap(count + 1);
      && (c == v <==> to == 1) && (c == Wrap(v - 1) <==> to == 2)
      && To(c, v) == (if to == 1 then 0x1_0000 else to - 1)
      && (Wrap(v - c) == 0 <==> to == 1) && (to != 1 ==> Unsigned(Wrap(v - c)) == to - 1)
  {
  }

  lemma NextStep(next: Short)
    requires next != 0
    ensures Unsigned(next) >= 1 && (next == 1 <==> Unsigned(next) == 1)
    ensures Unsigned(Wrap(next - 1)) == Unsigned(next) - 1
    ensures Wrap(next - 1) == 0 <==> next == 1
  {
  }

  // ----- any number of ticks -----

  /** Whether `CaptureCompare` runs at tick `m`: when the count reaches the value, and one tick before
      that, except that the first time this takes an early countdown. */
  predicate RunsAt(count: Short, v: Short, early: bool, m: nat) {
    var c := Wrap(count + m);
    c == v || (c == Wrap(v - 1) && (early || m > To(count, v)))
  }

  /** The counts at which `CaptureCompare` runs in `n` ticks. */
  function Schedule(count: Short, v: Short, early: bool, n: nat): seq<Short> {
    if n == 0 then []
    else Schedule(count, v, early, n - 1) + if RunsAt(count, v, early, n) then [Wrap(count + n)] else []
  }

  lemma CountAfter(count: Short, v: Short, n: nat)
    ensures var c := Wrap(count + n);
      && Wrap(c + 1) == Wrap(count + (n + 1))
      && (n < To(count, v) ==> To(c, v) == To(count, v) - n)
  {
  }

  /** The whole run, from every start and for every number of ticks. */
  lemma {:induction false} Scheduled(t: Timer, k: int, n: nat)
    requires Tracks(t, k)
    ensures var r, v := Ticks(t, n), t.ch[k].value;
      && Tracks(r, k) && r.ch[k].value == v && r.count == Wrap(t.count + n)
      && RanAt(r.log) == RanAt(t.log) + Schedule(t.count, v, Early(t, k), n)
      && (Early(r, k) <==> (Early(t, k) || n >= To(t.count, v)) && r.count != Wrap(v - 1))
  {
    hide Tick, RanAt, Wrap, To, Unsigned;
    var v := t.ch[k].value;
    if n == 0 {
      WrapNothing(t.count);
      EarlyIsAhead(t, k);
    } else {
      Scheduled(t, k, n - 1);
      var s := Ticks(t, n - 1);
      TickTracks(s, k);
      CountAfter(t.count, v, n - 1);
      Turns(t.count, v, n);
      OneBefore(s.count, v);
    }
  }

  lemma OneBefore(c: Short, v: Short)
    ensures Wrap(c + 1) != c && (c == Wrap(v - 1) <==> Wrap(c + 1) == v)
  {
  }

  lemma EarlyIsAhead(t: Timer, k: int)
    requires Tracks(t, k)
    ensures Early(t, k) ==> t.count != Wrap(t.ch[k].value - 1)
    ensures To(t.count, t.ch[k].value) > 0
  {
  }

  /** The value is reached for the first time at tick `To`, and the count before it just before. */
  lemma Turns(count: Short, v: Short, n: nat)
    requires n > 0
    ensures var to, c := To(count, v), Wrap(count + n);
      && (c == v ==> n >= to) && (n == to ==> c == v)
      && (c == Wrap(v - 1) ==> c != v && n != to && n >= to - 1)
      && (n == to - 1 ==> c == Wrap(v - 1))
  {
  }

  /** How often the first `n` ticks reach the count `w`. */
  function Reached(count: Short, w: Short, n: nat): nat {
    if n == 0 then 0 else Reached(count, w, n - 1) + if Wrap(count + n) == w then 1 else 0
  }

  lemma {:induction false} ReachedIs(count: Short, w: Short, n: nat)
    ensures Reached(count, w, n) == (n + 0x1_0000 - To(count, w)) / 0x1_0000
  {
    if n > 0 {
      ReachedIs(count, w, n - 1);
      NextReached(count, w, n);
    }
  }

  lemma NextReached(count: Short, w: Short, n: nat)
    requires n > 0
    ensures var x := n + 0x1_0000 - To(count, w);
      x / 0x1_0000 == (x - 1) / 0x1_0000 + if Wrap(count + n) == w then 1 else 0
  {
    assert Wrap(count + n) == w <==> (n - To(count, w)) % 0x1_0000 == 0;
  }

  /** How many runs come one tick early. */
  function Extras(count: Short, v: Short, early: bool, n: nat): nat {
    if n == 0 then 0
    else
      Extras(count, v, early, n - 1)
      + if RunsAt(count, v, early, n) && Wrap(count + n) != v then 1 else 0
  }

  lemma {:induction false} ScheduleCounts(count: Short, v: Short, early: bool, n: nat)
    ensures var s := Schedule(count, v, early, n);
      && multiset(s)[v] == Reached(count, v, n)
      && |s| == Reached(count, v, n) + Extras(count, v, early, n)
  {
    if n > 0 {
      ScheduleCounts(count, v, early, n - 1);
    }
  }

  lemma {:induction false} ExtrasAreFew(count: Short, v: Short, early: bool, n: nat, m: nat)
    ensures Extras(count, v, early, n) <= Extras(count, v, early, n + m)
    ensures Extras(count, v, early, n + m) - Extras(count, v, early, n)
      <= Reached(count, Wrap(v - 1), n + m) - Reached(count, Wrap(v - 1), n)
  {
    hide Wrap, To;
    if m > 0 {
      ExtrasAreFew(count, v, early, n, m - 1);
    }
  }

  /** In every stretch of 65536 ticks, wherever it starts, `CaptureCompare` runs exactly once on the
      compare value and at most once more. */
  lemma EveryTurn(t: Timer, k: int, n: nat)
    requires Tracks(t, k)
    ensures var a, b, v := RanAt(Ticks(t, n).log), RanAt(Ticks(t, n + 0x1_0000).log), t.ch[k].value;
      && a <= b && multiset(b)[v] == multiset(a)[v] + 1
      && |a| + 1 <= |b| <= |a| + 2
  {
    hide RanAt, Ticks, Wrap, To, Schedule, Extras, Reached;
    var v: int, early := t.ch[k].value, Early(t, k);
    Scheduled(t, k, n);
    Scheduled(t, k, n + 0x1_0000);
    ScheduleGrows(t.count, v, early, n, 0x1_0000);
    ScheduleCounts(t.count, v, early, n);
    ScheduleCounts(t.count, v, early, n + 0x1_0000);
    ReachedIs(t.count, v, n);
    ReachedIs(t.count, v, n + 0x1_0000);
    ReachedIs(t.count, Wrap(v - 1), n);
    ReachedIs(t.count, Wrap(v - 1), n + 0x1_0000);
    ExtrasAreFew(t.count, v, early, n, 0x1_0000);
  }

  lemma {:induction false} ScheduleGrows(count: Short, v: Short, early: bool, n: nat, m: nat)
    ensures Schedule(count, v, early, n) <= Schedule(count, v, early, n + m)
  {
    hide RunsAt;
    if m > 0 {
      ScheduleGrows(count, v, early, n, m - 1);
    }
  }
}
