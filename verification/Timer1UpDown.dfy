/** Prediction of timer 1 in up/down mode: exact on the way up, and on the way down at most two runs
    of `CaptureCompare`, whatever the channels hold. */
module Timer1UpDown {
  import opened Timer1Model
  import opened Timer1Prediction
  import opened Timer1FreeRunning
  import opened Timer1Waveforms
  import opened Timer1Misses

  /** On the triangle, with channel 0 in compare mode and no pin edges. */
  predicate Ready(t: Timer, top: int) {
    OnTriangle(t, top) && QuietTimer(t) && !t.pinEvent && Compares(t.ch[0])
  }

  /** One tick: the triangle goes on, `CaptureCompare` runs when the countdown ends, and a turn makes
      a new prediction in any case. */
  lemma UpDownTickEffect(t: Timer, top: int)
    requires Ready(t, top)
    ensures var r := Tick(t);
      && Ready(r, top) && SameChannels(t, r)
      && Phase(r, top) == (if Phase(t, top) == 2 * top - 1 then 0 else Phase(t, top) + 1)
      && RanAt(r.log) == RanAt(t.log) + (if t.next == 1 then [r.count] else [])
      && r.next == if t.next == 1 || r.down != t.down then Predict(r, 5) else Wrap(t.next - 1)
  {
    hide CaptureCompare, Predict, Wrap, RanAt, Overflows, UpDownCount, OnTriangle;
    var t1 := UpDownCount(t);
    CountingStep(t, top);
    var t2 := if Due(t1) then CaptureCompare(t1) else t1;
    var r := Tick(t);
    UpDownTickWave(t, top);
    CaptureKeepsSettings(t1);
    CaptureRunsOnce(t1);
    PredictDependsOnSettings(t1, r, 5);
    PredictDependsOnSettings(t2, r, 5);
  }

  lemma CountingStep(t: Timer, top: int)
    requires Ready(t, top)
    ensures var t1 := UpDownCount(t);
      && QuietTimer(t1) && !t1.pinEvent && t1.ch == t.ch && t1.mode == t.mode == UpDown
      && RanAt(t1.log) == RanAt(t.log)
      && t1.next == Wrap(t.next - 1) && (Due(t1) <==> t.next == 1)
  {
    hide RanAt;
    RanAtAppend(t.log, Overflow);
    WrapZero(t.next);
  }

  // ----- the way up -----

  /** The compare values among the `n` counts above `c`, in order. */
  ghost function HitsAbove(t: Timer, c: int, n: nat): seq<int>
    requires FiveChannels(t)
  {
    if n == 0 then [] else HitsAbove(t, c, n - 1) + if Hit(t, c + n) then [c + n] else []
  }

  /** Counting up with the right prediction. */
  ghost predicate Climbing(t: Timer, top: int) { Ready(t, top) && !t.down && IsNearest(t, t.next) }

  lemma ClimbingTick(t: Timer, top: int)
    requires Climbing(t, top)
    ensures var r := Tick(t);
      && Ready(r, top) && SameChannels(t, r) && r.count == t.count + 1
      && RanAt(r.log) == RanAt(t.log) + (if Hit(t, t.count + 1) then [t.count + 1] else [])
      && (if t.count + 1 < top then Climbing(r, top) else r.down && r.next == Predict(r, 5))
  {
    hide Tick, RanAt, Predict, Hit;
    UpDownTickEffect(t, top);
    var r := Tick(t);
    HitsStay(t, r);
    assert Hit(t, top) by { TopIsHit(t, top); }
    assert t.next == 1 <==> Hit(t, t.count + 1);
    if !r.down {
      if t.next == 1 {
        PredictsNearest(r);
      } else {
        assert t.next <= top - t.count;
        assert r.next == t.next - 1;
      }
    }
  }

  lemma TopIsHit(t: Timer, top: int)
    requires Ready(t, top)
    ensures Hit(t, top)
  {
  }

  /** On the way up `CaptureCompare` runs at exactly the compare values. */
  lemma {:induction false} WayUp(t: Timer, top: int, n: nat)
    requires Climbing(t, top) && n <= top - t.count
    ensures var r := Ticks(t, n);
      && Ready(r, top) && SameChannels(t, r) && r.count == t.count + n
      && RanAt(r.log) == RanAt(t.log) + HitsAbove(t, t.count, n)
      && (if t.count + n < top then Climbing(r, top) else r.down && r.next == Predict(r, 5))
  {
    hide Tick, RanAt, Predict, Hit, IsNearest;
    if n > 0 {
      WayUp(t, top, n - 1);
      var s := Ticks(t, n - 1);
      ClimbingTick(s, top);
      HitsStay(t, s);
    }
  }

  /** A new prediction on the way up is right. */
  lemma FreshClimbs(t: Timer, top: int)
    requires Ready(t, top) && !t.down && t.next == Predict(t, 5)
    ensures Climbing(t, top)
  {
    hide Predict;
    PredictsNearest(t);
  }

  // ----- the way down -----

  /** While the countdown lasts and the bottom is not reached, nothing happens on the way down. */
  lemma {:induction false} Falling(t: Timer, top: int, n: nat)
    requires Ready(t, top) && t.down && n < Unsigned(t.next) && n <= t.count
    ensures var r := Ticks(t, n);
      && Ready(r, top) && SameChannels(t, r) && RanAt(r.log) == RanAt(t.log) && r.count == t.count - n
      && (n < t.count ==> r.down && r.next == Wrap(t.next - n))
      && (n == t.count ==> !r.down && r.next == Predict(r, 5))
  {
    hide Tick, RanAt, Predict, Wrap, Unsigned;
    if n == 0 {
      WrapNothing(t.next);
    } else {
      Falling(t, top, n - 1);
      UpDownTickEffect(Ticks(t, n - 1), top);
      WrapAgain(t.next - (n - 1), -1);
      NotYet(t.next, n);
    }
  }

  /** When the countdown ends before the way down does, `CaptureCompare` runs there. */
  lemma FallsTo(t: Timer, top: int)
    requires Ready(t, top) && t.down && 1 <= t.next <= t.count
    ensures var r := Ticks(t, t.next);
      && Ready(r, top) && SameChannels(t, r) && r.count == t.count - t.next && (r.down <==> r.count > 0)
      && RanAt(r.log) == RanAt(t.log) + [r.count] && r.next == Predict(r, 5)
  {
    hide Tick, RanAt, Predict, Wrap;
    Falling(t, top, t.next - 1);
    var s := Ticks(t, t.next - 1);
    assert s.next == 1 by { OneLeft(t.next); }
    UpDownTickEffect(s, top);
  }

  lemma OneLeft(x: Short)
    requires x >= 1
    ensures Wrap(x - (x - 1)) == 1 && Unsigned(x) == x
  {
  }

  /** A prediction made on the way down, more than one below the top, finds channel 0 behind and
      looks no further. */
  lemma BehindTheTop(t: Timer, top: int)
    requires Ready(t, top) && t.down && t.count < top - 1
    ensures Predict(t, 5) == t.count - top && t.count < Unsigned(Predict(t, 5))
  {
    assert Distance(t, 0) == t.count - top;
    assert Predict(t, 0) == -1;
    assert Predict(t, 1) == t.count - top;
    Stuck(t, 1, 5);
  }

  /** So from there on every value is missed, down to and including 0. */
  lemma RestIsMissed(t: Timer, top: int, n: nat)
    requires Ready(t, top) && t.down && t.count < top - 1 && t.next == Predict(t, 5) && n <= t.count
    ensures RanAt(Ticks(t, n).log) == RanAt(t.log)
  {
    hide Predict, Ticks, RanAt;
    BehindTheTop(t, top);
    Falling(t, top, n);
  }

  /** The counts at which `CaptureCompare` runs on the way down after a new prediction: the one
      predicted, and one more only if the first is just below the top. */
  function RunsBelow(t: Timer, top: int): (r: seq<int>)
    requires FiveChannels(t) && t.count <= top
    ensures |r| <= if t.count < top - 1 then 0 else if t.count == top - 1 then 1 else 2
    decreases top - 1 <= t.count, t.count + 0x8000
  {
    var p := Predict(t, 5);
    if t.count < top - 1 || !(1 <= p <= t.count) then []
    else [t.count - p] + RunsBelow(t.(count := t.count - p), top)
  }

  /** The whole way down, from the top or from anywhere below it. */
  lemma {:induction false} WayDown(t: Timer, top: int)
    requires Ready(t, top) && t.down && t.next == Predict(t, 5)
    ensures var r := Ticks(t, t.count);
      && Ready(r, top) && SameChannels(t, r) && r.count == 0 && !r.down && r.next == Predict(r, 5)
      && RanAt(r.log) == RanAt(t.log) + RunsBelow(t, top)
    decreases t.count
  {
    hide Ticks, RanAt, Predict;
    var p := t.next;
    if t.count < top - 1 {
      BehindTheTop(t, top);
      Falling(t, top, t.count);
    } else if !(1 <= p <= t.count) {
      LongCountdown(t, p);
      Falling(t, top, t.count);
    } else {
      FallsTo(t, top);
      var s := Ticks(t, p);
      TicksAdd(t, p, t.count - p);
      if s.count > 0 {
        WayDown(s, top);
        SameRuns(t.(count := s.count), s, top);
      } else {
        NoTicksLeft(s);
        assert RunsBelow(t.(count := 0), top) == [];
      }
    }
  }

  lemma LongCountdown(t: Timer, p: int)
    requires FiveChannels(t) && t.count > 0 && p == Predict(t, 5) && !(1 <= p <= t.count)
    ensures p != 0 && t.count < Unsigned(p)
  {
    assert Predict(t, 0) == -1;
    NeverZero(t, 5);
  }

  lemma {:induction false} NeverZero(t: Timer, n: nat)
    requires FiveChannels(t) && n <= 5
    ensures Predict(t, n) != 0
  {
    hide Wrap;
    if n > 0 {
      NeverZero(t, n - 1);
    }
  }

  lemma NoTicksLeft(t: Timer)
    requires FiveChannels(t)
    ensures Ticks(t, 0) == t
  {
  }

  lemma {:induction false} SameRuns(t: Timer, r: Timer, top: int)
    requires SameSettings(t, r) && r.count <= top
    ensures RunsBelow(t, top) == RunsBelow(r, top)
    decreases top - 1 <= t.count, t.count + 0x8000
  {
    hide Predict;
    PredictDependsOnSettings(t, r, 5);
    var p := Predict(t, 5);
    if t.count >= top - 1 && 1 <= p <= t.count {
      SameRuns(t.(count := t.count - p), r.(count := t.count - p), top);
    }
  }

  /** A full period, from the bottom to the bottom. */
  lemma FullPeriod(t: Timer, top: int)
    requires Ready(t, top) && !t.down && t.count == 0 && t.next == Predict(t, 5)
    ensures var r := Ticks(t, 2 * top);
      && Ready(r, top) && SameChannels(t, r) && r.count == 0 && !r.down && r.next == Predict(r, 5)
      && RanAt(r.log) ==
           RanAt(t.log) + HitsAbove(t, 0, top) + RunsBelow(t.(count := top, down := true), top)
  {
    hide Ticks, RanAt, Predict, Hit;
    FreshClimbs(t, top);
    WayUp(t, top, top);
    var s := Ticks(t, top);
    WayDown(s, top);
    TicksAdd(t, top, top);
    SameRuns(t.(count := top, down := true), s, top);
  }

  // ----- which values the way down serves -----

  /** The timer at count `c` on its way down. */
  function At(t: Timer, c: Short): Timer { t.(count := c, down := true) }

  /** The first deciding channel is ahead. */
  predicate Ahead(t: Timer)
    requires FiveChannels(t)
  {
    First(t, 0) < 3 && Distance(t, First(t, 0)) > 0
  }

  /** After a prediction at `c`, one below the top at most, the next run is at `r`: the first deciding
      channel is ahead, and no channel sees a smaller distance, down for channels 0 to 2 and up for
      channels 3 and 4. */
  ghost predicate RunsNext(t: Timer, top: int, c: Short, r: int)
    requires FiveChannels(t)
  {
    top - 1 <= c && 0 <= r < c && Ahead(At(t, c)) && IsMinimum(At(t, c), c - r)
  }

  ghost predicate NoHits(t: Timer, low: int, high: int)
    requires FiveChannels(t)
  {
    forall x :: low <= x < high ==> !Hit(t, x)
  }

  /** No value below `c` is passed over. */
  ghost predicate Serves(t: Timer, top: int, c: Short)
    requires FiveChannels(t) && 0 <= c
    decreases c
  {
    NoHits(t, 0, c) || exists r :: RunsNext(t, top, c, r) && NoHits(t, r + 1, c) && Serves(t, top, r)
  }

  /** The runs below `c` are at the values below `c`. */
  ghost predicate Follows(t: Timer, top: int, c: Short)
    requires FiveChannels(t) && 0 <= c
    decreases c
  {
    if exists r :: RunsNext(t, top, c, r)
    then exists r :: RunsNext(t, top, c, r) && Hit(t, r) && NoHits(t, r + 1, c) && Follows(t, top, r)
    else NoHits(t, 0, c)
  }

  /** Up/down mode with channel 0 in compare mode. */
  predicate Triangular(t: Timer, top: int) {
    FiveChannels(t) && t.mode == UpDown && Compares(t.ch[0]) && t.ch[0].value == top
  }

  /** The condition is the prediction's. */
  lemma NextRunIs(t: Timer, top: int, c: Short)
    requires Triangular(t, top) && 0 <= c <= top
    ensures var p := Predict(At(t, c), 5);
      if top - 1 <= c && 1 <= p <= c
      then RunsNext(t, top, c, c - p)
           && RunsBelow(At(t, c), top) == [c - p] + RunsBelow(At(t, c - p), top)
           && forall r :: RunsNext(t, top, c, r) ==> r == c - p
      else RunsBelow(At(t, c), top) == [] && forall r :: !RunsNext(t, top, c, r)
  {
    hide Predict, First, Distance;
    var u := At(t, c);
    PredictionForm(u);
    var p := Predict(u, 5);
    if 1 <= p <= c {
      assert u.(count := c - p) == At(t, c - p);
    }
    forall x, y | IsMinimum(u, x) && IsMinimum(u, y) ensures x == y {
    }
  }

  lemma {:induction false} RunsAreBelow(t: Timer, top: int, x: int)
    requires FiveChannels(t) && t.count <= top && x in RunsBelow(t, top)
    ensures 0 <= x < t.count
    decreases t.count + 0x8000
  {
    hide Predict;
    var p := Predict(t, 5);
    if x != t.count - p {
      RunsAreBelow(t.(count := t.count - p), top, x);
    }
  }

  /** Every value below `c` is among the runs. */
  ghost predicate AllServed(t: Timer, top: int, c: Short)
    requires FiveChannels(t) && c <= top
  {
    forall x :: 0 <= x < c && Hit(t, x) ==> x in RunsBelow(At(t, c), top)
  }

  /** The runs are the values below `c`. */
  ghost predicate AllEqual(t: Timer, top: int, c: Short)
    requires FiveChannels(t) && c <= top
  {
    forall x :: 0 <= x < c ==> (Hit(t, x) <==> x in RunsBelow(At(t, c), top))
  }

  lemma {:induction false} ServesIff(t: Timer, top: int, c: Short)
    requires Triangular(t, top) && 0 <= c <= top
    ensures AllServed(t, top, c) <==> Serves(t, top, c)
    decreases c
  {
    hide Predict, Hit, RunsNext, RunsBelow;
    NextRunIs(t, top, c);
    var p := Predict(At(t, c), 5);
    if top - 1 <= c && 1 <= p <= c {
      var r := c - p;
      ServesIff(t, top, r);
      forall x | x in RunsBelow(At(t, r), top) ensures 0 <= x < r {
        RunsAreBelow(At(t, r), top, x);
      }
      assert AllServed(t, top, c) <==> NoHits(t, r + 1, c) && AllServed(t, top, r);
      if NoHits(t, 0, c) {
        assert AllServed(t, top, r);
      }
    }
  }

  lemma {:induction false} FollowsIff(t: Timer, top: int, c: Short)
    requires Triangular(t, top) && 0 <= c <= top
    ensures AllEqual(t, top, c) <==> Follows(t, top, c)
    decreases c
  {
    hide Predict, Hit, RunsNext, RunsBelow;
    NextRunIs(t, top, c);
    var p := Predict(At(t, c), 5);
    if top - 1 <= c && 1 <= p <= c {
      var r := c - p;
      FollowsIff(t, top, r);
      forall x | x in RunsBelow(At(t, r), top) ensures 0 <= x < r {
        RunsAreBelow(At(t, r), top, x);
      }
      assert AllEqual(t, top, c) <==> Hit(t, r) && NoHits(t, r + 1, c) && AllEqual(t, top, r);
    }
  }

  // ----- tick by tick -----

  lemma QuietTick(t: Timer, top: int, n: nat)
    requires Ready(t, top) && t.down && 1 <= n <= t.count && n < Unsigned(t.next)
    ensures Ticks(t, n).count == t.count - n && !RanAtTick(t, n)
  {
    hide Ticks, RanAt;
    Falling(t, top, n);
    Falling(t, top, n - 1);
  }

  /** The tick at which the countdown ends, and the ticks after it. */
  lemma EndOfCountdown(t: Timer, top: int, n: nat)
    requires Ready(t, top) && t.down && 1 <= t.next <= t.count && t.next <= n
    ensures var s := Ticks(t, t.next);
      && Ready(s, top) && SameChannels(t, s) && s.count == t.count - t.next && (s.down <==> s.count > 0)
      && s.next == Predict(s, 5)
      && (n == t.next ==> RanAtTick(t, n))
      && (n > t.next ==> Ticks(t, n) == Ticks(s, n - t.next) && (RanAtTick(t, n) <==> RanAtTick(s, n - t.next)))
  {
    hide Ticks, RanAt, Predict;
    var p := t.next;
    OneLeft(p);
    FallsTo(t, top);
    Falling(t, top, p - 1);
    TicksAdd(t, p, n - p);
    if n > p {
      TicksAdd(t, p, n - p - 1);
    }
  }

  /** On the way down after a new prediction, a tick runs if and only if its count is in the list. */
  lemma {:induction false} DownTickRuns(t: Timer, top: int, n: nat)
    requires Ready(t, top) && t.down && t.next == Predict(t, 5) && 1 <= n <= t.count
    ensures Ticks(t, n).count == t.count - n
    ensures RanAtTick(t, n) <==> t.count - n in RunsBelow(t, top)
    decreases t.count
  {
    hide Ticks, RanAtTick, Predict, RunsBelow;
    var p, c := t.next, t.count;
    assert t == At(t, c);
    NextRunIs(t, top, c);
    if c < top - 1 {
      BehindTheTop(t, top);
      QuietTick(t, top, n);
    } else if !(1 <= p <= c) {
      LongCountdown(t, p);
      QuietTick(t, top, n);
    } else {
      OneLeft(p);
      var rest := RunsBelow(At(t, c - p), top);
      forall x | x in rest ensures x < c - p {
        RunsAreBelow(At(t, c - p), top, x);
      }
      if n < p {
        QuietTick(t, top, n);
      } else {
        EndOfCountdown(t, top, n);
        if n > p {
          var s := Ticks(t, p);
          DownTickRuns(s, top, n - p);
          SameRuns(At(t, c - p), s, top);
        }
      }
    }
  }

  lemma UpTickRuns(t: Timer, top: int, n: nat)
    requires Ready(t, top) && !t.down && t.next == Predict(t, 5) && 1 <= n <= top - t.count
    ensures Ticks(t, n).count == t.count + n
    ensures RanAtTick(t, n) <==> Hit(t, t.count + n)
  {
    hide Ticks, RanAt, Predict, Hit;
    FreshClimbs(t, top);
    WayUp(t, top, n);
    WayUp(t, top, n - 1);
  }
}
