/** Prediction of timer 1 in free-running mode with any set of channels in compare mode: exactly when
    it misses a compare value, for one prediction and for a run without end. */
module Timer1Misses {
  import opened Timer1Model
  import opened Timer1Prediction
  import opened Timer1FreeRunning
  import opened Timer1Waveforms

  /** The channel takes part, at this distance. */
  predicate On(t: Timer, j: int)
    requires FiveChannels(t)
  {
    0 <= j < 5 && Compares(t.ch[j])
  }

  /** A distance that replaces the initial prediction for good; -1 looks like no prediction. */
  predicate Decides(d: int) { d != 0 && d != -1 }

  /** The first of channels 0 to 2, from `i` on, that decides; 3 if there is none. */
  function First(t: Timer, i: nat): (r: nat)
    requires FiveChannels(t) && i <= 3
    ensures i <= r <= 3 && (r < 3 ==> On(t, r) && Decides(Distance(t, r)))
    ensures forall j :: i <= j < r && On(t, j) ==> !Decides(Distance(t, j))
    decreases 3 - i
  {
    if i == 3 || (On(t, i) && Decides(Distance(t, i))) then i else First(t, i + 1)
  }

  /** The first deciding channel lies behind the count and another one comes sooner; or none decides
      and channel 3 or 4, which cannot, is not reached within a whole turn less one. */
  ghost predicate Blocked(t: Timer)
    requires FiveChannels(t)
  {
    var i := First(t, 0);
    if i < 3
    then Distance(t, i) < 0
         && exists j :: On(t, j) && (Distance(t, j) > 0 || Distance(t, j) < Distance(t, i))
    else exists j :: 3 <= j && On(t, j) && Decides(Distance(t, j))
  }

  // ----- one prediction -----

  ghost predicate IsMinimum(t: Timer, p: int)
    requires FiveChannels(t)
  {
    && p > 0 && (exists j :: On(t, j) && Distance(t, j) == p)
    && forall j :: On(t, j) && Distance(t, j) > 0 ==> p <= Distance(t, j)
  }

  /** What the loop over the channels finds. */
  lemma PredictionForm(t: Timer)
    requires FiveChannels(t)
    ensures var i, p := First(t, 0), Predict(t, 5);
      if i == 3 then p == -1 else if Distance(t, i) < 0 then p == Distance(t, i) else IsMinimum(t, p)
  {
    hide Wrap, Compares;
    var i := First(t, 0);
    Undecided(t, i);
    if i == 3 {
      Stuck(t, 3, 5);
    } else {
      assert Predict(t, i + 1) == Consider(t, i, -1) == Distance(t, i);
      if Distance(t, i) < 0 {
        Stuck(t, i + 1, 5);
      } else {
        Minimum(t, i, 5);
      }
    }
  }

  lemma {:induction false} Undecided(t: Timer, n: nat)
    requires FiveChannels(t) && n <= First(t, 0)
    ensures Predict(t, n) == -1
  {
    hide Wrap, Compares;
    if n > 0 {
      Undecided(t, n - 1);
      assert On(t, n - 1) ==> !Decides(Distance(t, n - 1));
    }
  }

  /** A negative prediction is never replaced, except -1 by one of the first three channels. */
  lemma {:induction false} Stuck(t: Timer, k: nat, n: nat)
    requires FiveChannels(t) && k <= n <= 5 && Predict(t, k) < 0 && (Predict(t, k) == -1 ==> k >= 3)
    ensures Predict(t, n) == Predict(t, k)
  {
    if n > k {
      Stuck(t, k, n - 1);
    }
  }

  lemma {:induction false} Minimum(t: Timer, i: nat, n: nat)
    requires FiveChannels(t) && i < 3 && i == First(t, 0) && Distance(t, i) > 0 && i < n <= 5
    requires Predict(t, i + 1) == Distance(t, i)
    ensures var p := Predict(t, n);
      p > 0 && (exists j :: 0 <= j < n && On(t, j) && Distance(t, j) == p)
      && forall j :: 0 <= j < n && On(t, j) && Distance(t, j) > 0 ==> p <= Distance(t, j)
  {
    hide Wrap, Compares;
    if n > i + 1 {
      Minimum(t, i, n - 1);
      assert Predict(t, n) == Consider(t, n - 1, Predict(t, n - 1));
      assert Distance(t, n - 1) == Distance(t, n - 1);
      if !(On(t, n - 1) && 0 < Distance(t, n - 1) < Predict(t, n - 1)) {
        assert Predict(t, n) == Predict(t, n - 1);
      }
    }
  }

  /** Ticks until the count is at the value of channel `j`, from the signed distance. */
  lemma TicksAway(t: Timer, j: int)
    requires Free(t) && 0 <= j < 5
    ensures var d := Distance(t, j);
      TicksTo(t, j) == if d > 0 then d else 0x1_0000 + d
  {
  }

  /** Some value comes before the predicted tick. */
  ghost predicate Misses(t: Timer)
    requires FiveChannels(t)
  {
    exists j :: On(t, j) && TicksTo(t, j) < Unsigned(Predict(t, 5))
  }

  /** The exact condition for one prediction. */
  lemma MissesIffBlocked(t: Timer)
    requires Free(t)
    ensures Misses(t) <==> Blocked(t)
  {
    hide Wrap, Compares, Predict;
    PredictionForm(t);
    forall j | On(t, j)
      ensures TicksTo(t, j) == if Distance(t, j) > 0 then Distance(t, j) else 0x1_0000 + Distance(t, j)
    {
      TicksAway(t, j);
    }
    var i := First(t, 0);
    if i == 3 {
      assert forall j :: 0 <= j < 3 && On(t, j) ==> !Decides(Distance(t, j));
    }
  }

  // ----- runs -----

  ghost predicate SameChannels(t: Timer, r: Timer) {
    && FiveChannels(t) && FiveChannels(r)
    && forall i :: 0 <= i < 5 ==> r.ch[i].value == t.ch[i].value && r.ch[i].ctl == t.ch[i].ctl
  }

  /** The loop over the channels sees the same distances. */
  ghost predicate SameView(t: Timer, r: Timer) {
    && SameChannels(t, r) && r.count == t.count && r.mode == t.mode
    && (t.mode == UpDown ==> r.down == t.down)
  }

  lemma SameDistances(t: Timer, r: Timer)
    requires SameView(t, r)
    ensures forall j :: On(t, j) <==> On(r, j)
    ensures forall j :: 0 <= j < 5 ==> Distance(t, j) == Distance(r, j)
  {
  }

  lemma {:induction false} FirstDepends(t: Timer, r: Timer, i: nat)
    requires SameView(t, r) && i <= 3
    ensures First(t, i) == First(r, i)
    decreases 3 - i
  {
    hide Distance, On;
    SameDistances(t, r);
    if i < 3 {
      FirstDepends(t, r, i + 1);
    }
  }

  lemma BlockedDepends(t: Timer, r: Timer)
    requires SameView(t, r)
    ensures Blocked(t) <==> Blocked(r)
  {
    hide Distance, First, On;
    FirstDepends(t, r, 0);
    SameDistances(t, r);
    assert forall j :: On(t, j) ==> 0 <= j < 5 by { OnIsChannel(t); }
  }

  lemma OnIsChannel(t: Timer)
    requires FiveChannels(t)
    ensures forall j :: On(t, j) ==> 0 <= j < 5
  {
  }

  /** A prediction made at count `c` misses nothing. */
  ghost predicate SafeAt(t: Timer, c: Short)
    requires FiveChannels(t)
  {
    !Blocked(t.(count := c))
  }

  lemma SafeDepends(t: Timer, r: Timer, c: Short)
    requires SameChannels(t, r) && t.mode == r.mode == FreeRunning
    ensures SafeAt(t, c) <==> SafeAt(r, c)
  {
    BlockedDepends(t.(count := c), r.(count := c));
  }

  /** All channels in compare mode have one value. */
  ghost predicate OneValue(t: Timer)
    requires FiveChannels(t)
  {
    forall i, j :: On(t, i) && On(t, j) ==> t.ch[i].value == t.ch[j].value
  }

  /** The counts at which predictions are made in the long run are safe: every compare value and, if
      there is only one, the count before it. */
  ghost predicate SafePoints(t: Timer)
    requires FiveChannels(t)
  {
    forall j :: On(t, j) ==>
      SafeAt(t, t.ch[j].value) && (OneValue(t) ==> SafeAt(t, Wrap(t.ch[j].value - 1)))
  }

  /** `CaptureCompare` ran at tick `n`. */
  ghost predicate RanAtTick(t: Timer, n: nat)
    requires FiveChannels(t) && n > 0
  {
    RanAt(Ticks(t, n).log) != RanAt(Ticks(t, n - 1).log)
  }

  /** Every tick that reaches a compare value runs `CaptureCompare`. */
  ghost predicate NeverMisses(t: Timer)
    requires FiveChannels(t)
  {
    forall n: nat :: n > 0 && Hit(t, Ticks(t, n).count) ==> RanAtTick(t, n)
  }

  /** The count at which the countdown ends. */
  function FirePoint(t: Timer): Short { Wrap(t.count + Unsigned(t.next)) }

  /** The countdown is not late, and the prediction made when it ends will not be either. */
  ghost predicate OnTime(t: Timer) {
    && Free(t) && t.next != 0 && SafePoints(t) && SafeAt(t, FirePoint(t))
    && forall j :: On(t, j) ==> Unsigned(t.next) <= TicksTo(t, j)
  }

  /** A prediction is never 0, and -1 unless it is the distance of some channel. */
  lemma PredictionIsSomeDistance(t: Timer)
    requires FiveChannels(t)
    ensures var p := Predict(t, 5);
      && p != 0 && ((exists j :: On(t, j) && Distance(t, j) == p) || (p == -1 && First(t, 0) == 3))
  {
    hide Wrap, Predict;
    PredictionForm(t);
  }

  /** Safe predictions lead to safe predictions. */
  lemma FreshIsOnTime(t: Timer)
    requires Free(t) && t.next == Predict(t, 5) && SafePoints(t) && SafeAt(t, t.count)
    ensures OnTime(t)
  {
    hide Wrap, Unsigned, Predict, Blocked, First, Distance;
    assert t.(count := t.count) == t;
    PredictionIsSomeDistance(t);
    MissesIffBlocked(t);
    assert SafeAt(t, FirePoint(t)) by {
      if j :| On(t, j) && Distance(t, j) == t.next {
        AwayArrives(t, j);
      } else {
        NothingAway(t);
      }
    }
  }

  lemma AwayArrives(t: Timer, j: int)
    requires Free(t) && 0 <= j < 5 && t.next == Distance(t, j)
    ensures FirePoint(t) == t.ch[j].value
  {
  }

  lemma NobodyDecides(t: Timer, j: int)
    requires FiveChannels(t) && First(t, 0) == 3 && !Blocked(t) && On(t, j)
    ensures Distance(t, j) == 0 || Distance(t, j) == -1
  {
    hide Wrap;
  }

  lemma AtValue(t: Timer, j: int)
    requires FiveChannels(t) && 0 <= j < 5 && Distance(t, j) == 0
    ensures t.ch[j].value == t.count
  {
  }

  lemma NobodyOn(t: Timer, c: Short)
    requires FiveChannels(t) && forall j :: !On(t, j)
    ensures SafeAt(t, c)
  {
    assert forall j :: On(t.(count := c), j) <==> On(t, j);
  }

  lemma OneTurnLess(t: Timer)
    requires t.next == -1
    ensures FirePoint(t) == Wrap(t.count - 1)
  {
  }

  /** If nothing decides and nothing is one behind, the only value is the count itself. */
  lemma NothingAway(t: Timer)
    requires Free(t) && t.next == -1 && First(t, 0) == 3 && !Blocked(t) && SafePoints(t)
    requires forall j :: On(t, j) ==> Distance(t, j) != -1
    ensures SafeAt(t, FirePoint(t))
  {
    hide Blocked, First, Distance, Wrap, FirePoint, SafeAt;
    OneTurnLess(t);
    forall j | On(t, j) ensures t.ch[j].value == t.count {
      NobodyDecides(t, j);
      AtValue(t, j);
    }
    if j :| On(t, j) {
      assert OneValue(t);
    } else {
      NobodyOn(t, FirePoint(t));
    }
  }

  /** One tick of a timer that is on time: a value that is reached gets its run. */
  lemma TickOnTime(t: Timer)
    requires OnTime(t)
    ensures var r := Tick(t);
      && OnTime(r) && SameChannels(t, r) && r.count == Wrap(t.count + 1)
      && (Hit(t, r.count) ==> RanAt(r.log) != RanAt(t.log))
  {
    hide Tick, RanAt, Predict, Blocked, Wrap, Unsigned, To;
    FreeTickEffect(t);
    var r := Tick(t);
    NextStep(t.next);
    forall j | On(t, j)
      ensures On(r, j) && (r.count == t.ch[j].value <==> TicksTo(t, j) == 1)
      ensures TicksTo(r, j) == if TicksTo(t, j) == 1 then 0x1_0000 else TicksTo(t, j) - 1
    {
      CountStep(t.count, t.ch[j].value);
    }
    SafePointsDepend(t, r);
    if t.next == 1 {
      NextIsHere(t);
      SafeDepends(t, r, r.count);
      FreshIsOnTime(r);
    } else {
      SameFirePoint(t, r);
      SafeDepends(t, r, FirePoint(r));
    }
  }

  lemma SafePointsDepend(t: Timer, r: Timer)
    requires SameChannels(t, r) && t.mode == r.mode == FreeRunning
    ensures SafePoints(t) <==> SafePoints(r)
  {
    hide SafeAt;
    assert forall j :: On(t, j) <==> On(r, j);
    assert OneValue(t) <==> OneValue(r);
    forall j | On(t, j)
      ensures SafeAt(t, t.ch[j].value) <==> SafeAt(r, r.ch[j].value)
      ensures SafeAt(t, Wrap(t.ch[j].value - 1)) <==> SafeAt(r, Wrap(r.ch[j].value - 1))
    {
      SafeDepends(t, r, t.ch[j].value);
      SafeDepends(t, r, Wrap(t.ch[j].value - 1));
    }
  }

  lemma NextIsHere(t: Timer)
    requires t.next == 1
    ensures FirePoint(t) == Wrap(t.count + 1)
  {
  }

  lemma SameFirePoint(t: Timer, r: Timer)
    requires t.next != 0 && r.count == Wrap(t.count + 1) && r.next == Wrap(t.next - 1)
    ensures FirePoint(r) == FirePoint(t)
  {
    hide Wrap, Unsigned;
    NextStep(t.next);
    WrapAgain(t.count + 1, Unsigned(t.next) - 1);
  }

  lemma {:induction false} TicksOnTime(t: Timer, n: nat)
    requires OnTime(t)
    ensures OnTime(Ticks(t, n)) && SameChannels(t, Ticks(t, n))
  {
    hide Tick, OnTime;
    if n > 0 {
      TicksOnTime(t, n - 1);
      TickOnTime(Ticks(t, n - 1));
    }
  }

  lemma OnTimeNeverMisses(t: Timer)
    requires OnTime(t)
    ensures NeverMisses(t)
  {
    hide Tick, SafePoints, SafeAt, TicksTo, RanAt, Hit;
    forall n: nat | n > 0 && Hit(t, Ticks(t, n).count)
      ensures RanAtTick(t, n)
    {
      var s := Ticks(t, n - 1);
      TicksOnTime(t, n - 1);
      TickOnTime(s);
      HitsStay(t, s);
    }
  }

  // ----- the other direction -----

  /** What is never missed from `t` on is not missed from a later point on. */
  lemma LaterNeverMisses(t: Timer, n: nat)
    requires FiveChannels(t) && NeverMisses(t) && SameChannels(t, Ticks(t, n))
    ensures NeverMisses(Ticks(t, n))
  {
    hide Ticks, RanAt, Hit;
    var r := Ticks(t, n);
    HitsStay(t, r);
    forall m: nat | m > 0 && Hit(r, Ticks(r, m).count)
      ensures RanAtTick(r, m)
    {
      TicksAdd(t, n, m);
      TicksAdd(t, n, m - 1);
      assert RanAtTick(t, n + m);
    }
  }

  /** A late prediction does miss. */
  lemma BlockedMisses(t: Timer)
    requires Free(t) && t.next == Predict(t, 5) && Blocked(t)
    ensures !NeverMisses(t)
  {
    hide Predict, Blocked, RanAt, Ticks, Wrap, Unsigned, To;
    MissesIffBlocked(t);
    var j :| On(t, j) && TicksTo(t, j) < Unsigned(t.next);
    var n := TicksTo(t, j);
    Countdown(t, n);
    Countdown(t, n - 1);
    ToArrives(t.count, t.ch[j].value);
    assert Hit(t, Ticks(t, n).count) && !RanAtTick(t, n);
  }

  lemma ToArrives(count: Short, v: Short)
    ensures Wrap(count + To(count, v)) == v
  {
  }

  /** In a run that misses nothing, a tick that reaches a value leaves a new prediction. */
  lemma {:induction false} FreeRunsOn(t: Timer, n: nat)
    requires Free(t)
    ensures Free(Ticks(t, n)) && SameChannels(t, Ticks(t, n)) && Ticks(t, n).count == Wrap(t.count + n)
    ensures n > 0 && RanAtTick(t, n) ==> Ticks(t, n).next == Predict(Ticks(t, n), 5)
  {
    hide Tick, RanAt, Predict, Wrap;
    if n == 0 {
      WrapNothing(t.count);
    } else {
      FreeRunsOn(t, n - 1);
      FreeTickEffect(Ticks(t, n - 1));
      WrapAgain(t.count + (n - 1), 1);
    }
  }

  lemma ValueIsSafe(t: Timer, j: int)
    requires Free(t) && NeverMisses(t) && On(t, j)
    ensures var r := Ticks(t, TicksTo(t, j));
      && Free(r) && SameChannels(t, r) && r.count == t.ch[j].value
      && r.next == Predict(r, 5) && NeverMisses(r) && SafeAt(t, t.ch[j].value)
  {
    hide Ticks, RanAt, Predict, Wrap, Blocked, NeverMisses, RanAtTick, To;
    var n := TicksTo(t, j);
    var r := Ticks(t, n);
    FreeRunsOn(t, n);
    ToArrives(t.count, t.ch[j].value);
    assert RanAtTick(t, n) by { HitIsRun(t, n, j); }
    LaterNeverMisses(t, n);
    if Blocked(r) {
      BlockedMisses(r);
    }
    SafeDepends(t, r, r.count);
    assert r.(count := r.count) == r;
  }

  lemma HitIsRun(t: Timer, n: nat, j: int)
    requires FiveChannels(t) && NeverMisses(t) && On(t, j) && n > 0
    requires Ticks(t, n).count == t.ch[j].value
    ensures RanAtTick(t, n)
  {
    hide Ticks, RanAt;
    assert Hit(t, Ticks(t, n).count);
  }

  /** If there is only one value, the prediction made on it ends one tick early. */
  lemma EarlyIsSafe(t: Timer, j: int)
    requires Free(t) && NeverMisses(t) && On(t, j) && OneValue(t)
    ensures SafeAt(t, Wrap(t.ch[j].value - 1))
  {
    hide Ticks, RanAt, Predict, Wrap, Blocked, NeverMisses, RanAtTick, To, Unsigned;
    var v := t.ch[j].value;
    ValueIsSafe(t, j);
    var a := Ticks(t, TicksTo(t, j));
    assert a.next == -1 by { OnlyHere(a); }
    MinusOne();
    Countdown(a, 0xFFFE);
    FreeTickEffect(Ticks(a, 0xFFFE));
    OneMoreTick(a, 0xFFFE);
    var r := Ticks(a, 0xFFFF);
    FreeRunsOn(a, 0xFFFF);
    WholeTurnLessOne(v);
    LaterNeverMisses(a, 0xFFFF);
    if Blocked(r) {
      BlockedMisses(r);
    }
    SafeDepends(t, r, r.count);
    assert r.(count := r.count) == r;
  }

  lemma OneMoreTick(t: Timer, n: nat)
    requires FiveChannels(t)
    ensures Ticks(t, n + 1) == Tick(Ticks(t, n))
  {
  }

  lemma WholeTurnLessOne(v: Short)
    ensures Wrap(v + 0xFFFF) == Wrap(v - 1) && Wrap(-1 - 0xFFFE) == 1
  {
  }

  /** On the only value there is, the prediction finds nothing. */
  lemma OnlyHere(t: Timer)
    requires Free(t) && t.next == Predict(t, 5) && forall j :: On(t, j) ==> t.ch[j].value == t.count
    ensures t.next == -1
  {
    hide Predict;
    PredictionForm(t);
    assert forall j :: On(t, j) ==> Distance(t, j) == 0;
  }

  /** For ever: from a new prediction on, no compare value is missed if and only if the prediction is
      not blocked now, nor at any compare value, nor just before the value if there is only one. */
  lemma NeverMissesIff(t: Timer)
    requires Free(t) && t.next == Predict(t, 5)
    ensures NeverMisses(t) <==> !Blocked(t) && SafePoints(t)
  {
    hide Blocked, Predict, NeverMisses, OnTime;
    assert t.(count := t.count) == t;
    if NeverMisses(t) {
      if Blocked(t) {
        BlockedMisses(t);
      }
      forall j | On(t, j)
        ensures SafeAt(t, t.ch[j].value) && (OneValue(t) ==> SafeAt(t, Wrap(t.ch[j].value - 1)))
      {
        ValueIsSafe(t, j);
        if OneValue(t) {
          EarlyIsSafe(t, j);
        }
      }
    } else if !Blocked(t) && SafePoints(t) {
      FreshIsOnTime(t);
      OnTimeNeverMisses(t);
    }
  }

  predicate LastOnly(t: Timer)
    requires FiveChannels(t)
  {
    forall i :: 0 <= i < 3 ==> !On(t, i)
  }

  /** Channels 3 and 4 cannot start a countdown: without one of the first three they miss values. */
  lemma LastChannelsAlone(t: Timer, j: int)
    requires Free(t) && t.next == Predict(t, 5) && 3 <= j && On(t, j) && LastOnly(t)
    ensures !NeverMisses(t)
  {
    hide Predict, NeverMisses, SafePoints, Blocked;
    NeverMissesIff(t);
    UnsafeSomewhere(t, j);
  }

  /** Seen from one of the two values, or from just before a single one, a value is too near. */
  lemma UnsafeSomewhere(t: Timer, j: int)
    requires FiveChannels(t) && 3 <= j && On(t, j) && LastOnly(t)
    ensures !SafePoints(t)
  {
    hide SafeAt, Wrap;
    var k, v: int := 7 - j, t.ch[j].value;
    if On(t, k) && t.ch[k].value != v {
      Neighbours(t.ch[k].value, v);
      UnsafeAt(t, v, k);
      UnsafeAt(t, t.ch[k].value, j);
    } else {
      assert OneValue(t);
      JustBehind(v);
      UnsafeAt(t, Wrap(v - 1), j);
    }
  }

  lemma UnsafeAt(t: Timer, c: Short, k: int)
    requires FiveChannels(t) && 3 <= k && On(t, k) && LastOnly(t)
    ensures Decides(Wrap(t.ch[k].value - c)) ==> !SafeAt(t, c)
  {
    var r := t.(count := c);
    assert On(r, k) && Distance(r, k) == Wrap(t.ch[k].value - c);
    assert First(r, 0) == 3 by {
      assert forall i :: 0 <= i < 3 ==> !On(r, i) by { assert forall i :: On(r, i) <==> On(t, i); }
    }
  }

  lemma Neighbours(x: Short, y: Short)
    ensures x != y ==> Decides(Wrap(x - y)) || Decides(Wrap(y - x))
  {
  }

  lemma JustBehind(v: Short)
    ensures Wrap(v - Wrap(v - 1)) == 1
  {
  }

  // ----- prediction and polling -----

  /** A free-running tick is a polled one if and only if the countdown ends where a value is. */
  lemma FreePolls(t: Timer)
    requires Free(t)
    ensures Tick(t) == PolledTick(t) <==> (t.next == 1 <==> Hit(t, Wrap(t.count + 1)))
  {
    hide Wrap, Hit, CaptureCompare;
    var t1 := FreeCount(t);
    WrapZero(t.next);
    HitsStay(t, t1);
    assert Due(t1) <==> t.next == 1;
    assert Polled(t1) <==> Hit(t, Wrap(t.count + 1));
    CaptureLogs(t1);
  }

  lemma CaptureLogs(t: Timer)
    requires FiveChannels(t)
    ensures |t.log| < |CaptureCompare(t).log|
  {
    hide VisitChannels;
    LogGrows(t.(log := t.log + [Ran(t.count)]), 5);
  }

  /** With two values or more a safe prediction ends on one of them. */
  lemma FreshEndsOnValue(t: Timer)
    requires Free(t) && t.next == Predict(t, 5) && SafePoints(t) && SafeAt(t, t.count) && !OneValue(t)
    ensures OnTime(t) && Hit(t, FirePoint(t))
  {
    hide Wrap, Unsigned, Predict, Blocked, First, Distance, FirePoint;
    assert t.(count := t.count) == t;
    FreshIsOnTime(t);
    PredictionIsSomeDistance(t);
    if j :| On(t, j) && Distance(t, j) == t.next {
      AwayArrives(t, j);
    } else {
      forall j | On(t, j) ensures t.ch[j].value == t.count {
        NobodyDecides(t, j);
        AtValue(t, j);
      }
      assert false;
    }
  }

  /** On time, and the countdown ends on a value. */
  ghost predicate OnTheDot(t: Timer) { OnTime(t) && !OneValue(t) && Hit(t, FirePoint(t)) }

  lemma TickOnTheDot(t: Timer)
    requires OnTheDot(t)
    ensures OnTheDot(Tick(t)) && Tick(t) == PolledTick(t)
  {
    hide Tick, PolledTick, Predict, Blocked, Wrap, Unsigned, To, SafePoints, SafeAt, FirePoint, Hit, OneValue;
    var r := Tick(t);
    TickOnTime(t);
    FreeTickEffect(t);
    HitsStay(t, r);
    OneValueDepends(t, r);
    FreePolls(t);
    if t.next == 1 {
      NextIsHere(t);
      SafeDepends(t, r, r.count);
      FreshEndsOnValue(r);
    } else {
      NotYetThere(t);
      SameFirePoint(t, r);
    }
  }

  lemma OneValueDepends(t: Timer, r: Timer)
    requires SameChannels(t, r)
    ensures OneValue(t) <==> OneValue(r)
  {
    assert forall j :: On(t, j) <==> On(r, j);
  }

  lemma NotYetThere(t: Timer)
    requires OnTime(t) && t.next != 1
    ensures !Hit(t, Wrap(t.count + 1))
  {
    hide SafePoints, SafeAt;
    NextStep(t.next);
    forall j | On(t, j) ensures t.ch[j].value != Wrap(t.count + 1) {
      CountStep(t.count, t.ch[j].value);
    }
  }

  lemma {:induction false} TicksOnTheDot(t: Timer, n: nat)
    requires OnTheDot(t)
    ensures OnTheDot(Ticks(t, n)) && Ticks(t, n) == PolledTicks(t, n)
  {
    hide Tick, PolledTick, SafePoints, SafeAt, FirePoint, Hit, OneValue;
    if n > 0 {
      TicksOnTheDot(t, n - 1);
      TickOnTheDot(Ticks(t, n - 1));
    }
  }

  /** Agreement with polling up to tick `n` means that tick `n` runs if and only if it is a hit. */
  lemma AgreementIsRunIffHit(t: Timer, n: nat)
    requires Free(t) && n > 0 && Ticks(t, n - 1) == PolledTicks(t, n - 1) && Ticks(t, n) == PolledTicks(t, n)
    ensures RanAtTick(t, n) <==> Hit(t, Ticks(t, n).count)
  {
    hide Tick, PolledTick, RanAt, Hit, Wrap;
    FreeRunsOn(t, n - 1);
    var s := Ticks(t, n - 1);
    FreePolls(s);
    FreeTickEffect(s);
    HitsStay(t, s);
  }

  /** For ever: from a new prediction on, a free-running timer does what a polling one does if and only
      if there are two compare values or more and none is ever missed. */
  lemma FreePollingIff(t: Timer)
    requires Free(t) && t.next == Predict(t, 5)
    ensures Agrees(t) <==> !OneValue(t) && !Blocked(t) && SafePoints(t)
  {
    hide Predict, Blocked, SafePoints, OneValue;
    if Agrees(t) {
      AgreementNeeds(t);
    }
    if !OneValue(t) && !Blocked(t) && SafePoints(t) {
      SafeNow(t);
      FreshEndsOnValue(t);
      forall n: nat ensures Ticks(t, n) == PolledTicks(t, n) {
        TicksOnTheDot(t, n);
      }
    }
  }

  lemma AgreementNeeds(t: Timer)
    requires Free(t) && t.next == Predict(t, 5) && Agrees(t)
    ensures !OneValue(t) && !Blocked(t) && SafePoints(t)
  {
    hide Predict, Blocked, SafePoints, NeverMisses, OneValue;
    PollingNeverMisses(t);
    NeverMissesIff(t);
    if OneValue(t) {
      OneValueRunsEarly(t);
    }
  }

  lemma SafeNow(t: Timer)
    requires FiveChannels(t) && !Blocked(t)
    ensures SafeAt(t, t.count)
  {
    assert t.(count := t.count) == t;
  }

  lemma PollingNeverMisses(t: Timer)
    requires Free(t) && Agrees(t)
    ensures NeverMisses(t)
  {
    hide Ticks, PolledTicks, RanAtTick, Hit;
    forall n: nat | n > 0 && Hit(t, Ticks(t, n).count) ensures RanAtTick(t, n) {
      AgreementIsRunIffHit(t, n);
    }
  }

  /** With one value or none, some run is on no value. */
  lemma OneValueRunsEarly(t: Timer)
    requires Free(t) && t.next == Predict(t, 5) && OneValue(t) && NeverMisses(t)
    ensures !Agrees(t)
  {
    hide Ticks, PolledTicks, Predict, NeverMisses, RanAtTick, Hit, Wrap;
    if j :| On(t, j) {
      ValueIsSafe(t, j);
      var n := TicksTo(t, j);
      EarlyRun(t, n, Ticks(t, n));
    } else {
      NoTicks(t);
      EarlyRun(t, 0, t);
    }
  }

  lemma NoTicks(t: Timer)
    requires FiveChannels(t)
    ensures Ticks(t, 0) == t
  {
  }

  /** From a point on the only value, or without one, the next run is 65535 ticks away, on no value. */
  lemma EarlyRun(t: Timer, n: nat, a: Timer)
    requires Free(t) && a == Ticks(t, n) && Free(a) && SameChannels(t, a) && a.next == Predict(a, 5)
    requires forall j :: On(a, j) ==> a.ch[j].value == a.count
    ensures !Agrees(t)
  {
    hide Ticks, PolledTicks, Predict, RanAt, Wrap, Unsigned, Hit;
    OnlyHere(a);
    MinusOne();
    Countdown(a, 0xFFFE);
    FreeTickEffect(Ticks(a, 0xFFFE));
    OneMoreTick(a, 0xFFFE);
    WholeTurnLessOne(a.count);
    FreeRunsOn(a, 0xFFFF);
    TicksAdd(t, n, 0xFFFE);
    TicksAdd(t, n, 0xFFFF);
    var m := n + 0xFFFF;
    assert RanAtTick(t, m);
    NoHitBehind(t, a);
    if Ticks(t, m) == PolledTicks(t, m) && Ticks(t, m - 1) == PolledTicks(t, m - 1) {
      AgreementIsRunIffHit(t, m);
    }
  }

  lemma NoHitBehind(t: Timer, a: Timer)
    requires SameChannels(t, a) && forall j :: On(a, j) ==> a.ch[j].value == a.count
    ensures !Hit(t, Wrap(a.count - 1))
  {
    forall j | On(t, j) ensures t.ch[j].value != Wrap(a.count - 1) {
      assert On(a, j);
    }
  }
}
