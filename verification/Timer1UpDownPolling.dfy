/** Up/down mode for ever: exactly when no compare value is missed, and exactly when the timer does what
    a polling one does. */
module Timer1UpDownPolling {
  import opened Timer1Model
  import opened Timer1Prediction
  import opened Timer1FreeRunning
  import opened Timer1Waveforms
  import opened Timer1Misses
  import opened Timer1UpDown

  /** With a new prediction. */
  ghost predicate Fresh(t: Timer, top: int) { Ready(t, top) && t.next == Predict(t, 5) }

  /** Ticks to the next turn. */
  function ToTurn(t: Timer, top: int): int { if t.down then t.count else top - t.count }

  /** A turn makes a new prediction. */
  lemma PhaseEnds(t: Timer, top: int)
    requires Fresh(t, top)
    ensures ToTurn(t, top) >= 1
    ensures var s := Ticks(t, ToTurn(t, top));
      && Fresh(s, top) && SameChannels(t, s) && s.down == !t.down && s.count == if s.down then top else 0
  {
    hide Ticks, Predict, RanAt;
    if t.down {
      WayDown(t, top);
    } else {
      FreshClimbs(t, top);
      WayUp(t, top, top - t.count);
    }
  }

  // ----- the conditions look at the channels only -----

  lemma NextDepends(t: Timer, r: Timer, top: int, c: Short, x: int)
    requires SameChannels(t, r) && t.mode == r.mode == UpDown
    ensures RunsNext(t, top, c, x) <==> RunsNext(r, top, c, x)
  {
    hide Distance, First, On;
    FirstDepends(At(t, c), At(r, c), 0);
    SameDistances(At(t, c), At(r, c));
    OnIsChannel(At(t, c));
  }

  /** The condition for missing nothing, or for running on nothing else either. */
  ghost predicate Good(exact: bool, t: Timer, top: int, c: Short)
    requires FiveChannels(t) && 0 <= c
  {
    if exact then Follows(t, top, c) else Serves(t, top, c)
  }

  lemma {:induction false} GoodDepends(exact: bool, t: Timer, r: Timer, top: int, c: Short)
    requires SameChannels(t, r) && t.mode == r.mode == UpDown && 0 <= c
    ensures Good(exact, t, top, c) <==> Good(exact, r, top, c)
    decreases c
  {
    hide RunsNext, Hit;
    HitsStay(t, r);
    forall x ensures RunsNext(t, top, c, x) <==> RunsNext(r, top, c, x) {
      NextDepends(t, r, top, c, x);
    }
    forall x | RunsNext(t, top, c, x)
      ensures 0 <= x < c && (Good(exact, t, top, x) <==> Good(exact, r, top, x))
    {
      NextIsBelow(t, top, c, x);
      GoodDepends(exact, t, r, top, x);
    }
  }

  lemma NextIsBelow(t: Timer, top: int, c: Short, x: int)
    requires FiveChannels(t) && RunsNext(t, top, c, x)
    ensures 0 <= x < c
  {
  }

  // ----- every tick -----

  ghost predicate GoodTick(exact: bool, t: Timer, n: nat)
    requires FiveChannels(t) && n > 0
  {
    && (Hit(t, Ticks(t, n).count) ==> RanAtTick(t, n))
    && (exact && RanAtTick(t, n) ==> Hit(t, Ticks(t, n).count))
  }

  /** What the condition asks of a way down, count by count. */
  lemma GoodIff(exact: bool, t: Timer, top: int, c: Short)
    requires Triangular(t, top) && 0 <= c <= top
    ensures Good(exact, t, top, c) <==> if exact then AllEqual(t, top, c) else AllServed(t, top, c)
  {
    hide Serves, Follows, AllEqual, AllServed;
    ServesIff(t, top, c);
    FollowsIff(t, top, c);
  }

  lemma PhaseIsGood(exact: bool, t: Timer, top: int, n: nat)
    requires Fresh(t, top) && 1 <= n <= ToTurn(t, top) && (t.down ==> Good(exact, t, top, t.count))
    ensures GoodTick(exact, t, n)
  {
    hide Ticks, Predict, RunsBelow, RanAtTick, Hit, Good;
    if t.down {
      GoodIff(exact, t, top, t.count);
      DownTickRuns(t, top, n);
      assert t == At(t, t.count);
    } else {
      UpTickRuns(t, top, n);
    }
  }

  lemma {:induction false} EveryTick(exact: bool, t: Timer, top: int, n: nat)
    requires Fresh(t, top) && n > 0
    requires (t.down ==> Good(exact, t, top, t.count)) && Good(exact, t, top, top)
    ensures GoodTick(exact, t, n)
    decreases n
  {
    hide Ticks, Predict, RanAt, Hit, Good;
    var k := ToTurn(t, top);
    PhaseEnds(t, top);
    if n <= k {
      PhaseIsGood(exact, t, top, n);
    } else {
      var s := Ticks(t, k);
      GoodDepends(exact, t, s, top, top);
      EveryTick(exact, s, top, n - k);
      TicksAdd(t, k, n - k);
      TicksAdd(t, k, n - k - 1);
      HitsStay(t, s);
    }
  }

  /** The other direction: a way down that is good, tick by tick, meets the condition. */
  lemma GoodPhase(exact: bool, t: Timer, top: int)
    requires Fresh(t, top) && t.down && forall n: nat :: n > 0 ==> GoodTick(exact, t, n)
    ensures Good(exact, t, top, t.count)
  {
    hide Ticks, Predict, RunsBelow, RanAtTick, Hit, Good;
    assert t == At(t, t.count);
    forall x | 0 <= x < t.count
      ensures Hit(t, x) ==> x in RunsBelow(t, top)
      ensures exact && x in RunsBelow(t, top) ==> Hit(t, x)
    {
      var n := t.count - x;
      assert GoodTick(exact, t, n);
      DownTickRuns(t, top, n);
    }
    GoodIff(exact, t, top, t.count);
  }

  lemma LaterIsGood(exact: bool, t: Timer, k: nat)
    requires FiveChannels(t) && SameChannels(t, Ticks(t, k))
    requires forall n: nat :: n > 0 ==> GoodTick(exact, t, n)
    ensures forall n: nat :: n > 0 ==> GoodTick(exact, Ticks(t, k), n)
  {
    hide Ticks, RanAt, Hit;
    var s := Ticks(t, k);
    forall n: nat | n > 0 ensures GoodTick(exact, s, n) {
      assert GoodTick(exact, t, k + n);
      TicksAdd(t, k, n);
      TicksAdd(t, k, n - 1);
      HitsStay(t, s);
    }
  }

  /** The next time at the top. */
  lemma ReachesTop(t: Timer, top: int) returns (k: nat)
    requires Fresh(t, top)
    ensures var s := Ticks(t, k); Fresh(s, top) && SameChannels(t, s) && s.down && s.count == top
  {
    hide Ticks, Predict;
    k := ToTurn(t, top);
    PhaseEnds(t, top);
    if t.down {
      var s := Ticks(t, k);
      PhaseEnds(s, top);
      TicksAdd(t, k, top);
      k := k + top;
    }
  }

  lemma GoodForEver(exact: bool, t: Timer, top: int)
    requires Fresh(t, top)
    ensures (forall n: nat :: n > 0 ==> GoodTick(exact, t, n))
      <==> (t.down ==> Good(exact, t, top, t.count)) && Good(exact, t, top, top)
  {
    hide Ticks, Predict, Good, GoodTick;
    if forall n: nat :: n > 0 ==> GoodTick(exact, t, n) {
      var k := ReachesTop(t, top);
      LaterIsGood(exact, t, k);
      GoodPhase(exact, Ticks(t, k), top);
      GoodDepends(exact, t, Ticks(t, k), top, top);
      if t.down {
        GoodPhase(exact, t, top);
      }
    }
    if (t.down ==> Good(exact, t, top, t.count)) && Good(exact, t, top, top) {
      forall n: nat | n > 0 ensures GoodTick(exact, t, n) {
        EveryTick(exact, t, top, n);
      }
    }
  }

  /** From a new prediction on, no compare value is ever missed if and only if the way down from the
      top, and the rest of the way down if the timer is on one, passes over none. */
  lemma UpDownNeverMissesIff(t: Timer, top: int)
    requires Fresh(t, top)
    ensures NeverMisses(t) <==> (t.down ==> Serves(t, top, t.count)) && Serves(t, top, top)
  {
    hide Ticks, Predict, Serves, Follows, RanAtTick, Hit;
    GoodForEver(false, t, top);
    if forall n: nat :: n > 0 ==> GoodTick(false, t, n) {
      forall n: nat | n > 0 && Hit(t, Ticks(t, n).count) ensures RanAtTick(t, n) {
        assert GoodTick(false, t, n);
      }
    }
  }

  // ----- polling -----

  lemma UpDownPolls(t: Timer, top: int)
    requires Ready(t, top)
    ensures Tick(t) == PolledTick(t) <==> (t.next == 1 <==> Hit(t, Tick(t).count))
  {
    hide Wrap, Hit, CaptureCompare, UpDownCount, Predict, OnTriangle;
    var t1 := UpDownCount(t);
    CountingStep(t, top);
    CaptureKeepsSettings(t1);
    HitsStay(t, t1);
    assert Tick(t).count == t1.count;
    assert Polled(t1) <==> Hit(t, t1.count);
    CaptureLogs(t1);
  }

  lemma {:induction false} StaysReady(t: Timer, top: int, n: nat)
    requires Ready(t, top)
    ensures Ready(Ticks(t, n), top) && SameChannels(t, Ticks(t, n))
    ensures n > 0 ==> (RanAtTick(t, n) <==> Ticks(t, n - 1).next == 1)
  {
    hide Tick, RanAt, Predict, OnTriangle;
    if n > 0 {
      StaysReady(t, top, n - 1);
      UpDownTickEffect(Ticks(t, n - 1), top);
    }
  }

  lemma {:induction false} GoodTicksPoll(t: Timer, top: int, n: nat)
    requires Ready(t, top) && forall n: nat :: n > 0 ==> GoodTick(true, t, n)
    ensures Ticks(t, n) == PolledTicks(t, n)
  {
    hide Tick, PolledTick, RanAt, Hit, OnTriangle;
    if n > 0 {
      GoodTicksPoll(t, top, n - 1);
      var s := Ticks(t, n - 1);
      StaysReady(t, top, n - 1);
      StaysReady(t, top, n);
      UpDownPolls(s, top);
      HitsStay(t, s);
      assert GoodTick(true, t, n);
    }
  }

  lemma PollingTicksAreGood(t: Timer, top: int, n: nat)
    requires Ready(t, top) && Agrees(t) && n > 0
    ensures GoodTick(true, t, n)
  {
    hide Tick, PolledTick, RanAt, Hit, OnTriangle;
    var s := Ticks(t, n - 1);
    StaysReady(t, top, n - 1);
    StaysReady(t, top, n);
    assert Ticks(t, n) == PolledTicks(t, n) && s == PolledTicks(t, n - 1);
    UpDownPolls(s, top);
    HitsStay(t, s);
  }

  /** From a new prediction on, the timer does what a polling one does if and only if the runs on the
      ways down are at the values there. */
  lemma UpDownPollingIff(t: Timer, top: int)
    requires Fresh(t, top)
    ensures Agrees(t) <==> (t.down ==> Follows(t, top, t.count)) && Follows(t, top, top)
  {
    hide Ticks, PolledTicks, Predict, Serves, Follows, GoodTick;
    GoodForEver(true, t, top);
    if Agrees(t) {
      forall n: nat | n > 0 ensures GoodTick(true, t, n) {
        PollingTicksAreGood(t, top, n);
      }
    }
    if forall n: nat :: n > 0 ==> GoodTick(true, t, n) {
      forall n: nat ensures Ticks(t, n) == PolledTicks(t, n) {
        GoodTicksPoll(t, top, n);
      }
    }
  }

  // ----- all values on the triangle -----

  /** Every channel in compare mode has a value that the count reaches. */
  ghost predicate OnTheWay(t: Timer, top: int)
    requires FiveChannels(t)
  {
    forall j :: On(t, j) ==> 0 <= t.ch[j].value <= top
  }

  /** Channel `j` has the value `x`. */
  predicate Has(t: Timer, j: int, x: int)
    requires FiveChannels(t)
  {
    On(t, j) && t.ch[j].value == x
  }

  /** Every value below the top stands on channel 1 or 2; if these two have different values below the
      top, the greater is just below it, and the lesser just below that unless channels 3 and 4 keep
      off the top. */
  ghost predicate Simple(t: Timer, top: int)
    requires FiveChannels(t)
  {
    && (forall x :: 0 <= x < top && Hit(t, x) ==> Has(t, 1, x) || Has(t, 2, x))
    && (forall x, y ::
          0 <= x < y < top && ((Has(t, 1, x) && Has(t, 2, y)) || (Has(t, 1, y) && Has(t, 2, x))) ==>
          y == top - 1 && (x == top - 2 || !(Has(t, 3, top) || Has(t, 4, top))))
  }

  /** Channel 1 or 2 has a value below `c`, and `r` is the greatest. */
  predicate Greatest(t: Timer, c: int, r: int)
    requires FiveChannels(t)
  {
    && r < c && (Has(t, 1, r) || Has(t, 2, r))
    && (On(t, 1) && t.ch[1].value < c ==> t.ch[1].value <= r)
    && (On(t, 2) && t.ch[2].value < c ==> t.ch[2].value <= r)
  }

  predicate SomeBelow(t: Timer, c: int)
    requires FiveChannels(t)
  {
    (On(t, 1) && t.ch[1].value < c) || (On(t, 2) && t.ch[2].value < c)
  }

  /** Distances on the way down from the top, or just below it. */
  lemma Measured(t: Timer, top: int, c: Short, j: int)
    requires Triangular(t, top) && 0 < top && OnTheWay(t, top) && top - 1 <= c <= top && On(t, j)
    ensures Distance(At(t, c), j) == if j < 3 then c - t.ch[j].value else t.ch[j].value - c
  {
  }

  lemma OnStays(t: Timer, c: Short)
    requires FiveChannels(t)
    ensures forall j :: On(At(t, c), j) <==> On(t, j)
  {
  }

  /** Whether a prediction is made at all: one of channels 1 and 2 is below. */
  lemma AheadIff(t: Timer, top: int, c: Short)
    requires Triangular(t, top) && 0 < top && OnTheWay(t, top) && top - 1 <= c <= top
    ensures Ahead(At(t, c)) <==> SomeBelow(t, c)
  {
    hide Distance;
    var u := At(t, c);
    OnStays(t, c);
    Measured(t, top, c, 0);
    if On(t, 1) { Measured(t, top, c, 1); }
    if On(t, 2) { Measured(t, top, c, 2); }
    assert First(u, 0) == First(u, 1);
    assert First(u, 3) == 3;
  }

  lemma NextFromTop(t: Timer, top: int, r: int)
    requires Triangular(t, top) && 0 < top && OnTheWay(t, top)
    ensures RunsNext(t, top, top, r) <==> Greatest(t, top, r)
  {
    hide Distance, Ahead, On;
    var u := At(t, top);
    AheadIff(t, top, top);
    OnStays(t, top);
    OnIsChannel(t);
    forall j | On(t, j)
      ensures Distance(u, j) == if j < 3 then top - t.ch[j].value else t.ch[j].value - top
    {
      Measured(t, top, top, j);
    }
    ChannelZero(t, top);
  }

  lemma ChannelZero(t: Timer, top: int)
    requires Triangular(t, top)
    ensures On(t, 0)
  {
  }

  lemma NextFromBelow(t: Timer, top: int, r: int)
    requires Triangular(t, top) && 0 < top && OnTheWay(t, top)
    ensures RunsNext(t, top, top - 1, r) <==>
      if Has(t, 3, top) || Has(t, 4, top)
      then r == top - 2 && SomeBelow(t, top - 1)
      else Greatest(t, top - 1, r)
  {
    hide Distance, Ahead, On;
    var c := top - 1;
    var u := At(t, c);
    AheadIff(t, top, c);
    OnStays(t, c);
    OnIsChannel(t);
    forall j | On(t, j)
      ensures Distance(u, j) == if j < 3 then c - t.ch[j].value else t.ch[j].value - c
    {
      Measured(t, top, c, j);
    }
    ChannelZero(t, top);
    GreatestExists(t, c);
  }

  lemma GreatestExists(t: Timer, c: int)
    requires FiveChannels(t)
    ensures (exists x :: Greatest(t, c, x)) <==> SomeBelow(t, c)
  {
    var a, b := t.ch[1].value, t.ch[2].value;
    if On(t, 1) && a < c {
      assert Greatest(t, c, if On(t, 2) && a < b < c then b else a);
    } else if On(t, 2) && b < c {
      assert Greatest(t, c, b);
    }
  }

  /** More than one below the top nothing runs, so nothing may be there. */
  lemma GoodFarDown(exact: bool, t: Timer, top: int, c: Short)
    requires FiveChannels(t) && 0 <= c < top - 1
    ensures Good(exact, t, top, c) <==> NoHits(t, 0, c)
  {
    hide Ahead, IsMinimum;
  }

  /** From just below the top: at most one value, and the run must find it. */
  lemma GoodBelowTop(exact: bool, t: Timer, top: int)
    requires Triangular(t, top) && 0 < top && OnTheWay(t, top)
    ensures Good(exact, t, top, top - 1) <==>
      if !SomeBelow(t, top - 1) then NoHits(t, 0, top - 1)
      else
        var r := if Has(t, 3, top) || Has(t, 4, top) then top - 2 else GreatestBelow(t, top - 1);
        Hit(t, r) && NoHits(t, 0, r) && NoHits(t, r + 1, top - 1)
  {
    hide RunsNext, Hit, On;
    var c := top - 1;
    forall r ensures RunsNext(t, top, c, r) <==>
      if Has(t, 3, top) || Has(t, 4, top) then r == top - 2 && SomeBelow(t, c) else Greatest(t, c, r)
    {
      NextFromBelow(t, top, r);
    }
    if SomeBelow(t, c) {
      GreatestIs(t, c);
      var m := GreatestBelow(t, c);
      var r := if Has(t, 3, top) || Has(t, 4, top) then top - 2 else m;
      HasHits(t, m);
      OnlyGreatest(t, c);
      assert RunsNext(t, top, c, r);
      GoodFarDown(exact, t, top, r);
      assert !NoHits(t, 0, c);
    }
  }

  function GreatestBelow(t: Timer, c: int): int
    requires FiveChannels(t)
  {
    var a, b := t.ch[1].value, t.ch[2].value;
    if On(t, 1) && a < c then (if On(t, 2) && a < b < c then b else a) else b
  }

  lemma GreatestIs(t: Timer, c: int)
    requires FiveChannels(t) && SomeBelow(t, c)
    ensures Greatest(t, c, GreatestBelow(t, c))
  {
  }

  lemma OnlyGreatest(t: Timer, c: int)
    requires FiveChannels(t)
    ensures forall x, y :: Greatest(t, c, x) && Greatest(t, c, y) ==> x == y
  {
  }

  lemma HasHits(t: Timer, x: int)
    requires FiveChannels(t) && (Has(t, 1, x) || Has(t, 2, x))
    ensures Hit(t, x)
  {
  }

  lemma GoodFromTop(exact: bool, t: Timer, top: int)
    requires Triangular(t, top) && 0 < top && OnTheWay(t, top)
    ensures Good(exact, t, top, top) <==>
      if !SomeBelow(t, top) then NoHits(t, 0, top)
      else
        var r := GreatestBelow(t, top);
        0 <= r < top && NoHits(t, r + 1, top) && Good(exact, t, top, r)
  {
    hide RunsNext, Hit, On;
    forall r ensures RunsNext(t, top, top, r) <==> Greatest(t, top, r) {
      NextFromTop(t, top, r);
    }
    if SomeBelow(t, top) {
      GreatestIs(t, top);
      var r := GreatestBelow(t, top);
      HasHits(t, r);
      OnlyGreatest(t, top);
      NextIsBelow(t, top, top, r);
      assert RunsNext(t, top, top, r);
      assert !NoHits(t, 0, top);
    }
  }

  /** On the triangle the two conditions are one, and it can be read off the channels. */
  lemma GoodIsSimple(exact: bool, t: Timer, top: int)
    requires Triangular(t, top) && 0 < top && OnTheWay(t, top)
    ensures Good(exact, t, top, top) <==> Simple(t, top)
  {
    hide Hit, On, Good, Greatest;
    GoodFromTop(exact, t, top);
    if SomeBelow(t, top) {
      var m := GreatestBelow(t, top);
      GreatestIs(t, top);
      if m == top - 1 {
        GoodBelowTop(exact, t, top);
        if SomeBelow(t, top - 1) {
          GreatestIs(t, top - 1);
          TwoValues(t, top);
        } else {
          OneValueBelow(t, top, m);
        }
      } else if 0 <= m {
        GoodFarDown(exact, t, top, m);
        FarDownIsSimple(t, top, m);
      }
    }
  }

  lemma OneValueBelow(t: Timer, top: int, m: int)
    requires Triangular(t, top) && 0 < top && OnTheWay(t, top) && m == top - 1
    requires Greatest(t, top, m) && !SomeBelow(t, top - 1)
    ensures Simple(t, top) <==> NoHits(t, 0, top - 1)
  {
    hide Hit;
  }

  lemma FarDownIsSimple(t: Timer, top: int, m: int)
    requires Triangular(t, top) && 0 < top && OnTheWay(t, top) && m < top - 1
    requires Greatest(t, top, m)
    ensures Simple(t, top) <==> NoHits(t, m + 1, top) && NoHits(t, 0, m)
  {
    hide Hit;
    if On(t, 1) { HasHits(t, t.ch[1].value); }
    if On(t, 2) { HasHits(t, t.ch[2].value); }
  }

  lemma TwoValues(t: Timer, top: int)
    requires Triangular(t, top) && 0 < top && OnTheWay(t, top)
    requires Greatest(t, top, top - 1) && SomeBelow(t, top - 1)
    ensures Simple(t, top) <==>
      var r := if Has(t, 3, top) || Has(t, 4, top) then top - 2 else GreatestBelow(t, top - 1);
      Hit(t, r) && NoHits(t, 0, r) && NoHits(t, r + 1, top - 1)
  {
    hide Hit;
    GreatestIs(t, top - 1);
    HasHits(t, GreatestBelow(t, top - 1));
  }

  /** For ever, with all values on the triangle, from the bottom or on the way up: nothing is missed,
      and the timer does what a polling one does, if and only if the channels are simple. */
  lemma UpDownSimple(t: Timer, top: int)
    requires Fresh(t, top) && OnTheWay(t, top) && !t.down
    ensures NeverMisses(t) <==> Simple(t, top)
    ensures Agrees(t) <==> Simple(t, top)
  {
    hide Predict, NeverMisses, Agrees, Serves, Follows, Simple;
    UpDownNeverMissesIff(t, top);
    UpDownPollingIff(t, top);
    GoodIsSimple(false, t, top);
    GoodIsSimple(true, t, top);
  }

  /** Channel 3 measures upwards while the count goes down: with the top at 10, the values 9 and 3 on
      channels 1 and 2, and channel 3 on the top, the timer runs at 9 and 8 and misses 3. */
  lemma UpwardMeasureMisleads(t: Timer)
    requires Fresh(t, 10) && !t.down
    requires Has(t, 1, 9) && Has(t, 2, 3) && Has(t, 3, 10) && !On(t, 4)
    ensures RunsBelow(At(t, 10), 10) == [9, 8] && !NeverMisses(t) && !Agrees(t)
  {
    hide NeverMisses, Agrees, RunsBelow, Hit;
    UpDownSimple(t, 10);
    var u, v, w := At(t, 10), At(t, 9), At(t, 8);
    NextRunIs(t, 10, 10);
    NextRunIs(t, 10, 9);
    NextRunIs(t, 10, 8);
    NextFromTop(t, 10, 9);
    NextFromBelow(t, 10, 8);
  }
}
