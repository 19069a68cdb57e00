/** Prediction against polling: when does the countdown of timer 1 run `CaptureCompare` at the
    ticks at which a timer that looked at every channel on every tick would run it? */
module Timer1Prediction {
  import opened Timer1Model

  // ----- what capture/compare leaves alone -----

  /** Same count, mode, direction, and same compare settings of every channel. */
  ghost predicate SameSettings(t: Timer, r: Timer) {
    && FiveChannels(t) && FiveChannels(r)
    && r.mode == t.mode && r.count == t.count && r.down == t.down && r.pinEvent == t.pinEvent
    && forall i :: 0 <= i < 5 ==> r.ch[i].value == t.ch[i].value && r.ch[i].ctl == t.ch[i].ctl
  }

  lemma {:induction false} VisitKeepsSettings(t: Timer, n: nat)
    requires QuietTimer(t) && n <= 5
    ensures SameSettings(t, VisitChannels(t, n)) && VisitChannels(t, n).next == t.next
    ensures QuietTimer(VisitChannels(t, n))
  {
    hide PinAfter;
    if n > 0 {
      VisitKeepsSettings(t, n - 1);
    }
  }

  lemma {:induction false} PredictDependsOnSettings(t: Timer, r: Timer, n: nat)
    requires SameSettings(t, r) && n <= 5
    ensures Predict(t, n) == Predict(r, n)
  {
    if n > 0 {
      PredictDependsOnSettings(t, r, n - 1);
    }
  }

  /** Without pin edges, capture/compare moves pins and reports, and makes a new prediction. */
  lemma CaptureKeepsSettings(t: Timer)
    requires QuietTimer(t)
    ensures SameSettings(t, CaptureCompare(t)) && CaptureCompare(t).next == Predict(t, 5)
    ensures QuietTimer(CaptureCompare(t))
  {
    var t1 := t.(log := t.log + [Ran(t.count)]);
    VisitKeepsSettings(t1, 5);
    PredictDependsOnSettings(t, VisitChannels(t1, 5), 5);
  }

  // ----- modulo mode -----

  /** Some channel in compare mode has this compare value. */
  ghost predicate Hit(t: Timer, c: int)
    requires FiveChannels(t)
  {
    exists i :: 0 <= i < 5 && Compares(t.ch[i]) && t.ch[i].value == c
  }

  /** Channel 0 is in compare mode and its value is a usable top. */
  predicate ModuloReady(t: Timer) {
    && QuietTimer(t) && t.mode == Modulo && !t.pinEvent
    && Compares(t.ch[0]) && 0 < t.ch[0].value && 0 <= t.count <= t.ch[0].value
  }

  /** `d` is the distance to the nearest compare value above the count. */
  ghost predicate IsNearest(t: Timer, d: int)
    requires FiveChannels(t)
  {
    && d > 0 && Hit(t, t.count + d)
    && forall c :: t.count < c < t.count + d ==> !Hit(t, c)
  }

  /** The prediction is right, except at the top, where the next tick makes a new one. */
  ghost predicate Exact(t: Timer) {
    ModuloReady(t) && (t.count < t.ch[0].value ==> IsNearest(t, t.next))
  }

  /** Counting up, below the value of channel 0, which is in compare mode. */
  predicate Rising(t: Timer) {
    && FiveChannels(t) && !(t.mode == UpDown && t.down)
    && Compares(t.ch[0]) && 0 <= t.count < t.ch[0].value
  }

  /** Below the top, the prediction finds the nearest value: channel 0 comes first and is ahead, so
      no negative distance is ever taken. */
  lemma PredictsNearest(t: Timer)
    requires Rising(t)
    ensures IsNearest(t, Predict(t, 5))
  {
    NearestOfPrefix(t, 5);
    var d := Predict(t, 5);
    forall c | t.count < c < t.count + d
      ensures !Hit(t, c)
    {
    }
  }

  lemma {:induction false} NearestOfPrefix(t: Timer, n: nat)
    requires Rising(t) && 1 <= n <= 5
    ensures var d := Predict(t, n);
      && 0 < d <= t.ch[0].value - t.count
      && (exists i :: 0 <= i < n && Compares(t.ch[i]) && t.ch[i].value == t.count + d)
      && (forall i :: 0 <= i < n && Compares(t.ch[i]) && t.ch[i].value > t.count ==>
            d <= t.ch[i].value - t.count)
  {
    if n == 1 {
      assert Predict(t, 0) == -1;
    } else {
      NearestOfPrefix(t, n - 1);
    }
  }

  /** A tick of a timer that polls: `CaptureCompare` runs when the new count is the value of some
      channel in compare mode. */
  ghost function PolledTick(t: Timer): (r: Timer)
    requires FiveChannels(t)
    ensures FiveChannels(r) && r.mode == t.mode
  {
    match t.mode
    case Stopped => t
    case FreeRunning => var t1 := FreeCount(t); Finish(t1, Polled(t1))
    case Modulo => var t1 := ModuloCount(t); Finish(t1, Polled(t1))
    case UpDown =>
      var t1 := UpDownCount(t);
      var t2 := if Polled(t1) then CaptureCompare(t1) else t1;
      (if t1.down != t.down then Repredicted(t2) else t2).(pinEvent := false)
  }

  ghost predicate Polled(t: Timer)
    requires FiveChannels(t)
  {
    Hit(t, t.count) || t.pinEvent
  }

  ghost function PolledTicks(t: Timer, n: nat): (r: Timer)
    requires FiveChannels(t)
    ensures FiveChannels(r)
  {
    if n == 0 then t else PolledTick(PolledTicks(t, n - 1))
  }

  /** Prediction is as good as polling, for ever. */
  ghost predicate Agrees(t: Timer)
    requires FiveChannels(t)
  {
    forall n: nat :: Ticks(t, n) == PolledTicks(t, n)
  }

  lemma HitsStay(t: Timer, r: Timer)
    requires FiveChannels(t) && FiveChannels(r)
    requires forall i :: 0 <= i < 5 ==> r.ch[i].value == t.ch[i].value && r.ch[i].ctl == t.ch[i].ctl
    ensures forall c :: Hit(t, c) <==> Hit(r, c)
  {
    forall c | Hit(t, c)
      ensures Hit(r, c)
    {
      var i :| 0 <= i < 5 && Compares(t.ch[i]) && t.ch[i].value == c;
      assert Compares(r.ch[i]);
    }
    forall c | Hit(r, c)
      ensures Hit(t, c)
    {
      var i :| 0 <= i < 5 && Compares(r.ch[i]) && r.ch[i].value == c;
      assert Compares(t.ch[i]);
    }
  }

  /** At the top the count goes to 0, and the new prediction is ahead of it. */
  lemma TopIsExact(t: Timer)
    requires ModuloReady(t) && t.count == t.ch[0].value
    ensures var t1 := ModuloCount(t); t1.ch == t.ch && t1.count == 0 && !Due(t1) && Exact(t1)
  {
    hide Predict;
    var t1 := ModuloCount(t);
    var t0 := Overflowed(t.(next := Wrap(t.next - 1), count := 0));
    assert t1 == t0.(next := Predict(t0, 5));
    PredictDependsOnSettings(t0, t1, 5);
    PredictsNearest(t1);
  }

  /** Below the top the count and the prediction move by one. */
  lemma StepIsExact(t: Timer)
    requires Exact(t) && t.count < t.ch[0].value
    ensures var t1 := ModuloCount(t);
      && ModuloReady(t1) && t1.ch == t.ch && t1.count == t.count + 1
      && (Due(t1) <==> Hit(t, t1.count)) && (!Due(t1) ==> Exact(t1))
  {
    hide Predict, Hit;
    assert Hit(t, t.ch[0].value) by { TopHits(t); }
    var t1 := ModuloCount(t);
    assert t1 == t.(next := Wrap(t.next - 1), count := Wrap(t.count + 1));
    HitsStay(t, t1);
    assert 1 <= t.next <= t.ch[0].value - t.count;
  }

  lemma TopHits(t: Timer)
    requires ModuloReady(t)
    ensures Hit(t, t.ch[0].value)
  {
  }

  /** One tick runs `CaptureCompare` exactly if the new count is a compare value other than 0. */
  lemma TickIsExact(t: Timer)
    requires Exact(t)
    ensures Exact(ModuloTick(t))
    ensures var t1 := ModuloCount(t); Due(t1) <==> t1.count != 0 && Hit(t1, t1.count)
    ensures ModuloTick(t).count == if t.count == t.ch[0].value then 0 else t.count + 1
    ensures forall c :: Hit(ModuloTick(t), c) <==> Hit(t, c)
    ensures ModuloTick(t).ch[0].value == t.ch[0].value
  {
    hide Predict, ModuloCount;
    var t1 := ModuloCount(t);
    if t.count == t.ch[0].value {
      TopIsExact(t);
    } else {
      StepIsExact(t);
    }
    HitsStay(t, t1);
    CaptureKeepsSettings(t1);
    var r := ModuloTick(t);
    HitsStay(t1, r);
    if Due(t1) && t1.count < t1.ch[0].value {
      PredictsNearest(t1);
      assert IsNearest(r, r.next);
    }
  }

  lemma {:induction false} TicksAreExact(t: Timer, n: nat)
    requires Exact(t)
    ensures Exact(Ticks(t, n)) && forall c :: Hit(Ticks(t, n), c) <==> Hit(t, c)
  {
    hide Hit, Exact, ModuloTick;
    ExactIsReady(t);
    if n > 0 {
      TicksAreExact(t, n - 1);
      TickIsExact(Ticks(t, n - 1));
      assert ModuloReady(Ticks(t, n - 1)) by { ExactIsReady(Ticks(t, n - 1)); }
    }
  }

  lemma ExactIsReady(t: Timer)
    requires Exact(t)
    ensures ModuloReady(t)
  {
  }

  /** After any number of ticks, the timer is in the state of the polling one: same count, same
      pins, same flags, same events at the same ticks. */
  lemma {:induction false} PredictionIsPolling(t: Timer, n: nat)
    requires Exact(t) && !Hit(t, 0)
    ensures Ticks(t, n) == PolledTicks(t, n)
  {
    hide Hit, Exact, Predict, ModuloTick, PolledTick;
    ExactIsReady(t);
    if n > 0 {
      PredictionIsPolling(t, n - 1);
      var s := Ticks(t, n - 1);
      TicksAreExact(t, n - 1);
      TickIsExact(s);
      ExactIsReady(s);
      AgreesUnlessZero(s);
    }
  }

  /** A tick and a polled tick agree unless they reach 0 and a channel has the value 0. */
  lemma AgreesUnlessZero(t: Timer)
    requires Exact(t)
    ensures ModuloTick(t).count != 0 || !Hit(t, 0) ==> ModuloTick(t) == PolledTick(t)
    ensures ModuloTick(t).count == 0 && Hit(t, 0) ==>
      |ModuloTick(t).log| < |PolledTick(t).log|
  {
    hide PolledTick, ModuloCount;
    ModuloPolls(t);
    TickIsExact(t);
    var t1 := ModuloCount(t);
    if t.count == t.ch[0].value { TopIsExact(t); } else { StepIsExact(t); }
    CaptureKeepsSettings(t1);
    LogGrows(t1.(log := t1.log + [Ran(t1.count)]), 5);
    HitsStay(t, t1);
  }

  lemma ModuloPolls(t: Timer)
    requires FiveChannels(t) && t.mode == Modulo
    ensures var t1 := ModuloCount(t); PolledTick(t) == Finish(t1, Polled(t1))
  {
  }

  lemma {:induction false} LogGrows(t: Timer, n: nat)
    requires FiveChannels(t) && n <= 5
    ensures |t.log| <= |VisitChannels(t, n).log|
  {
    if n > 0 { LogGrows(t, n - 1); }
  }

  /** Up to the top, ticks and polled ticks agree whatever the channels hold. */
  lemma {:induction false} AgreesUpToTop(t: Timer, n: nat)
    requires Exact(t) && n <= t.ch[0].value - t.count
    ensures Ticks(t, n) == PolledTicks(t, n) && Exact(Ticks(t, n))
    ensures Ticks(t, n).count == t.count + n && Ticks(t, n).ch[0].value == t.ch[0].value
    ensures forall c :: Hit(Ticks(t, n), c) <==> Hit(t, c)
  {
    hide Hit, Predict, ModuloTick, PolledTick;
    if n > 0 {
      AgreesUpToTop(t, n - 1);
      TickIsExact(Ticks(t, n - 1));
      AgreesUnlessZero(Ticks(t, n - 1));
    }
  }

  /** The exact condition: prediction is polling, for ever, if and only if no channel in compare
      mode has the compare value 0. */
  lemma PollingIffNoZeroValue(t: Timer)
    requires Exact(t)
    ensures Agrees(t) <==> !Hit(t, 0)
  {
    hide Hit, Predict, ModuloTick, PolledTick;
    if !Hit(t, 0) {
      forall n: nat
        ensures Ticks(t, n) == PolledTicks(t, n)
      {
        PredictionIsPolling(t, n);
      }
    } else {
      var n := t.ch[0].value - t.count;
      AgreesUpToTop(t, n);
      TickIsExact(Ticks(t, n));
      AgreesUnlessZero(Ticks(t, n));
      assert Ticks(t, n + 1) != PolledTicks(t, n + 1);
    }
  }

  /** Every write to a timer register makes a new prediction, which is exact from then on. */
  lemma FreshPredictionIsExact(t: Timer)
    requires ModuloReady(t)
    ensures Exact(Repredicted(t))
  {
    hide Predict;
    if t.count < t.ch[0].value {
      PredictsNearest(t);
      PredictDependsOnSettings(t, Repredicted(t), 5);
      HitsStay(t, Repredicted(t));
    }
  }
}
