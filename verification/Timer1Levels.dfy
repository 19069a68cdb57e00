/** The output pins of timer 1 in free-running and up/down mode: the pin of every channel in compare
    mode after any number of ticks, and the waveforms that follow. */
module Timer1Levels {
  import opened Timer1Model
  import opened Timer1Prediction
  import opened Timer1FreeRunning
  import opened Timer1Waveforms
  import opened Timer1Misses
  import opened Timer1UpDown
  import opened Timer1UpDownPolling
  import opened Timer1Pins
  import opened Quotients

  /** Free-running or up/down, without pin edges. */
  predicate Calm(t: Timer) {
    QuietTimer(t) && !t.pinEvent && (t.mode == FreeRunning || OnTriangle(t, t.ch[0].value))
  }

  // ----- one run -----

  /** The part of the triangle from the value on the way up to the value on the way down. */
  predicate InWindow(x: int, top: int, value: int) { value <= x < 2 * top - value }

  /** The counts that matter to an output mode. */
  function Points(t: Timer, i: int): set<int>
    requires FiveChannels(t) && 0 <= i < 5
  {
    var top, value := t.ch[0].value, t.ch[i].value;
    match OutputMode(t.ch[i])
    case 0 | 1 | 2 => {top}
    case 3 | 4 => if t.mode == UpDown then {0, value, top} else {0, value}
    case 5 | 6 => if i == 0 then {} else {value, top}
    case _ => {0, value, top}
  }

  /** What the last run at one of these counts makes of the pin: in up/down mode the window decides
      modes 3 and 4; in free-running mode 0 decides against the value; in modes 5 and 6 the own value
      decides against the top. */
  predicate Level(t: Timer, i: int, pin: bool)
    requires FiveChannels(t) && 0 <= i < 5
  {
    var top, value := t.ch[0].value, t.ch[i].value;
    match OutputMode(t.ch[i])
    case 0 => true
    case 1 => false
    case 2 => !pin
    case 3 => if t.mode == UpDown then InWindow(Phase(t, top), top, value) else t.count != 0
    case 4 => if t.mode == UpDown then !InWindow(Phase(t, top), top, value) else t.count == 0
    case 5 => t.count == value
    case 6 => t.count != value
    case _ => false
  }

  lemma OneRun(t: Timer, i: int)
    requires Calm(t) && 0 <= i < 5 && Compares(t.ch[i])
    ensures (if Acts(t, i) then PinAfter(t, i) else t.ch[i].pin)
      == if t.count in Points(t, i) then Level(t, i, t.ch[i].pin) else t.ch[i].pin
  {
  }

  lemma CaptureMovesPin(t: Timer, i: int)
    requires Calm(t) && 0 <= i < 5 && Compares(t.ch[i])
    ensures CaptureCompare(t).ch[i].pin
      == if t.count in Points(t, i) then Level(t, i, t.ch[i].pin) else t.ch[i].pin
  {
    hide PinAfter, Points, Level, VisitChannels, Predict;
    var t1 := t.(log := t.log + [Ran(t.count)]);
    VisitsMovePin(t1, 5, i);
    SamePinAfter(t, t1, i);
    OneRun(t, i);
  }

  lemma LevelDepends(t: Timer, r: Timer, i: int)
    requires SameChannels(t, r) && 0 <= i < 5 && r.mode == t.mode
    ensures Points(t, i) == Points(r, i)
    ensures r.count == t.count && r.down == t.down ==> forall pin :: Level(t, i, pin) == Level(r, i, pin)
  {
  }

  // ----- one tick -----

  lemma FreePin(t: Timer, i: int)
    requires Calm(t) && t.mode == FreeRunning && 0 <= i < 5 && Compares(t.ch[i])
    ensures var r := Tick(t);
      && Calm(r) && SameChannels(t, r) && r.mode == t.mode
      && (RanAt(r.log) != RanAt(t.log) <==> t.next == 1)
      && r.ch[i].pin == if t.next == 1 && r.count in Points(r, i) then Level(r, i, t.ch[i].pin) else t.ch[i].pin
  {
    hide CaptureCompare, Predict, Wrap, RanAt, Points, Level, OnTriangle;
    var t1, r := FreeCount(t), Tick(t);
    FreeTickEffect(t);
    WrapZero(t.next);
    assert Due(t1) <==> t.next == 1;
    CaptureKeepsSettings(t1);
    CaptureMovesPin(t1, i);
    LevelDepends(t1, r, i);
  }

  lemma UpDownPin(t: Timer, i: int)
    requires Calm(t) && t.mode == UpDown && 0 <= i < 5 && Compares(t.ch[i])
    ensures var r := Tick(t);
      && Calm(r) && SameChannels(t, r) && r.mode == t.mode
      && (RanAt(r.log) != RanAt(t.log) <==> t.next == 1)
      && r.ch[i].pin == if t.next == 1 && r.count in Points(r, i) then Level(r, i, t.ch[i].pin) else t.ch[i].pin
  {
    hide CaptureCompare, Predict, Wrap, RanAt, Points, Level, OnTriangle, UpDownCount;
    var t1, r, top := UpDownCount(t), Tick(t), t.ch[0].value;
    UpDownTickWave(t, top);
    UpDownCountWave(t, top);
    UpDownCounts(t);
    CaptureKeepsSettings(t1);
    CaptureRunsOnce(t1);
    CaptureMovesPin(t1, i);
    LevelDepends(t1, r, i);
  }

  lemma UpDownCounts(t: Timer)
    requires QuietTimer(t) && !t.pinEvent
    ensures var t1 := UpDownCount(t);
      QuietTimer(t1) && RanAt(t1.log) == RanAt(t.log) && (Due(t1) <==> t.next == 1)
  {
    hide RanAt;
    RanAtAppend(t.log, Overflow);
    WrapZero(t.next);
  }

  lemma TickMovesPin(t: Timer, i: int)
    requires Calm(t) && 0 <= i < 5 && Compares(t.ch[i])
    ensures var r := Tick(t);
      && Calm(r) && SameChannels(t, r) && r.mode == t.mode
      && (RanAt(r.log) != RanAt(t.log) <==> t.next == 1)
      && r.ch[i].pin == if t.next == 1 && r.count in Points(r, i) then Level(r, i, t.ch[i].pin) else t.ch[i].pin
  {
    hide Tick, RanAt, Points, Level;
    if t.mode == FreeRunning { FreePin(t, i); } else { UpDownPin(t, i); }
  }

  // ----- any number of ticks -----

  /** Tick `n` runs `CaptureCompare` at one of these counts. */
  ghost predicate Met(t: Timer, points: set<int>, n: nat)
    requires FiveChannels(t) && n > 0
  {
    RanAtTick(t, n) && Ticks(t, n).count in points
  }

  /** How often that happens, and when it happened last; 0 if it did not. */
  ghost function Meetings(t: Timer, points: set<int>, n: nat): nat
    requires FiveChannels(t)
  {
    if n == 0 then 0 else Meetings(t, points, n - 1) + if Met(t, points, n) then 1 else 0
  }

  ghost function LastMet(t: Timer, points: set<int>, n: nat): (m: nat)
    requires FiveChannels(t)
    ensures m <= n
  {
    if n == 0 then 0 else if Met(t, points, n) then n else LastMet(t, points, n - 1)
  }

  /** The pin of a channel in compare mode, in every output mode and after every number of ticks: mode
      2 counts the runs at the top, the others look at the last run that matters to them. */
  lemma {:induction false} PinHistory(t: Timer, i: int, n: nat)
    requires Calm(t) && 0 <= i < 5 && Compares(t.ch[i])
    ensures var r, points, pin := Ticks(t, n), Points(t, i), t.ch[i].pin;
      var m := LastMet(t, points, n);
      && Calm(r) && SameChannels(t, r) && r.mode == t.mode
      && r.ch[i].pin == if m == 0 then pin
                        else if OutputMode(t.ch[i]) == 2 then pin != (Meetings(t, points, n) % 2 == 1)
                        else Level(Ticks(t, m), i, pin)
  {
    hide Tick, RanAt, Points, Level, OnTriangle, QuietTimer;
    CalmHasFive(t);
    var points, pin := Points(t, i), t.ch[i].pin;
    if n > 0 {
      PinHistory(t, i, n - 1);
      var s := Ticks(t, n - 1);
      TickMovesPin(s, i);
      LevelDepends(t, Ticks(t, n), i);
      assert OutputMode(t.ch[i]) == OutputMode(Ticks(t, n).ch[i]);
      LevelIgnoresPin(Ticks(t, n), i);
      NoMeetings(t, points, n - 1);
    } else {
      LevelDepends(t, t, i);
    }
  }

  lemma CalmHasFive(t: Timer)
    requires Calm(t)
    ensures FiveChannels(t)
  {
  }

  /** The last meeting is one, and none comes after it. */
  lemma {:induction false} LastMetIs(t: Timer, points: set<int>, n: nat)
    requires FiveChannels(t)
    ensures var m := LastMet(t, points, n);
      (m > 0 ==> Met(t, points, m)) && forall k :: m < k <= n ==> !Met(t, points, k)
  {
    hide Met;
    if n > 0 {
      LastMetIs(t, points, n - 1);
    }
  }

  lemma LevelIgnoresPin(t: Timer, i: int)
    requires FiveChannels(t) && 0 <= i < 5
    ensures OutputMode(t.ch[i]) != 2 ==> Level(t, i, true) == Level(t, i, false)
    ensures OutputMode(t.ch[i]) == 2 ==> Level(t, i, false) && !Level(t, i, true)
  {
  }

  lemma {:induction false} NoMeetings(t: Timer, points: set<int>, n: nat)
    requires FiveChannels(t)
    ensures LastMet(t, points, n) == 0 <==> Meetings(t, points, n) == 0
  {
    hide Met;
    if n > 0 {
      NoMeetings(t, points, n - 1);
    }
  }

  // ----- the wave in up/down mode -----

  /** At the bottom, counting up, with a new prediction. */
  ghost predicate AtBottom(t: Timer, top: int) { Fresh(t, top) && !t.down && t.count == 0 }

  function CountAt(x: int, top: int): int { if x <= top then x else 2 * top - x }

  /** The way down from the top. */
  function Descent(t: Timer, top: int): seq<int>
    requires FiveChannels(t) && 0 <= top < 0x8000
  {
    RunsBelow(At(t, top), top)
  }

  /** `CaptureCompare` runs at phase `x` of every period. */
  ghost predicate RunsAtPhase(t: Timer, top: int, x: int)
    requires FiveChannels(t) && 0 <= top < 0x8000
  {
    if 1 <= x <= top then Hit(t, x) else CountAt(if x == 0 then 2 * top else x, top) in Descent(t, top)
  }

  lemma FirstPeriod(t: Timer, top: int, n: nat)
    requires AtBottom(t, top) && 1 <= n <= 2 * top
    ensures RanAtTick(t, n) <==> RunsAtPhase(t, top, if n == 2 * top then 0 else n)
  {
    hide Ticks, RanAt, Predict, Hit, RunsBelow;
    if n <= top {
      UpTickRuns(t, top, n);
    } else {
      PhaseEnds(t, top);
      var s := Ticks(t, top);
      DownTickRuns(s, top, n - top);
      TicksAdd(t, top, n - top);
      TicksAdd(t, top, n - top - 1);
      SameRuns(At(t, top), s, top);
    }
  }

  lemma OnePeriodLess(n: nat, m: nat)
    requires n >= m > 0
    ensures Rem(n, m) == Rem(n - m, m)
  {
    assert n - m == m * Quo(n - m, m) + Rem(n - m, m);
    var q := Quo(n - m, m);
    assert n == m * (q + 1) + Rem(n - m, m);
    QuotientIs(n, m, q + 1, Rem(n - m, m));
  }

  lemma NextPeriod(t: Timer, top: int)
    requires AtBottom(t, top)
    ensures var s := Ticks(t, 2 * top); AtBottom(s, top) && SameChannels(t, s)
    ensures forall x :: RunsAtPhase(t, top, x) <==> RunsAtPhase(Ticks(t, 2 * top), top, x)
  {
    hide Ticks, RanAt, Predict, Hit, RunsBelow;
    FullPeriod(t, top);
    var s := Ticks(t, 2 * top);
    HitsStay(t, s);
    SameRuns(At(t, top), At(s, top), top);
  }

  /** The runs of all periods. */
  lemma {:induction false} PeriodicRuns(t: Timer, top: int, n: nat)
    requires AtBottom(t, top) && n > 0
    ensures RanAtTick(t, n) <==> RunsAtPhase(t, top, Rem(n, 2 * top))
    decreases n
  {
    hide Ticks, RanAt, Rem, RunsAtPhase, AtBottom;
    TopIsPositive(t, top);
    if n < 2 * top {
      FirstPeriod(t, top, n);
      SmallQuotient(n, 2 * top);
    } else {
      OnePeriodLess(n, 2 * top);
      if n == 2 * top {
        FirstPeriod(t, top, n);
        SmallQuotient(0, 2 * top);
      } else {
        var s := Ticks(t, 2 * top);
        NextPeriod(t, top);
        PeriodicRuns(s, top, n - 2 * top);
        TicksAdd(t, 2 * top, n - 2 * top);
        TicksAdd(t, 2 * top, n - 2 * top - 1);
      }
    }
  }

  lemma TopIsPositive(t: Timer, top: int)
    requires AtBottom(t, top)
    ensures 0 < top < 0x8000 && FiveChannels(t) && Calm(t) && t.ch[0].value == top && Phase(t, top) == 0
    ensures OnTriangle(t, top) && t.mode == UpDown && Hit(t, top)
  {
    hide Predict;
    TopIsHit(t, top);
  }

  /** One tick, in phases. */
  lemma TickInPhase(t: Timer, top: int, i: int, n: nat)
    requires AtBottom(t, top) && 0 <= i < 5 && Compares(t.ch[i]) && n > 0
    ensures 0 < top < 0x8000
    ensures var x, r, s := Rem(n, 2 * top), Ticks(t, n), Ticks(t, n - 1);
      && SameChannels(t, r) && r.mode == UpDown && r.count == CountAt(x, top) && Phase(r, top) == x
      && 0 <= x < 2 * top
      && r.ch[i].pin == if RunsAtPhase(t, top, x) && CountAt(x, top) in Points(t, i)
                        then Level(r, i, s.ch[i].pin) else s.ch[i].pin
  {
    hide Ticks, RanAt, Rem, Quo, AtBottom, RunsAtPhase, Points, Level, Overflows, Calm;
    TopIsPositive(t, top);
    PeriodicRuns(t, top, n);
    var s := Ticks(t, n - 1);
    PinHistory(t, i, n - 1);
    TickMovesPin(s, i);
    LastTick(t, n);
    UpDownWave(t, top, n);
    NextQuotient(n, 2 * top);
    LevelDepends(t, Ticks(t, n), i);
  }

  lemma LastTick(t: Timer, n: nat)
    requires FiveChannels(t) && n > 0
    ensures Ticks(t, n) == Tick(Ticks(t, n - 1))
  {
  }

  /** The wave of modes 3 and 4: high, or low, in the window, if the way down runs at the value; if it
      runs at 0 instead, up to the end of the period; and if at neither, for ever. */
  predicate Wave(t: Timer, top: int, value: int, x: int)
    requires FiveChannels(t) && 0 <= top < 0x8000
  {
    if value in Descent(t, top) then InWindow(x, top, value)
    else if 0 in Descent(t, top) then value <= x
    else true
  }

  lemma {:induction false} PwmWave(t: Timer, top: int, i: int, n: nat)
    requires AtBottom(t, top) && 0 <= i < 5 && Compares(t.ch[i]) && OutputMode(t.ch[i]) in {3, 4}
    requires 0 < t.ch[i].value < top && n >= t.ch[i].value
    ensures 0 < top < 0x8000
    ensures Ticks(t, n).ch[i].pin == (Wave(t, top, t.ch[i].value, Rem(n, 2 * top)) == (OutputMode(t.ch[i]) == 3))
  {
    hide Ticks, Rem, AtBottom, Descent, Hit;
    TopIsPositive(t, top);
    TickInPhase(t, top, i, n);
    var value, x := t.ch[i].value, Rem(n, 2 * top);
    assert Hit(t, value) by { OwnHit(t, i); }
    if n == value {
      SmallQuotient(n, 2 * top);
    } else {
      PwmWave(t, top, i, n - 1);
      NextQuotient(n - 1, 2 * top);
    }
  }

  lemma OwnHit(t: Timer, i: int)
    requires FiveChannels(t) && 0 <= i < 5 && Compares(t.ch[i])
    ensures Hit(t, t.ch[i].value)
  {
  }

  /** The wave of modes 5 and 6 of a channel other than 0: set at the own value, cleared at the top, or
      the other way round; set again on the way down exactly if it runs at the value. */
  lemma {:induction false} SetClearWave(t: Timer, top: int, i: int, n: nat)
    requires AtBottom(t, top) && 0 < i < 5 && Compares(t.ch[i]) && OutputMode(t.ch[i]) in {5, 6}
    requires 0 < t.ch[i].value < top && n >= t.ch[i].value
    ensures 0 < top < 0x8000
    ensures var x, value := Rem(n, 2 * top), t.ch[i].value;
      var on := if value in Descent(t, top) then !(top <= x < 2 * top - value) else value <= x < top;
      Ticks(t, n).ch[i].pin == (on == (OutputMode(t.ch[i]) == 5))
  {
    hide Ticks, Rem, AtBottom, Descent, Hit;
    TopIsPositive(t, top);
    TickInPhase(t, top, i, n);
    var value, x := t.ch[i].value, Rem(n, 2 * top);
    assert Hit(t, value) by { OwnHit(t, i); }
    if n == value {
      SmallQuotient(n, 2 * top);
    } else {
      SetClearWave(t, top, i, n - 1);
      NextQuotient(n - 1, 2 * top);
    }
  }

  /** Modes 0 to 2 follow the visits of the top, one a period. */
  lemma {:induction false} TopWave(t: Timer, top: int, i: int, n: nat)
    requires AtBottom(t, top) && 0 <= i < 5 && Compares(t.ch[i]) && OutputMode(t.ch[i]) in {0, 1, 2}
    ensures 0 < top < 0x8000
    ensures Ticks(t, n).ch[i].pin == PinOver(OutputMode(t.ch[i]), i, t.ch[i].pin, Quo(n + top, 2 * top), 0)
  {
    hide Ticks, Rem, Quo, AtBottom, Descent, Hit;
    TopIsPositive(t, top);
    if n == 0 {
      SmallQuotient(top, 2 * top);
      NoTicksLeft(t);
    } else {
      TopWave(t, top, i, n - 1);
      TickInPhase(t, top, i, n);
      NextQuotient(n - 1, 2 * top);
      NextQuotient(n - 1 + top, 2 * top);
      HalfPeriod(n - 1, top);
      var mode, pin, tops := OutputMode(t.ch[i]), t.ch[i].pin, Quo(n - 1 + top, 2 * top);
      OneMoreTop(mode, pin, tops);
    }
  }

  lemma OneMoreTop(mode: int, pin: bool, tops: nat)
    requires mode in {0, 1, 2}
    ensures PinOver(mode, 0, pin, tops + 1, 0) ==
      match mode
      case 0 => true
      case 1 => false
      case _ => !PinOver(mode, 0, pin, tops, 0)
  {
  }

  lemma HalfPeriod(n: nat, top: nat)
    requires top > 0
    ensures Rem(n + top, 2 * top) == if Rem(n, 2 * top) < top then Rem(n, 2 * top) + top else Rem(n, 2 * top) - top
  {
    var m, q, r := 2 * top, Quo(n, 2 * top), Rem(n, 2 * top);
    assert n == m * q + r;
    if r < top {
      QuotientIs(n + top, m, q, r + top);
    } else {
      assert n + top == m * (q + 1) + (r - top);
      QuotientIs(n + top, m, q + 1, r - top);
    }
  }

  // ----- the wave in free-running mode -----

  lemma {:induction false} FreeCounts(t: Timer, n: nat)
    requires OnTime(t)
    ensures OnTime(Ticks(t, n)) && SameChannels(t, Ticks(t, n)) && Ticks(t, n).count == Wrap(t.count + n)
  {
    hide Tick, OnTime, Wrap;
    if n == 0 {
      WrapNothing(t.count);
    } else {
      FreeCounts(t, n - 1);
      TickOnTime(Ticks(t, n - 1));
      WrapAgain(t.count + (n - 1), 1);
    }
  }

  /** Ticks since the count was last at `a`. */
  function Since(c: Short, a: Short): nat { Unsigned(c - a) }

  lemma SinceStep(count: Short, a: Short, n: nat)
    requires n > 0
    ensures var c := Wrap(count + n);
      && (Since(c, a) == 0 <==> c == a)
      && (c != a ==> Since(c, a) == Since(Wrap(count + (n - 1)), a) + 1 && n != To(count, a))
      && (c == a ==> n >= To(count, a))
  {
    hide Wrap, To, Since, Unsigned;
    Turns(count, a, n);
    WrapAgain(count + (n - 1), 1);
    OneMore(Wrap(count + (n - 1)), a);
  }

  lemma OneMore(c: Short, a: Short)
    ensures Since(Wrap(c + 1), a) == 0 <==> Wrap(c + 1) == a
    ensures Wrap(c + 1) != a ==> Since(Wrap(c + 1), a) == Since(c, a) + 1
  {
    assert Wrap(c + 1) == if c == 0x7FFF then -0x8000 else c + 1;
    assert Unsigned(c - a) == if c >= a then c - a else c - a + 0x1_0000;
    hide Wrap;
  }

  /** Of two compare values, the one met last is the one passed last; where both are one value, that. */
  lemma {:induction false} NearestIsLast(t: Timer, a: Short, b: Short, n: nat)
    requires OnTime(t) && Hit(t, a) && Hit(t, b) && n >= To(t.count, a) && n >= To(t.count, b)
    ensures var m, c := LastMet(t, {a, b}, n), Wrap(t.count + n);
      m > 0 && (Ticks(t, m).count == a <==> Since(c, a) <= Since(c, b))
  {
    hide Ticks, RanAt, OnTime, Hit, Wrap, To, Since;
    FreeCounts(t, n);
    ToIsPositive(t.count, a);
    SinceStep(t.count, a, n);
    SinceStep(t.count, b, n);
    OnTimeNeverMisses(t);
    if Ticks(t, n).count != a && Ticks(t, n).count != b {
      NearestIsLast(t, a, b, n - 1);
    } else {
      assert Met(t, {a, b}, n);
    }
  }

  lemma ToIsPositive(count: Short, a: Short)
    ensures To(count, a) > 0
  {
  }

  lemma OnTimeIsCalm(t: Timer)
    requires OnTime(t)
    ensures Calm(t) && t.mode == FreeRunning
  {
  }

  /** Modes 5 and 6 of a channel other than 0, with channel 0 in compare mode too: whichever of the own
      value and the top was passed last decides, and the own value if they are equal. */
  lemma FreeSetClear(t: Timer, i: int, n: nat)
    requires OnTime(t) && 0 < i < 5 && Compares(t.ch[i]) && Compares(t.ch[0]) && OutputMode(t.ch[i]) in {5, 6}
    requires n >= To(t.count, t.ch[i].value) && n >= To(t.count, t.ch[0].value)
    ensures var c := Wrap(t.count + n);
      Ticks(t, n).ch[i].pin
      == ((Since(c, t.ch[i].value) <= Since(c, t.ch[0].value)) == (OutputMode(t.ch[i]) == 5))
  {
    hide Ticks, RanAt, OnTime, Hit, Wrap, To, Since, LastMet;
    OnTimeIsCalm(t);
    OwnHit(t, i);
    OwnHit(t, 0);
    PinHistory(t, i, n);
    NearestIsLast(t, t.ch[i].value, t.ch[0].value, n);
    var m := LastMet(t, Points(t, i), n);
    FreeCounts(t, m);
  }

  /** Modes 3 and 4, with some channel in compare mode at 0: high, or low, from the own value to 0. */
  lemma FreePwm(t: Timer, i: int, n: nat)
    requires OnTime(t) && 0 <= i < 5 && Compares(t.ch[i]) && Hit(t, 0) && OutputMode(t.ch[i]) in {3, 4}
    requires n >= To(t.count, t.ch[i].value) && n >= To(t.count, 0)
    ensures var c := Wrap(t.count + n);
      Ticks(t, n).ch[i].pin == ((Since(c, t.ch[i].value) < Since(c, 0)) == (OutputMode(t.ch[i]) == 3))
  {
    hide Ticks, RanAt, OnTime, Hit, Wrap, To, Since, LastMet;
    OnTimeIsCalm(t);
    OwnHit(t, i);
    PinHistory(t, i, n);
    assert {0, t.ch[i].value} == Points(t, i);
    NearestIsLast(t, 0, t.ch[i].value, n);
    var m := LastMet(t, Points(t, i), n);
    FreeCounts(t, m);
  }

  /** Modes 0 to 2, with channel 0 in compare mode: by the visits of the top. */
  lemma {:induction false} FreeTops(t: Timer, i: int, n: nat)
    requires OnTime(t) && 0 <= i < 5 && Compares(t.ch[i]) && Compares(t.ch[0]) && OutputMode(t.ch[i]) in {0, 1, 2}
    ensures Ticks(t, n).ch[i].pin
      == PinOver(OutputMode(t.ch[i]), i, t.ch[i].pin, Reached(t.count, t.ch[0].value, n), 0)
  {
    hide Ticks, RanAt, OnTime, Hit, Wrap;
    OnTimeIsCalm(t);
    if n == 0 {
      NoTicksLeft(t);
    } else {
      FreeTops(t, i, n - 1);
      FreeCounts(t, n - 1);
      FreeCounts(t, n);
      LastTick(t, n);
      var s := Ticks(t, n - 1);
      OnTimeIsCalm(s);
      TickMovesPin(s, i);
      OnTimeNeverMisses(t);
      OwnHit(t, 0);
      OneMoreTop(OutputMode(t.ch[i]), t.ch[i].pin, Reached(t.count, t.ch[0].value, n - 1));
    }
  }
}
