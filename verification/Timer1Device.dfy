/** Timer 1 as it runs: an object whose methods count, predict and compare in place
    (s51.src/CC2530timer1.cc:123-213, 293-382; s51.src/CC2530timer.cc:52-77, 338-466). */
module Timer1Device {
  import opened Timer1Model
  import opened Timer1Waveforms
  import opened Quotients

  /** Timer ticks in the clock cycles from `from` (exclusive) to `to` (inclusive): the prescaler
      lets every `prescale`-th cycle through. */
  function TimerTicksIn(from: nat, to: nat, prescale: nat): int
    requires prescale >= 1
  {
    Quo(to, prescale) - Quo(from, prescale)
  }

  class Timer1 {
    var mode: Mode
    var count: Short
    var nextCmpEvent: Short
    var upDown: bool
    var pinEvent: bool
    var tabCh: array<Channel>
    var ovfMask: bool
    var ovfFlag: bool
    var ircon: bool
    var flags: set<int>
    var log: seq<Event>
    var systemTicks: nat
    var prescale: nat

    ghost predicate Valid()
      reads this
    {
      tabCh.Length == 5 && prescale >= 1
    }

    ghost function Value(): (t: Timer)
      requires Valid()
      reads this, tabCh
      ensures FiveChannels(t)
    {
      Timer(mode, count, nextCmpEvent, upDown, pinEvent, tabCh[..], ovfMask, ovfFlag, ircon, flags,
            log)
    }

    /** The state that no tick changes. */
    twostate predicate SameClock()
      reads this
    {
      tabCh == old(tabCh) && prescale == old(prescale) && systemTicks == old(systemTicks)
    }

    method GetNextCcEvent()
      requires Valid()
      modifies `nextCmpEvent
      ensures Valid() && SameClock() && Value() == Repredicted(old(Value()))
    {
      hide Consider;
      ghost var t := Value();
      nextCmpEvent := -1;
      for i := 0 to 5
        invariant Valid() && SameClock()
        invariant nextCmpEvent == Predict(t, i) && Value() == t.(next := nextCmpEvent)
      {
        ConsiderIgnoresNext(t, nextCmpEvent, i, nextCmpEvent);
        ConsiderChannel(i);
      }
    }

    /** One turn of the loop over the channels. */
    method ConsiderChannel(i: int)
      requires Valid() && 0 <= i < 5
      modifies `nextCmpEvent
      ensures Valid() && SameClock() && Value() == old(Value()).(next := nextCmpEvent)
      ensures nextCmpEvent == Consider(old(Value()), i, old(nextCmpEvent))
    {
      hide Wrap, Compares;
      if Compares(tabCh[i]) {
        var cmpEventIn := if i < 3 && mode == UpDown && upDown then Wrap(count - tabCh[i].value)
                          else Wrap(tabCh[i].value - count);
        if (0 < cmpEventIn < nextCmpEvent) || (i < 3 && nextCmpEvent == -1 && cmpEventIn != 0) {
          nextCmpEvent := cmpEventIn;
        }
      }
    }

    /** Every channel in capture mode looks for an edge on its pin; every channel in compare mode
        whose turn it is sets its pin, and the first three report it. */
    method RunCaptureCompare()
      requires Valid()
      modifies this, tabCh
      ensures Valid() && SameClock() && Value() == CaptureCompare(old(Value()))
    {
      hide PinAfter, Predict;
      log := log + [Ran(count)];
      ghost var t := Value();
      for i := 0 to 5
        invariant Valid() && SameClock()
        invariant Value() == VisitChannels(t, i)
      {
        VisitOne(i);
      }
      GetNextCcEvent();
    }

    method VisitOne(i: int)
      requires Valid() && 0 <= i < 5
      modifies this, tabCh
      ensures Valid() && SameClock() && Value() == VisitChannel(old(Value()), i)
    {
      hide PinAfter;
      if !Compares(tabCh[i]) {
        var capt := CapturePin(i);
        if capt {
          LatchCount(i);
        }
      } else if count == tabCh[0].value || count == tabCh[i].value || count == 0 {
        var pin := ComparePin(i);
        tabCh[i] := tabCh[i].(pin := pin);
        if i < 3 {
          log := log + [Matched(i)];
        }
      }
    }

    /** `Capture`: whether channel `i` saw an edge that it wants. */
    method CapturePin(i: int) returns (capt: bool)
      requires Valid() && 0 <= i < 5
      modifies tabCh
      ensures Valid() && SameClock()
      ensures capt == old(tabCh[i].pin != tabCh[i].exPin && Wanted(tabCh[i]))
      ensures tabCh[..] == old(tabCh[..])[i := old(tabCh[i]).(exPin := old(tabCh[i].pin))]
    {
      var ch := tabCh[i];
      capt := false;
      if ch.pin != ch.exPin {
        if ch.pin {
          capt := ch.ctl % 4 == 1 || ch.ctl % 4 == 3;
        } else {
          capt := ch.ctl % 4 == 2 || ch.ctl % 4 == 3;
        }
      }
      tabCh[i] := ch.(exPin := ch.pin);
    }

    /** Both bytes of the count go into the compare registers of channel `i`. */
    method LatchCount(i: int)
      requires Valid() && 0 <= i < 5
      modifies this, tabCh
      ensures Valid() && SameClock() && Value() == Latched(old(Value()), i)
    {
      var high := Wrap(tabCh[i].value % 256 + count / 256 % 256 * 256);
      var both := Wrap(high / 256 * 256 + count % 256);
      TwoBytes(tabCh[i].value, count);
      tabCh[i] := tabCh[i].(value := both);
      if i == 0 {
        flags, ircon := flags + {0}, true;
      }
      if Interrupts(tabCh[i]) {
        flags := flags + {i};
        if i >= 3 {
          ircon := true;
        }
      }
    }

    /** `Compare`: what a compare event does to the pin of channel `i`. */
    method ComparePin(i: int) returns (pin: bool)
      requires Valid() && 0 <= i < 5
      ensures pin == PinAfter(Value(), i)
    {
      var ch := tabCh[i];
      var top := tabCh[0].value;
      pin := ch.pin;
      match ch.ctl / 8 % 8 {
        case 0 => if count == top { pin := true; }
        case 1 => if count == top { pin := false; }
        case 2 => if count == top { pin := !pin; }
        case 3 =>
          if mode == UpDown {
            if count == ch.value { pin := !upDown; }
            else if count > ch.value { pin := true; }
            else { pin := false; }
          } else {
            if count == ch.value { pin := true; }
            if count == 0 { pin := false; }
          }
        case 4 =>
          if mode == UpDown {
            if count == ch.value { pin := upDown; }
            else if count > ch.value { pin := false; }
            else { pin := true; }
          } else {
            if count == ch.value { pin := false; }
            if count == 0 { pin := true; }
          }
        case 5 =>
          if i == 0 {
          } else if mode == Modulo {
            if count == ch.value { pin := true; }
            if count == 0 { pin := false; }
          } else {
            if count == top { pin := false; }
            if count == ch.value { pin := true; }
          }
        case 6 =>
          if i == 0 {
          } else if mode == Modulo {
            if count == ch.value { pin := false; }
            if count == 0 { pin := true; }
          } else {
            if count == top { pin := true; }
            if count == ch.value { pin := false; }
          }
        case _ => pin := false;
      }
    }

    method ReportOverflow()
      requires Valid()
      modifies `ovfFlag, `ircon, `log
      ensures Valid() && SameClock() && Value() == Overflowed(old(Value()))
    {
      if ovfMask {
        ovfFlag, ircon := true, true;
      }
      log := log + [Overflow];
    }

    method FinishTick()
      requires Valid()
      modifies this, tabCh
      ensures Valid() && SameClock() && Value() == Finish(old(Value()), Due(old(Value())))
    {
      if nextCmpEvent == 0 || pinEvent {
        RunCaptureCompare();
      }
      pinEvent := false;
    }

    method DoFreeRunningMode(cycles: nat)
      requires Valid() && mode == FreeRunning
      modifies this, tabCh
      ensures Valid() && SameClock() && Value() == Ticks(old(Value()), cycles)
    {
      hide Timer1Model.Tick;
      ghost var t := Value();
      for k := 0 to cycles
        invariant Valid() && SameClock() && Value() == Ticks(t, k)
        invariant mode == FreeRunning
      {
        FreeRunningStep();
      }
    }

    method FreeRunningStep()
      requires Valid() && mode == FreeRunning
      modifies this, tabCh
      ensures Valid() && SameClock() && mode == old(mode)
      ensures Value() == Timer1Model.Tick(old(Value()))
    {
      hide CaptureCompare, Wrap;
      ghost var v := Value();
      nextCmpEvent := Wrap(nextCmpEvent - 1);
      count := Wrap(count + 1);
      if count == 0 {
        ReportOverflow();
      }
      assert Value() == FreeCount(v);
      FinishTick();
    }

    method DoModuloMode(cycles: nat)
      requires Valid() && mode == Modulo
      modifies this, tabCh
      ensures Valid() && SameClock() && Value() == Ticks(old(Value()), cycles)
    {
      hide Timer1Model.Tick;
      ghost var t := Value();
      for k := 0 to cycles
        invariant Valid() && SameClock() && Value() == Ticks(t, k)
        invariant mode == Modulo
      {
        ModuloStep();
      }
    }

    method ModuloStep()
      requires Valid() && mode == Modulo
      modifies this, tabCh
      ensures Valid() && SameClock() && mode == old(mode)
      ensures Value() == Timer1Model.Tick(old(Value()))
    {
      hide CaptureCompare, Predict, Wrap;
      ghost var v := Value();
      nextCmpEvent := Wrap(nextCmpEvent - 1);
      if count == tabCh[0].value {
        count := 0;
        ReportOverflow();
        GetNextCcEvent();
      } else {
        count := Wrap(count + 1);
        if count == 0 {
          ReportOverflow();
          GetNextCcEvent();
        }
      }
      assert Value() == ModuloCount(v);
      FinishTick();
    }

    method DoUpDownMode(cycles: nat)
      requires Valid() && mode == UpDown
      modifies this, tabCh
      ensures Valid() && SameClock() && Value() == Ticks(old(Value()), cycles)
    {
      hide Timer1Model.Tick;
      ghost var t := Value();
      for k := 0 to cycles
        invariant Valid() && SameClock() && Value() == Ticks(t, k)
        invariant mode == UpDown
      {
        UpDownStep();
      }
    }

    method UpDownStep()
      requires Valid() && mode == UpDown
      modifies this, tabCh
      ensures Valid() && SameClock() && mode == old(mode)
      ensures Value() == Timer1Model.Tick(old(Value()))
    {
      hide CaptureCompare, Predict, Wrap, UpDownCount;
      ghost var v := Value();
      UpDownKeepsChannels(v);
      var changed := CountUpDown();
      if nextCmpEvent == 0 || pinEvent {
        RunCaptureCompare();
      }
      if changed {
        GetNextCcEvent();
      }
      pinEvent := false;
    }

    method CountUpDown() returns (changed: bool)
      requires Valid() && mode == UpDown
      modifies `nextCmpEvent, `count, `upDown, `ovfFlag, `ircon, `log
      ensures Valid() && SameClock()
      ensures Value() == UpDownCount(old(Value())) && changed == (upDown != old(upDown))
    {
      hide Wrap;
      nextCmpEvent := Wrap(nextCmpEvent - 1);
      changed := false;
      if !upDown {
        count := Wrap(count + 1);
        if count == 0 {
          ReportOverflow();
        }
        if count == tabCh[0].value {
          upDown, changed := true, true;
        }
      } else {
        count := Wrap(count - 1);
        if count == 0 {
          ReportOverflow();
          upDown, changed := false, true;
        }
      }
    }

    method TimerTick(ticks: nat)
      requires Valid()
      modifies this, tabCh
      ensures Valid() && SameClock() && Value() == Ticks(old(Value()), ticks)
    {
      match mode {
        case Stopped => StoppedStays(Value(), ticks);
        case FreeRunning => DoFreeRunningMode(ticks);
        case Modulo => DoModuloMode(ticks);
        case UpDown => DoUpDownMode(ticks);
      }
    }

    /** `tick`: the prescaler in front of the timer. */
    method Tick(cycles: nat)
      requires Valid()
      modifies this, tabCh
      ensures Valid() && tabCh == old(tabCh) && prescale == old(prescale)
      ensures systemTicks == old(systemTicks) + cycles
      ensures 0 <= TimerTicksIn(old(systemTicks), systemTicks, prescale)
      ensures Value() == Ticks(old(Value()), TimerTicksIn(old(systemTicks), systemTicks, prescale))
    {
      hide Quo, Rem, Ticks;
      ghost var s := systemTicks;
      var timerTicks := 0;
      for i := 0 to cycles
        invariant Valid() && tabCh == old(tabCh) && prescale == old(prescale)
        invariant systemTicks == s + i && Value() == old(Value())
        invariant timerTicks == TimerTicksIn(s, systemTicks, prescale) >= 0
      {
        NextMultiple(systemTicks, prescale);
        systemTicks := systemTicks + 1;
        if Rem(systemTicks, prescale) == 0 {
          timerTicks := timerTicks + 1;
        }
      }
      if timerTicks != 0 {
        TimerTick(timerTicks);
      } else {
        NoTicks(Value());
      }
    }
  }

  lemma ConsiderIgnoresNext(t: Timer, next: Short, i: int, best: Short)
    requires FiveChannels(t) && 0 <= i < 5
    ensures Consider(t.(next := next), i, best) == Consider(t, i, best)
  {
  }

  lemma NextMultiple(x: nat, m: nat)
    requires m >= 1
    ensures Quo(x + 1, m) == Quo(x, m) + if Rem(x + 1, m) == 0 then 1 else 0
  {
    hide Quo, Rem;
    NextQuotient(x, m);
  }

  lemma NoTicks(t: Timer)
    requires FiveChannels(t)
    ensures Ticks(t, 0) == t
  {
  }

  lemma {:induction false} StoppedStays(t: Timer, n: nat)
    requires FiveChannels(t) && t.mode == Stopped
    ensures Ticks(t, n) == t
  {
    if n > 0 {
      StoppedStays(t, n - 1);
    }
  }

  lemma UpDownKeepsChannels(t: Timer)
    requires FiveChannels(t)
    ensures UpDownCount(t).ch == t.ch && UpDownCount(t).mode == t.mode
  {
    hide Wrap;
  }

  /** Storing a number byte by byte stores the number. */
  lemma TwoBytes(old1: Short, count: Short)
    ensures var high := Wrap(old1 % 256 + count / 256 % 256 * 256);
      Wrap(high / 256 * 256 + count % 256) == count
  {
    var q, r := count / 256, count % 256;
    var x := old1 % 256 + q % 256 * 256;
    assert -128 <= q < 128;
    assert Wrap(x) / 256 == q by {
      assert q % 256 == if q < 0 then q + 256 else q;
      assert Wrap(x) == if q < 0 then x - 0x1_0000 else x;
    }
  }

  /** Batching: a timer given `a` and then `b` clock cycles and an equal one given `a + b` end up
      equal, for every mode and every prescale value. */
  method TickBatches(x: Timer1, y: Timer1, a: nat, b: nat)
    requires x != y && x.tabCh != y.tabCh && x.Valid() && y.Valid()
    requires x.Value() == y.Value() && x.systemTicks == y.systemTicks && x.prescale == y.prescale
    modifies x, x.tabCh, y, y.tabCh
    ensures x.Valid() && y.Valid()
    ensures x.Value() == y.Value() && x.systemTicks == y.systemTicks && x.prescale == y.prescale
  {
    hide Quo, Ticks;
    ghost var t, s, p := x.Value(), x.systemTicks, x.prescale;
    x.Tick(a);
    x.Tick(b);
    y.Tick(a + b);
    TicksAdd(t, TimerTicksIn(s, s + a, p), TimerTicksIn(s + a, s + a + b, p));
  }
}
