/** The registers of timer 1's channels, and what the timer reports: interrupt flags, compare events
    and overflows. */
module Timer1Reports {
  import opened Bits
  import opened Timer1Model
  import opened Timer1Waveforms
  import opened Timer1FreeRunning
  import opened Timer1Pins

  // ----- the control register -----

  datatype Edge = NoEdge | RisingEdge | FallingEdge | BothEdges

  /** A control register, written field by field; nothing looks at the last one. */
  function Control(edge: Edge, compare: bool, output: nat, interrupt: bool, radio: bool): nat {
    (match edge
     case NoEdge => 0
     case RisingEdge => 1
     case FallingEdge => 2
     case BothEdges => 3)
    + 4 * Bit(compare) + 8 * output + 64 * Bit(interrupt) + 128 * Bit(radio)
  }

  /** The timer reads back what was written; an edge is wanted if it is the selected one. */
  lemma ControlReadsBack(
    edge: Edge, compare: bool, output: nat, interrupt: bool, radio: bool, ch: Channel)
    requires output < 8 && ch.ctl == Control(edge, compare, output, interrupt, radio)
    ensures Compares(ch) == compare && OutputMode(ch) == output && Interrupts(ch) == interrupt
    ensures Wanted(ch) <==> edge == BothEdges || edge == if ch.pin then RisingEdge else FallingEdge
  {
    var high := Bit(interrupt) + 2 * Bit(radio);
    var low := ch.ctl - 8 * output - 64 * high;
    assert 0 <= low < 8;
    assert ch.ctl / 64 == high;
    assert ch.ctl / 8 == output + 8 * high;
    assert ch.ctl / 4 == 2 * (output + 8 * high) + Bit(compare);
  }

  // ----- what a run reports -----

  /** Channel `i` sees an edge that it wants. */
  predicate Catches(ch: Channel) { !Compares(ch) && ch.pin != ch.exPin && Wanted(ch) }

  /** The value of channel 0 once it has been visited: an edge on its pin makes it the count. */
  function TopThen(t: Timer): Short
    requires FiveChannels(t)
  {
    if Catches(t.ch[0]) then t.count else t.ch[0].value
  }

  /** A channel in compare mode acts at the top, at its own value and at 0. */
  predicate TurnOf(t: Timer, i: int)
    requires FiveChannels(t) && 0 <= i < 5
  {
    Compares(t.ch[i]) && t.count in {TopThen(t), t.ch[i].value, 0}
  }

  function Reported(t: Timer, n: nat): seq<Event>
    requires FiveChannels(t) && n <= 5
  {
    if n == 0 then [] else Reported(t, n - 1) + if n <= 3 && TurnOf(t, n - 1) then [Matched(n - 1)] else []
  }

  /** The channel bits that a run of `CaptureCompare` sets: those of the channels that catch an edge and
      interrupt, and of channel 0 in any case. */
  function Caught(t: Timer, n: nat): set<int>
    requires FiveChannels(t) && n <= 5
  {
    set i | 0 <= i < n && Catches(t.ch[i]) && (i == 0 || Interrupts(t.ch[i]))
  }

  /** What the visits of the first `n` channels leave of the channels and reports. */
  ghost predicate Visited(t: Timer, r: Timer, n: nat)
    requires FiveChannels(t) && n <= 5
  {
    && FiveChannels(r) && r.count == t.count && r.ovfFlag == t.ovfFlag && r.ovfMask == t.ovfMask
    && (forall i :: n <= i < 5 ==> r.ch[i] == t.ch[i])
    && (n > 0 ==> r.ch[0].value == TopThen(t))
    && r.log == t.log + Reported(t, n)
    && r.flags == t.flags + Caught(t, n)
    && r.ircon == (t.ircon || Caught(t, n) * {0, 3, 4} != {})
  }

  lemma VisitReports(t: Timer, s: Timer, i: int)
    requires FiveChannels(t) && 0 <= i < 5 && Visited(t, s, i)
    ensures Visited(t, VisitChannel(s, i), i + 1)
  {
    hide VisitChannel, Catches, Compares, Interrupts, Caught;
    var ch := t.ch[i];
    CaughtStep(t, i);
    VisitFlags(s, i);
    VisitLog(s, i);
    SharedFlags(Caught(t, i), if Catches(ch) && (i == 0 || Interrupts(ch)) then {i} else {});
    CatchersDoNotCompare(ch);
  }

  lemma CatchersDoNotCompare(ch: Channel)
    ensures Compares(ch) ==> !Catches(ch)
  {
  }

  lemma VisitLog(t: Timer, i: int)
    requires FiveChannels(t) && 0 <= i < 5
    ensures var r := VisitChannel(t, i);
      && r.count == t.count && r.ovfFlag == t.ovfFlag && r.ovfMask == t.ovfMask
      && (forall j :: 0 <= j < 5 && j != i ==> r.ch[j] == t.ch[j])
      && r.ch[i].value == (if Catches(t.ch[i]) then t.count else t.ch[i].value)
      && r.log == t.log +
           if i < 3 && Compares(t.ch[i]) && t.count in {t.ch[0].value, t.ch[i].value, 0} then [Matched(i)] else []
  {
    hide PinAfter, Compares, Wanted;
  }

  lemma VisitFlags(t: Timer, i: int)
    requires FiveChannels(t) && 0 <= i < 5
    ensures var r, one := VisitChannel(t, i), if Catches(t.ch[i]) && (i == 0 || Interrupts(t.ch[i])) then {i} else {};
      r.flags == t.flags + one && r.ircon == (t.ircon || one * {0, 3, 4} != {})
  {
    hide PinAfter, Compares, Wanted;
    assert {i} * {0, 3, 4} == if i in {0, 3, 4} then {i} else {};
  }

  lemma SharedFlags(a: set<int>, b: set<int>)
    ensures (a + b) * {0, 3, 4} != {} <==> a * {0, 3, 4} != {} || b * {0, 3, 4} != {}
  {
    assert (a + b) * {0, 3, 4} == a * {0, 3, 4} + b * {0, 3, 4};
  }

  lemma CaughtStep(t: Timer, i: int)
    requires FiveChannels(t) && 0 <= i < 5
    ensures Caught(t, i + 1)
      == Caught(t, i) + if Catches(t.ch[i]) && (i == 0 || Interrupts(t.ch[i])) then {i} else {}
  {
    hide Catches, Interrupts;
  }

  lemma {:induction false} VisitsReport(t: Timer, n: nat)
    requires FiveChannels(t) && n <= 5
    ensures Visited(t, VisitChannels(t, n), n)
  {
    hide VisitChannel;
    if n > 0 {
      VisitsReport(t, n - 1);
      VisitReports(t, VisitChannels(t, n - 1), n - 1);
    }
  }

  /** A run reports a compare event of exactly those of the first three channels whose turn it is, in
      order, and sets exactly the flags of the edges caught. */
  lemma RunReports(t: Timer)
    requires FiveChannels(t)
    ensures var r := CaptureCompare(t);
      && r.log == t.log + [Ran(t.count)] + Reported(t, 5)
      && r.flags == t.flags + Caught(t, 5)
      && r.ircon == (t.ircon || Caught(t, 5) * {0, 3, 4} != {})
      && r.ovfFlag == t.ovfFlag && r.ovfMask == t.ovfMask
  {
    hide VisitChannels, Predict, Caught, TopThen, TurnOf;
    var t1 := t.(log := t.log + [Ran(t.count)]);
    VisitsReport(t1, 5);
    ReportedIgnoresLog(t, t1, 5);
    assert Caught(t1, 5) == Caught(t, 5) by { CaughtIgnoresLog(t, t1); }
  }

  lemma CaughtIgnoresLog(t: Timer, r: Timer)
    requires FiveChannels(t) && r.ch == t.ch
    ensures Caught(t, 5) == Caught(r, 5)
  {
  }

  lemma {:induction false} ReportedIgnoresLog(t: Timer, r: Timer, n: nat)
    requires FiveChannels(t) && r.ch == t.ch && r.count == t.count && n <= 5
    ensures Reported(t, n) == Reported(r, n)
  {
    if n > 0 {
      ReportedIgnoresLog(t, r, n - 1);
    }
  }

  // ----- pin events -----

  /** The counting of a mode, before `CaptureCompare`. */
  function Count(t: Timer): (r: Timer)
    requires FiveChannels(t) && t.mode != Stopped
    ensures FiveChannels(r)
  {
    match t.mode
    case FreeRunning => FreeCount(t)
    case Modulo => ModuloCount(t)
    case UpDown => UpDownCount(t)
  }

  lemma CountKeeps(t: Timer)
    requires FiveChannels(t) && t.mode != Stopped
    ensures Count(t).ch == t.ch && Count(t).pinEvent == t.pinEvent && RanAt(Count(t).log) == RanAt(t.log)
  {
    hide RanAt, FreeCount, ModuloCount, UpDownCount;
    FreeKeeps(t);
    ModuloKeeps(t);
    UpDownKeeps(t);
  }

  lemma FreeKeeps(t: Timer)
    ensures var r := FreeCount(t); r.ch == t.ch && r.pinEvent == t.pinEvent && RanAt(r.log) == RanAt(t.log)
  {
    hide Wrap, RanAt;
    RanAtAppend(t.log, Overflow);
  }

  lemma ModuloKeeps(t: Timer)
    requires FiveChannels(t)
    ensures var r := ModuloCount(t); r.ch == t.ch && r.pinEvent == t.pinEvent && RanAt(r.log) == RanAt(t.log)
  {
    hide RanAt, ModuloCount;
    RanAtAppend(t.log, Overflow);
    ModuloLogs(t);
  }

  lemma ModuloLogs(t: Timer)
    requires FiveChannels(t)
    ensures var r := ModuloCount(t);
      r.ch == t.ch && r.pinEvent == t.pinEvent && (r.log == t.log || r.log == t.log + [Overflow])
  {
    hide Wrap, Repredicted, Overflowed;
    var t1 := t.(next := Wrap(t.next - 1));
    OverflowLogs(t1.(count := 0));
    OverflowLogs(t1.(count := Wrap(t.count + 1)));
    PredictionKeeps(Overflowed(t1.(count := 0)));
    PredictionKeeps(Overflowed(t1.(count := Wrap(t.count + 1))));
  }

  lemma OverflowLogs(t: Timer)
    ensures var r := Overflowed(t); r.ch == t.ch && r.pinEvent == t.pinEvent && r.log == t.log + [Overflow]
  {
  }

  lemma PredictionKeeps(t: Timer)
    requires FiveChannels(t)
    ensures Repredicted(t) == t.(next := Repredicted(t).next)
  {
    hide Predict;
  }

  lemma UpDownKeeps(t: Timer)
    requires FiveChannels(t)
    ensures var r := UpDownCount(t); r.ch == t.ch && r.pinEvent == t.pinEvent && RanAt(r.log) == RanAt(t.log)
  {
    hide RanAt, UpDownCount;
    RanAtAppend(t.log, Overflow);
    UpDownLogs(t);
  }

  lemma UpDownLogs(t: Timer)
    requires FiveChannels(t)
    ensures var r := UpDownCount(t); r.log == t.log || r.log == t.log + [Overflow]
  {
    hide Wrap, Overflowed;
    var t1 := t.(next := Wrap(t.next - 1));
    OverflowLogs(t1.(count := Wrap(t.count + 1)));
    OverflowLogs(t1.(count := Wrap(t.count - 1)));
  }

  /** In every mode the tick after a change of a pin runs `CaptureCompare` at the new count, whatever the
      prediction says: every channel in capture mode has then seen its pin and holds that count if the
      edge is one it wants.  The event is used up. */
  lemma PinEventIsServed(t: Timer, i: int)
    requires FiveChannels(t) && t.mode != Stopped && t.pinEvent && 0 <= i < 5 && !Compares(t.ch[i])
    ensures var r, ch := Tick(t), t.ch[i];
      && !r.pinEvent && r.count == Count(t).count && RanAt(r.log) == RanAt(t.log) + [r.count]
      && r.ch[i] == ch.(exPin := ch.pin, value := if Catches(ch) then r.count else ch.value)
  {
    hide FreeCount, ModuloCount, UpDownCount, CaptureCompare, Predict, RanAt, Wanted;
    var t1 := Count(t);
    CountKeeps(t);
    EdgesAreCaptured(t1, i);
    CaptureRunsOnce(t1);
    RunKeepsCount(t1);
  }

  lemma RunKeepsCount(t: Timer)
    requires FiveChannels(t)
    ensures CaptureCompare(t).count == t.count
  {
    hide VisitChannels, Predict;
    VisitsReport(t.(log := t.log + [Ran(t.count)]), 5);
  }

  /** A tick without an event and with ticks left to the prediction runs nothing. */
  lemma NoEventNoRun(t: Timer)
    requires FiveChannels(t) && t.mode != Stopped && !t.pinEvent && Count(t).next != 0
    ensures RanAt(Tick(t).log) == RanAt(t.log) && Tick(t).ch == t.ch && !Tick(t).pinEvent
  {
    hide FreeCount, ModuloCount, UpDownCount, CaptureCompare, Predict, RanAt;
    CountKeeps(t);
  }

  // ----- overflows -----

  /** The overflow flag goes up exactly with an overflow while the overflow mask is set, and the flag of
      the interrupt controller with it. */
  ghost predicate OverflowsTold(t: Timer, r: Timer) {
    var told := t.ovfMask && Overflows(r.log) > Overflows(t.log);
    && r.ovfMask == t.ovfMask && Overflows(r.log) >= Overflows(t.log)
    && r.ovfFlag == (t.ovfFlag || told) && r.ircon == (t.ircon || told)
  }

  lemma QuietRun(t: Timer)
    requires QuietTimer(t)
    ensures var r := CaptureCompare(t);
      && QuietTimer(r) && r.ircon == t.ircon && r.ovfFlag == t.ovfFlag && r.ovfMask == t.ovfMask
      && Overflows(r.log) == Overflows(t.log)
  {
    hide CaptureCompare, Overflows;
    RunReports(t);
    assert Caught(t, 5) == {};
    CaptureKeepsCount(t);
    Timer1Prediction.CaptureKeepsSettings(t);
  }

  lemma FreeTells(t: Timer)
    requires QuietTimer(t)
    ensures QuietTimer(FreeCount(t)) && OverflowsTold(t, FreeCount(t))
  {
    hide Overflows, Wrap;
    OverflowsAppend(t.log, Overflow);
  }

  lemma ModuloTells(t: Timer)
    requires QuietTimer(t)
    ensures QuietTimer(ModuloCount(t)) && OverflowsTold(t, ModuloCount(t))
  {
    hide Overflows, Predict, Wrap;
    OverflowsAppend(t.log, Overflow);
  }

  lemma UpDownTells(t: Timer)
    requires QuietTimer(t)
    ensures QuietTimer(UpDownCount(t)) && OverflowsTold(t, UpDownCount(t))
  {
    hide Overflows, Wrap;
    OverflowsAppend(t.log, Overflow);
  }

  lemma TickTells(t: Timer)
    requires QuietTimer(t)
    ensures QuietTimer(Tick(t)) && OverflowsTold(t, Tick(t))
  {
    hide Overflows, Predict, Wrap, CaptureCompare, FreeCount, ModuloCount, UpDownCount;
    FreeTells(t);
    ModuloTells(t);
    UpDownTells(t);
    QuietRun(FreeCount(t));
    QuietRun(ModuloCount(t));
    QuietRun(UpDownCount(t));
  }

  /** Over any number of ticks in any mode, without pin edges. */
  lemma {:induction false} OverflowInterrupts(t: Timer, n: nat)
    requires QuietTimer(t)
    ensures QuietTimer(Ticks(t, n)) && OverflowsTold(t, Ticks(t, n))
  {
    hide Tick, Overflows, Quiet;
    if n > 0 {
      OverflowInterrupts(t, n - 1);
      TickTells(Ticks(t, n - 1));
    }
  }

  /** In free-running mode the count goes on modulo 2^16, with an overflow whenever it reaches 0. */
  lemma {:induction false} FreeWave(t: Timer, n: nat)
    requires QuietTimer(t) && t.mode == FreeRunning
    ensures var r := Ticks(t, n);
      && QuietTimer(r) && r.count == Wrap(t.count + n)
      && Overflows(r.log) == Overflows(t.log) + Reached(t.count, 0, n)
  {
    hide Tick, Overflows, Quiet, Wrap;
    if n == 0 {
      WrapNothing(t.count);
    } else {
      FreeWave(t, n - 1);
      FreeTickWave(Ticks(t, n - 1));
      WrapAgain(t.count + (n - 1), 1);
    }
  }

  lemma FreeTickWave(t: Timer)
    requires QuietTimer(t) && t.mode == FreeRunning
    ensures var r := Tick(t);
      && QuietTimer(r) && r.count == Wrap(t.count + 1)
      && Overflows(r.log) == Overflows(t.log) + if r.count == 0 then 1 else 0
  {
    hide Overflows, Predict, Wrap, CaptureCompare;
    OverflowsAppend(t.log, Overflow);
    QuietRun(FreeCount(t));
    CaptureKeepsCount(FreeCount(t));
  }
}
