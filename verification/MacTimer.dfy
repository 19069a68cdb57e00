/** The MAC timer of the CC2530 (s51.src/CC2530timer2.cc): a 16-bit counter with a period, and a
    three-byte overflow counter with a period of its own. */
module MacTimerModel {
  import opened Quotients

  type Byte = b: int | 0 <= b < 256
  type Word = w: int | 0 <= w < 0x1_0000
  type Short = x: int | -0x8000 <= x < 0x8000

  /** A 24-bit number in three bytes, the lowest first. */
  datatype Bytes3 = Bytes3(b0: Byte, b1: Byte, b2: Byte)

  function Value3(b: Bytes3): (v: nat)
    ensures v < 0x100_0000
  {
    b.b0 + 256 * b.b1 + 65536 * b.b2
  }

  const Zero3 := Bytes3(0, 0, 0)

  /** Bits of T2IRQF. */
  const PERIOD := 0
  const COMPARE1 := 1
  const COMPARE2 := 2
  const OVF_PERIOD := 3
  const OVF_COMPARE1 := 4
  const OVF_COMPARE2 := 5

  datatype Mac = Mac(count: Word, ovf: Bytes3,
                     per: Short, cmp1: Short, cmp2: Short,
                     ovfPer: Bytes3, ovfCmp1: Bytes3, ovfCmp2: Bytes3,
                     irqf: set<int>, irqm: Byte, ircon: bool, event: bool,
                     cspt: Word, evtcfg: Byte, event1: bool, event2: bool, overflows: nat)

  /** Set an interrupt flag.  The mask test is `(T2IRQM & bit) == 1`, which only bit 0 passes. */
  function Flag(m: Mac, bit: int): Mac {
    m.(irqf := m.irqf + {bit}, ircon := m.ircon || (bit == 0 && m.irqm % 2 == 1), event := true)
  }

  /** A byte, or a 16-bit word, counted up by one. */
  function NextByte(b: Byte): Byte { if b == 255 then 0 else b + 1 }
  function NextWord(w: Word): Word { if w == 0xFFFF then 0 else w + 1 }

  /** The three bytes counted up by one, each carrying into the next. */
  function Increment3(b: Bytes3): Bytes3 {
    var b0 := NextByte(b.b0);
    if b0 != 0 then b.(b0 := b0)
    else
      var b1 := NextByte(b.b1);
      if b1 != 0 then Bytes3(b0, b1, b.b2) else Bytes3(b0, b1, NextByte(b.b2))
  }

  /** One more overflow: the event, the countdown of CSPT, and the three-byte counter. */
  function Advance(m: Mac): Mac {
    m.(overflows := m.overflows + 1, ovf := Increment3(m.ovf),
       cspt := if m.cspt == 0xFF then m.cspt else if m.cspt == 0 then 0xFFFF else m.cspt - 1)
  }

  function CheckPeriod(m: Mac): Mac {
    if m.ovf == m.ovfPer then Flag(m.(ovf := Zero3), OVF_PERIOD) else m
  }

  function CheckCompare(m: Mac): Mac {
    var m1 := if m.ovf == m.ovfCmp1 then Flag(m, OVF_COMPARE1) else m;
    if m1.ovf == m.ovfCmp2 then Flag(m1, OVF_COMPARE2) else m1
  }

  function Overflow(m: Mac): Mac { CheckCompare(CheckPeriod(Advance(m))) }

  function CompareFlags(m: Mac): Mac {
    var m1 := if m.count == m.cmp1 then Flag(m, COMPARE1) else m;
    if m1.count == m.cmp2 then Flag(m1, COMPARE2) else m1
  }

  function PeriodReached(m: Mac): Mac {
    if m.count == m.per && m.per != 0 then Flag(Overflow(m.(count := 0)), PERIOD) else m
  }

  /** The two event outputs watch one flag each; a cycle without an event clears the flags. */
  function RaiseEvents(m: Mac): Mac {
    if m.event then m.(event1 := m.evtcfg % 8 in m.irqf, event2 := m.evtcfg / 16 % 8 in m.irqf)
    else m.(irqf := {}, event1 := false, event2 := false)
  }

  function CountCompare(m: Mac): Mac { RaiseEvents(PeriodReached(CompareFlags(m))) }

  /** One cycle of the up mode. */
  function UpTick(m: Mac): Mac {
    var m1 := m.(event := false, count := NextWord(m.count));
    CountCompare(if m1.count == 0 then Overflow(m1) else m1)
  }

  function UpTicks(m: Mac, n: nat): Mac {
    if n == 0 then m else UpTick(UpTicks(m, n - 1))
  }

  // ----- the closed form -----

  /** The periods in force: a period register that is 0 or negative never matches the count. */
  function CountPeriod(m: Mac): (p: nat)
    ensures 0 < p <= 0x1_0000
  {
    if m.per > 0 then m.per else 0x1_0000
  }

  function OverflowPeriod(m: Mac): (q: nat)
    ensures 0 < q <= 0x100_0000
  {
    if m.ovfPer == Zero3 then 0x100_0000 else Value3(m.ovfPer)
  }

  ghost predicate SameRegisters(m: Mac, r: Mac) {
    && r.per == m.per && r.cmp1 == m.cmp1 && r.cmp2 == m.cmp2 && r.irqm == m.irqm
    && r.ovfPer == m.ovfPer && r.ovfCmp1 == m.ovfCmp1 && r.ovfCmp2 == m.ovfCmp2
    && r.evtcfg == m.evtcfg
  }

  lemma IncrementIsPlusOne(b: Bytes3)
    ensures Value3(Increment3(b)) == if Value3(b) == 0xFF_FFFF then 0 else Value3(b) + 1
  {
  }

  lemma BytesAreUnique(b: Bytes3, c: Bytes3)
    requires Value3(b) == Value3(c)
    ensures b == c
  {
    var low, low' := b.b0 + 256 * b.b1, c.b0 + 256 * c.b1;
    assert 0 <= low < 65536 && 0 <= low' < 65536;
    assert b.b2 == c.b2;
    assert b.b1 == c.b1;
  }

  /** An overflow counts modulo the overflow period. */
  lemma OverflowCounts(m: Mac)
    requires Value3(m.ovf) < OverflowPeriod(m)
    ensures var r, q := Overflow(m), OverflowPeriod(m);
      && SameRegisters(m, r) && r.count == m.count && r.overflows == m.overflows + 1
      && Value3(r.ovf) == (if Value3(m.ovf) == q - 1 then 0 else Value3(m.ovf) + 1)
  {
    hide Value3, Increment3, CheckCompare;
    ValueOfZero();
    CheckCompareKeeps(CheckPeriod(Advance(m)));
    IncrementIsPlusOne(m.ovf);
    if Value3(Increment3(m.ovf)) == Value3(m.ovfPer) {
      BytesAreUnique(Increment3(m.ovf), m.ovfPer);
    }
    if Value3(m.ovfPer) == 0 {
      BytesAreUnique(m.ovfPer, Zero3);
    }
  }

  lemma ValueOfZero()
    ensures Value3(Zero3) == 0
  {
  }

  /** One cycle, in numbers: the count goes on modulo its period, and each time it starts over the
      overflow counter goes on modulo its own. */
  lemma UpTickCounts(m: Mac)
    requires m.count < CountPeriod(m) && Value3(m.ovf) < OverflowPeriod(m)
    ensures var r, p, q := UpTick(m), CountPeriod(m), OverflowPeriod(m);
      && SameRegisters(m, r)
      && r.count == (if m.count == p - 1 then 0 else m.count + 1)
      && Value3(r.ovf) == (if m.count < p - 1 then Value3(m.ovf)
                           else if Value3(m.ovf) == q - 1 then 0 else Value3(m.ovf) + 1)
      && r.overflows == m.overflows + (if m.count == p - 1 then 1 else 0)
  {
    hide Overflow, Value3, Flag, CompareFlags;
    var m1 := m.(event := false, count := NextWord(m.count));
    if m1.count == 0 {
      OverflowCounts(m1);
      CompareFlagsKeep(Overflow(m1));
    } else {
      CompareFlagsKeep(m1);
      var m2 := CompareFlags(m1).(count := 0);
      OverflowCounts(m2);
      FlagKeeps(Overflow(m2), PERIOD);
    }
  }

  lemma CheckCompareKeeps(m: Mac)
    ensures var r := CheckCompare(m);
      && SameRegisters(m, r) && r.count == m.count && r.ovf == m.ovf && r.overflows == m.overflows
      && r.ircon == m.ircon
  {
  }

  /** Setting flags does not disturb the counters. */
  lemma FlagKeeps(m: Mac, bit: int)
    ensures var r := Flag(m, bit);
      && SameRegisters(m, r) && r.count == m.count && r.ovf == m.ovf && r.overflows == m.overflows
      && r.ircon == (m.ircon || (bit == 0 && m.irqm % 2 == 1))
  {
  }

  lemma CompareFlagsKeep(m: Mac)
    ensures var r := CompareFlags(m);
      && SameRegisters(m, r) && r.count == m.count && r.ovf == m.ovf && r.overflows == m.overflows
      && r.ircon == m.ircon
  {
  }

  /** Mixed radix: after t cycles from zero the count is t mod p and the overflow counter is
      (t div p) mod q, for every setting of the registers. */
  lemma {:induction false} ClosedForm(m: Mac, t: nat)
    requires m.count == 0 && m.ovf == Zero3
    ensures var r, p, q := UpTicks(m, t), CountPeriod(m), OverflowPeriod(m);
      && SameRegisters(m, r)
      && r.count == Rem(t, p)
      && Value3(r.ovf) == Rem(Quo(t, p), q)
      && r.overflows == m.overflows + Quo(t, p)
  {
    hide UpTick, Rem, Quo, Value3;
    var p, q := CountPeriod(m), OverflowPeriod(m);
    if t == 0 {
      SmallQuotient(0, p);
      SmallQuotient(0, q);
      ValueOfZero();
    } else {
      ClosedForm(m, t - 1);
      var s := UpTicks(m, t - 1);
      NextQuotient(t - 1, p);
      NextQuotient(Quo(t - 1, p), q);
      UpTickCounts(s);
    }
  }

  /** Whatever the compare registers and masks, only a period event with bit 0 of the mask set
      requests an interrupt. */
  lemma OnlyPeriodInterrupts(m: Mac)
    requires m.count < CountPeriod(m)
    ensures UpTick(m).ircon <==>
      m.ircon || (m.irqm % 2 == 1 && m.per > 0 && m.count == CountPeriod(m) - 1)
  {
    hide Overflow, Flag, CompareFlags, Increment3;
    var m1 := m.(event := false, count := NextWord(m.count));
    OverflowIsQuiet(m1);
    CompareFlagsKeep(m1);
    CompareFlagsKeep(Overflow(m1));
    var m2 := CompareFlags(m1).(count := 0);
    OverflowIsQuiet(m2);
    FlagKeeps(Overflow(m2), PERIOD);
  }

  // ----- flags, events and CSPT -----

  /** The condition puts the flag into the set. */
  function If(condition: bool, flag: int): set<int> { if condition then {flag} else {} }

  /** What one more overflow raises, in numbers. */
  function OverflowRaises(m: Mac): set<int> {
    var o := if Value3(m.ovf) == OverflowPeriod(m) - 1 then 0 else Value3(m.ovf) + 1;
    If(Value3(m.ovf) == OverflowPeriod(m) - 1, OVF_PERIOD)
    + If(o == Value3(m.ovfCmp1), OVF_COMPARE1) + If(o == Value3(m.ovfCmp2), OVF_COMPARE2)
  }

  /** What one cycle raises: each register its own bit of T2IRQF. */
  function CycleRaises(m: Mac): set<int> {
    var c := if m.count == 0xFFFF then 0 else m.count + 1;
    If(c == m.cmp1, COMPARE1) + If(c == m.cmp2, COMPARE2) + If(m.per > 0 && c == m.per, PERIOD)
    + if m.count == CountPeriod(m) - 1 then OverflowRaises(m) else {}
  }

  /** CSPT counts down modulo 2^16, and rests at 0xFF. */
  function CsptAfter(cspt: Word): Word {
    if cspt == 0xFF then cspt else (cspt - 1) % 0x1_0000
  }

  lemma FlagRaises(m: Mac, bit: int)
    ensures var r := Flag(m, bit);
      r.irqf == m.irqf + {bit} && r.event && r == m.(irqf := r.irqf, ircon := r.ircon, event := true)
  {
  }

  /** `r` is `m` with these flags raised, and maybe an interrupt. */
  predicate RaisedTo(m: Mac, r: Mac, flags: set<int>) {
    && r.irqf == m.irqf + flags && r.event == (m.event || flags != {})
    && r == m.(irqf := r.irqf, event := r.event, ircon := r.ircon)
  }

  lemma CompareFlagsRaise(m: Mac)
    ensures RaisedTo(m, CompareFlags(m), If(m.count == m.cmp1, COMPARE1) + If(m.count == m.cmp2, COMPARE2))
  {
    hide Flag;
    FlagRaises(m, COMPARE1);
    FlagRaises(m, COMPARE2);
    FlagRaises(Flag(m, COMPARE1), COMPARE2);
  }

  lemma OverflowFlags(m: Mac)
    requires Value3(m.ovf) < OverflowPeriod(m)
    ensures var r := Overflow(m);
      && r.irqf == m.irqf + OverflowRaises(m) && r.event == (m.event || OverflowRaises(m) != {})
      && r.cspt == CsptAfter(m.cspt) && r.event1 == m.event1 && r.event2 == m.event2
  {
    hide Flag, Value3, Increment3, OverflowRaises;
    var m1 := Advance(m);
    var m2 := CheckPeriod(m1);
    OverflowCounts(m);
    CheckCompareKeeps(m2);
    SameBytes(m2.ovf, m.ovfCmp1);
    SameBytes(m2.ovf, m.ovfCmp2);
    PeriodBytes(m);
    FlagRaises(m1.(ovf := Zero3), OVF_PERIOD);
    FlagRaises(m2, OVF_COMPARE1);
    FlagRaises(m2, OVF_COMPARE2);
    FlagRaises(Flag(m2, OVF_COMPARE1), OVF_COMPARE2);
    OverflowRaisesIs(m, Value3(m2.ovf));
  }

  lemma SameBytes(b: Bytes3, c: Bytes3)
    ensures Value3(b) == Value3(c) <==> b == c
  {
    if Value3(b) == Value3(c) {
      BytesAreUnique(b, c);
    }
  }

  lemma PeriodBytes(m: Mac)
    requires Value3(m.ovf) < OverflowPeriod(m)
    ensures Increment3(m.ovf) == m.ovfPer <==> Value3(m.ovf) == OverflowPeriod(m) - 1
  {
    hide Value3, Increment3;
    ValueOfZero();
    IncrementIsPlusOne(m.ovf);
    SameBytes(Increment3(m.ovf), m.ovfPer);
    SameBytes(m.ovfPer, Zero3);
  }

  lemma OverflowRaisesIs(m: Mac, o: int)
    requires o == if Value3(m.ovf) == OverflowPeriod(m) - 1 then 0 else Value3(m.ovf) + 1
    ensures OverflowRaises(m) == If(Value3(m.ovf) == OverflowPeriod(m) - 1, OVF_PERIOD)
      + If(o == Value3(m.ovfCmp1), OVF_COMPARE1) + If(o == Value3(m.ovfCmp2), OVF_COMPARE2)
  {
  }

  /** The flags and events after a cycle: the flags of the cycle are added to those that were up; a cycle
      that raises none clears all; each event output is the flag that its field of T2EVTCFG selects,
      in a cycle that raises some flag; and CSPT counts the overflows. */
  lemma CycleFlags(m: Mac)
    requires m.count < CountPeriod(m) && Value3(m.ovf) < OverflowPeriod(m)
    ensures var r, up := UpTick(m), CycleRaises(m);
      && r.irqf == (if up == {} then {} else m.irqf + up)
      && r.event1 == (m.evtcfg % 8 in r.irqf) && r.event2 == (m.evtcfg / 16 % 8 in r.irqf)
      && r.cspt == if m.count == CountPeriod(m) - 1 then CsptAfter(m.cspt) else m.cspt
  {
    hide Overflow, Flag, CompareFlags, OverflowRaises, Value3;
    var m1 := m.(event := false, count := NextWord(m.count));
    OverflowRaisesDepends(m, m1);
    if m1.count == 0 {
      OverflowFlags(m1);
      OverflowCounts(m1);
      CompareFlagsRaise(Overflow(m1));
      CompareFlagsKeep(Overflow(m1));
    } else {
      CompareFlagsRaise(m1);
      CompareFlagsKeep(m1);
      var m2 := CompareFlags(m1).(count := 0);
      OverflowRaisesDepends(m, m2);
      OverflowFlags(m2);
      OverflowCounts(m2);
      FlagRaises(Overflow(m2), PERIOD);
    }
  }

  lemma OverflowRaisesDepends(m: Mac, r: Mac)
    requires SameRegisters(m, r) && r.ovf == m.ovf
    ensures OverflowRaises(m) == OverflowRaises(r)
  {
  }

  lemma OverflowIsQuiet(m: Mac)
    ensures Overflow(m).ircon == m.ircon && SameRegisters(m, Overflow(m)) && Overflow(m).count == m.count
  {
    hide Increment3, CheckCompare;
    CheckCompareKeeps(CheckPeriod(Advance(m)));
  }
}

/** The MAC timer as it runs. */
module MacTimerDevice {
  import opened MacTimerModel

  class MacTimer {
    var count: Word
    var ovf: Bytes3
    var per: Short
    var cmp1: Short
    var cmp2: Short
    var ovfPer: Bytes3
    var ovfCmp1: Bytes3
    var ovfCmp2: Bytes3
    var irqf: set<int>
    var irqm: Byte
    var ircon: bool
    var event: bool
    var cspt: Word
    var evtcfg: Byte
    var event1: bool
    var event2: bool
    var overflows: nat

    ghost function Value(): Mac
      reads this
    {
      Mac(count, ovf, per, cmp1, cmp2, ovfPer, ovfCmp1, ovfCmp2, irqf, irqm, ircon, event,
          cspt, evtcfg, event1, event2, overflows)
    }

    method SetFlag(bit: int)
      modifies `irqf, `ircon, `event
      ensures Value() == Flag(old(Value()), bit)
    {
      irqf := irqf + {bit};
      if bit == 0 && irqm % 2 == 1 {
        ircon := true;
      }
      event := true;
    }

    method RunAdvance()
      modifies `overflows, `cspt, `ovf
      ensures Value() == Advance(old(Value()))
    {
      overflows := overflows + 1;
      if cspt != 0xFF {
        cspt := if cspt == 0 then 0xFFFF else cspt - 1;
      }
      var b0 := NextByte(ovf.b0);
      ovf := ovf.(b0 := b0);
      if b0 == 0 {
        var b1 := NextByte(ovf.b1);
        ovf := ovf.(b1 := b1);
        if b1 == 0 {
          ovf := ovf.(b2 := NextByte(ovf.b2));
        }
      }
    }

    method RunOverflow()
      modifies `overflows, `cspt, `ovf, `irqf, `ircon, `event
      ensures Value() == Overflow(old(Value()))
    {
      hide Flag, Advance;
      RunAdvance();
      if ovf == ovfPer {
        ovf := Zero3;
        SetFlag(OVF_PERIOD);
      }
      assert Value() == CheckPeriod(Advance(old(Value())));
      if ovf == ovfCmp1 {
        SetFlag(OVF_COMPARE1);
      }
      if ovf == ovfCmp2 {
        SetFlag(OVF_COMPARE2);
      }
    }

    method RunCountCompare()
      modifies this
      ensures Value() == CountCompare(old(Value()))
    {
      hide Flag, Overflow;
      if count == cmp1 {
        SetFlag(COMPARE1);
      }
      if count == cmp2 {
        SetFlag(COMPARE2);
      }
      assert Value() == CompareFlags(old(Value()));
      if count == per && per != 0 {
        count := 0;
        RunOverflow();
        SetFlag(PERIOD);
      }
      assert Value() == PeriodReached(CompareFlags(old(Value())));
      RunEvents();
    }

    method RunEvents()
      modifies `event1, `event2, `irqf
      ensures Value() == RaiseEvents(old(Value()))
    {
      if event {
        event1, event2 := evtcfg % 8 in irqf, evtcfg / 16 % 8 in irqf;
      } else {
        irqf, event1, event2 := {}, false, false;
      }
    }

    method DoUpMode(cycles: nat)
      modifies this
      ensures Value() == UpTicks(old(Value()), cycles)
    {
      hide CountCompare, Overflow;
      for k := 0 to cycles
        invariant Value() == UpTicks(old(Value()), k)
      {
        event := false;
        count := NextWord(count);
        if count == 0 {
          RunOverflow();
        }
        RunCountCompare();
      }
    }
  }
}
