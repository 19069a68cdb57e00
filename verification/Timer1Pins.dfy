/** The output pins of timer 1 in modulo mode: the pin of every channel after any number of ticks, in
    every output mode. */
module Timer1Pins {
  import opened Timer1Model
  import opened Timer1Prediction
  import opened Timer1Waveforms
  import opened Quotients

  /** The pin after `tops` visits of the top and `hits` visits of the channel's own value.  Modes 0 to
      2 follow the value of channel 0, not the own one; modes 3 to 6 move the pin once and for all,
      because 0, where it should go back, never runs `CaptureCompare`. */
  function PinOver(mode: int, i: int, pin: bool, tops: nat, hits: nat): bool {
    match mode
    case 0 => pin || tops > 0
    case 1 => pin && tops == 0
    case 2 => pin != (tops % 2 == 1)
    case 3 => pin || hits > 0
    case 4 => pin && hits == 0
    case 5 => pin || (i != 0 && hits > 0)
    case 6 => pin && (i == 0 || hits == 0)
    case _ => pin && tops == 0 && hits == 0
  }

  function OutputMode(ch: Channel): int { ch.ctl / 8 % 8 }

  /** How often the first `n` ticks of the sawtooth from `c` to `top` reach `w`. */
  function Visits(c: nat, top: nat, w: int, n: nat): nat {
    if n == 0 then 0 else Visits(c, top, w, n - 1) + if Rem(c + n, top + 1) == w then 1 else 0
  }

  /** A visit acts on channel `i` at this count. */
  predicate Acts(t: Timer, i: int)
    requires FiveChannels(t) && 0 <= i < 5
  {
    Compares(t.ch[i]) && (t.count == t.ch[0].value || t.count == t.ch[i].value || t.count == 0)
  }

  lemma VisitMovesPin(t: Timer, j: int, i: int)
    requires QuietTimer(t) && 0 <= i < 5 && 0 <= j < 5
    ensures VisitChannel(t, j).ch[i].pin == if i == j && Acts(t, i) then PinAfter(t, i) else t.ch[i].pin
  {
    hide PinAfter;
  }

  /** The channels are visited one by one, each moving its own pin only. */
  lemma {:induction false} VisitsMovePin(t: Timer, n: nat, i: int)
    requires QuietTimer(t) && n <= 5 && 0 <= i < 5
    ensures VisitChannels(t, n).ch[i].pin == if i < n && Acts(t, i) then PinAfter(t, i) else t.ch[i].pin
  {
    hide PinAfter, VisitChannel;
    if n > 0 {
      var s := VisitChannels(t, n - 1);
      VisitsMovePin(t, n - 1, i);
      VisitKeepsSettings(t, n - 1);
      VisitMovesPin(s, n - 1, i);
      if i == n - 1 {
        SamePinAfter(t, s, i);
      }
    }
  }

  lemma SamePinAfter(t: Timer, r: Timer, i: int)
    requires SameSettings(t, r) && 0 <= i < 5 && r.ch[i].pin == t.ch[i].pin
    ensures PinAfter(r, i) == PinAfter(t, i)
  {
  }

  /** One tick of an exact timer moves the pin as one visit of the new count does. */
  lemma PinTick(t: Timer, i: int)
    requires Exact(t) && 0 <= i < 5 && Compares(t.ch[i])
    ensures var r, ch, c := Tick(t), t.ch[i], Tick(t).count;
      && r.ch[i].ctl == ch.ctl && r.ch[i].value == ch.value
      && r.ch[i].pin == PinOver(OutputMode(ch), i, ch.pin, if c == t.ch[0].value then 1 else 0,
                                if c == ch.value && c != 0 then 1 else 0)
  {
    hide ModuloCount, Predict, PinAfter, PinOver;
    var t1 := ModuloCount(t);
    TickIsExact(t);
    CountKeepsChannels(t);
    CaptureKeepsSettings(t1);
    var t2 := t1.(log := t1.log + [Ran(t1.count)]);
    VisitsMovePin(t2, 5, i);
    SamePinAfter(t1, t2, i);
    OnePin(t1, i);
    if t1.count == t1.ch[0].value || (t1.count == t1.ch[i].value && t1.count != 0) {
      assert Hit(t1, t1.count);
    }
  }

  lemma CountKeepsChannels(t: Timer)
    requires Exact(t)
    ensures var t1 := ModuloCount(t);
      t1.ch == t.ch && QuietTimer(t1) && t1.mode == Modulo && t1.count <= t1.ch[0].value
  {
    hide Predict;
  }

  /** What the switch over the output modes says at a count other than 0. */
  lemma OnePin(t: Timer, i: int)
    requires FiveChannels(t) && t.mode == Modulo && 0 <= i < 5
    ensures var ch, top, hit := t.ch[i], t.count == t.ch[0].value, t.count == t.ch[i].value;
      && (t.count != 0 ==>
            (if top || hit then PinAfter(t, i) else ch.pin)
            == PinOver(OutputMode(ch), i, ch.pin, if top then 1 else 0, if hit then 1 else 0))
      && PinOver(OutputMode(ch), i, ch.pin, 0, 0) == ch.pin
  {
  }

  /** At count 0, where only a pin event can make it run, `CaptureCompare` moves the pins back that modes
      3 to 6 set or clear on their values. */
  lemma BottomRun(t: Timer, i: int)
    requires QuietTimer(t) && t.mode == Modulo && t.count == 0 && 0 <= i < 5 && Compares(t.ch[i])
    ensures var ch := t.ch[i];
      CaptureCompare(t).ch[i].pin ==
        match OutputMode(ch)
        case 3 => false
        case 4 => true
        case 5 => i == 0 && ch.pin
        case 6 => i != 0 || ch.pin
        case mode => PinOver(mode, i, ch.pin, if t.ch[0].value == 0 then 1 else 0, 1)
  {
    hide VisitChannels, Predict;
    var t1 := t.(log := t.log + [Ran(t.count)]);
    VisitsMovePin(t1, 5, i);
    SamePinAfter(t, t1, i);
  }

  /** Two stretches of visits add up. */
  lemma PinOverAdds(mode: int, i: int, pin: bool, tops: nat, hits: nat, top: bool, hit: bool)
    ensures PinOver(mode, i, PinOver(mode, i, pin, tops, hits), if top then 1 else 0, if hit then 1 else 0)
      == PinOver(mode, i, pin, tops + (if top then 1 else 0), hits + if hit then 1 else 0)
  {
  }

  /** The pin of every channel in compare mode, after every number of ticks. */
  lemma {:induction false} PinWave(t: Timer, i: int, n: nat)
    requires Exact(t) && 0 <= i < 5 && Compares(t.ch[i])
    ensures var r, ch, top := Ticks(t, n), t.ch[i], t.ch[0].value;
      && Exact(r) && r.ch[0].value == top && r.ch[i].ctl == ch.ctl && r.ch[i].value == ch.value
      && r.count == Rem(t.count + n, top + 1)
      && r.ch[i].pin == PinOver(OutputMode(ch), i, ch.pin, Visits(t.count, top, top, n),
                                if ch.value == 0 then 0 else Visits(t.count, top, ch.value, n))
  {
    hide Tick, Rem, PinOver, Exact;
    ReadyIsInRange(t);
    var ch, top := t.ch[i], t.ch[0].value;
    ModuloWave(t, top, n);
    if n == 0 {
      NoVisits(t, i);
    } else {
      PinWave(t, i, n - 1);
      var s := Ticks(t, n - 1);
      PinTick(s, i);
      TicksAreExact(t, n);
      var c := Tick(s).count;
      PinOverAdds(OutputMode(ch), i, ch.pin, Visits(t.count, top, top, n - 1),
                  if ch.value == 0 then 0 else Visits(t.count, top, ch.value, n - 1),
                  c == top, c == ch.value && c != 0);
    }
  }

  lemma NoVisits(t: Timer, i: int)
    requires FiveChannels(t) && 0 <= i < 5
    ensures PinOver(OutputMode(t.ch[i]), i, t.ch[i].pin, 0, 0) == t.ch[i].pin
  {
  }

  lemma ReadyIsInRange(t: Timer)
    requires Exact(t)
    ensures InRange(t, t.ch[0].value) && t.ch[0].value > 0
  {
  }

  /** The first visit of the own value decides modes 3 and 5 for ever: the pin never goes low again.
      Mode 5 leaves the pin of channel 0 alone. */
  lemma SetAndStays(t: Timer, i: int, m: nat, n: nat)
    requires Exact(t) && 0 <= i < 5 && Compares(t.ch[i])
    requires OutputMode(t.ch[i]) == 3 || (OutputMode(t.ch[i]) == 5 && i != 0)
    requires 0 < m <= n && Ticks(t, m).count == t.ch[i].value != 0
    ensures Ticks(t, n).ch[i].pin
  {
    hide Ticks, Rem, Exact;
    ReadyIsInRange(t);
    PinWave(t, i, m);
    PinWave(t, i, n);
    VisitsGrow(t.count, t.ch[0].value, t.ch[i].value, m, n);
  }

  lemma {:induction false} VisitsGrow(c: nat, top: nat, w: int, m: nat, n: nat)
    requires m <= n
    ensures Visits(c, top, w, m) <= Visits(c, top, w, n)
  {
    if m < n {
      VisitsGrow(c, top, w, m, n - 1);
    }
  }

  // ----- capture -----

  /** What a visit of all channels up to `n` leaves of channel `i`, with or without edges. */
  lemma {:induction false} VisitsCapture(t: Timer, n: nat, i: int)
    requires FiveChannels(t) && n <= 5 && 0 <= i < 5 && !Compares(t.ch[i])
    ensures var r, ch := VisitChannels(t, n), t.ch[i];
      && r.count == t.count && r.ch[i].ctl == ch.ctl && r.ch[i].pin == ch.pin
      && (i >= n ==> r.ch[i] == ch)
      && (i < n ==>
            r.ch[i] == ch.(exPin := ch.pin,
                           value := if ch.pin != ch.exPin && Wanted(ch) then t.count else ch.value))
  {
    hide PinAfter, Wanted;
    if n > 0 {
      VisitsCapture(t, n - 1, i);
      OtherChannel(VisitChannels(t, n - 1), n - 1, i);
    }
  }

  lemma OtherChannel(t: Timer, j: int, i: int)
    requires FiveChannels(t) && 0 <= i < 5 && 0 <= j < 5
    ensures VisitChannel(t, j).count == t.count && (i != j ==> VisitChannel(t, j).ch[i] == t.ch[i])
  {
    hide PinAfter, Wanted;
  }

  /** `CaptureCompare` stores the count in exactly the channels in capture mode whose pin has had a
      wanted edge, and has then seen every edge. */
  lemma EdgesAreCaptured(t: Timer, i: int)
    requires FiveChannels(t) && 0 <= i < 5 && !Compares(t.ch[i])
    ensures var r, ch := CaptureCompare(t), t.ch[i];
      r.ch[i] == ch.(exPin := ch.pin, value := if ch.pin != ch.exPin && Wanted(ch) then t.count else ch.value)
  {
    hide Wanted, VisitChannels, Predict;
    VisitsCapture(t.(log := t.log + [Ran(t.count)]), 5, i);
  }
}
