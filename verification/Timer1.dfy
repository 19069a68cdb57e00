/** Timer 1 of the CC2530 (s51.src/CC2530timer1.cc, s51.src/CC2530timer.cc): a 16-bit counter
    with five compare channels.  The timer does not look at its channels on every tick: it
    predicts how many ticks are left to the next compare event and counts them down. */
module Timer1Model {

  /** A `short int`. */
  type Short = x: int | -0x8000 <= x < 0x8000

  /** The value of an `int` assigned to a `short int`. */
  function Wrap(x: int): Short { (x + 0x8000) % 0x1_0000 - 0x8000 }

  /** A channel: its control register (bit 2 selects compare mode, bits 3-5 the action on the pin,
      bits 0-1 the capture edge), its compare value and its pin. */
  datatype Channel = Channel(ctl: nat, value: Short, pin: bool, exPin: bool)

  predicate Compares(ch: Channel) { ch.ctl / 4 % 2 == 1 }

  /** What partners and observers see: an overflow, a channel's compare event, or a run of
      `CaptureCompare` at some count. */
  datatype Event = Overflow | Matched(channel: int) | Ran(count: Short)

  datatype Mode = Stopped | FreeRunning | Modulo | UpDown

  /** `flags` are the channel bits of the status register. */
  datatype Timer = Timer(mode: Mode, count: Short, next: Short, down: bool, pinEvent: bool,
                         ch: seq<Channel>, ovfMask: bool, ovfFlag: bool, ircon: bool,
                         flags: set<int>, log: seq<Event>)

  predicate FiveChannels(t: Timer) { |t.ch| == 5 }

  // ----- prediction -----

  /** The distance to the compare value of channel `i`, as a `short int`. */
  function Distance(t: Timer, i: int): Short
    requires 0 <= i < |t.ch|
  {
    if i < 3 && t.mode == UpDown && t.down then Wrap(t.count - t.ch[i].value)
    else Wrap(t.ch[i].value - t.count)
  }

  /** How channel `i` changes the prediction `best`: the first three channels may replace the
      initial 0xFFFF (which is -1) by a negative distance, the last two may not. */
  function Consider(t: Timer, i: int, best: Short): Short
    requires 0 <= i < |t.ch|
  {
    var d := Distance(t, i);
    if Compares(t.ch[i]) && ((0 < d < best) || (i < 3 && best == -1 && d != 0)) then d else best
  }

  /** `get_next_cc_event` over the first `n` channels. */
  function Predict(t: Timer, n: nat): Short
    requires n <= |t.ch|
  {
    if n == 0 then -1 else Consider(t, n - 1, Predict(t, n - 1))
  }

  function Repredicted(t: Timer): Timer
    requires FiveChannels(t)
  {
    t.(next := Predict(t, 5))
  }

  // ----- capture and compare -----

  /** The edge on the pin of a channel in capture mode is one that its mode asks for. */
  predicate Wanted(ch: Channel) { if ch.pin then ch.ctl % 2 == 1 else ch.ctl / 2 % 2 == 1 }

  predicate Interrupts(ch: Channel) { ch.ctl / 64 % 2 == 1 }

  /** The count becomes the value of channel `i`.  The registers are written byte by byte, and the
      write to the high byte of channel 0 interrupts by itself. */
  function Latched(t: Timer, i: int): Timer
    requires FiveChannels(t) && 0 <= i < 5
  {
    var ch := t.ch[i];
    t.(ch := t.ch[i := ch.(value := t.count)],
       flags := if i == 0 || Interrupts(ch) then t.flags + {i} else t.flags,
       ircon := t.ircon || i == 0 || (i >= 3 && Interrupts(ch)))
  }

  /** `Capture`: a channel in capture mode looks for an edge on its pin. */
  function Captured(t: Timer, i: int): (r: Timer)
    requires FiveChannels(t) && 0 <= i < 5
    ensures FiveChannels(r) && r.mode == t.mode
  {
    var ch := t.ch[i];
    if ch.pin == ch.exPin then t
    else
      var t1 := t.(ch := t.ch[i := ch.(exPin := ch.pin)]);
      if Wanted(ch) then Latched(t1, i) else t1
  }

  /** A channel in capture mode sees no edge on its pin. */
  predicate Quiet(ch: Channel) { !Compares(ch) ==> ch.pin == ch.exPin }

  predicate QuietTimer(t: Timer) { FiveChannels(t) && forall i :: 0 <= i < 5 ==> Quiet(t.ch[i]) }

  /** `Compare`: the pin of channel `i` after a compare event. */
  function PinAfter(t: Timer, i: int): bool
    requires FiveChannels(t) && 0 <= i < 5
  {
    var ch, atTop := t.ch[i], t.count == t.ch[0].value;
    var hit := t.count == ch.value;
    match ch.ctl / 8 % 8
    case 0 => if atTop then true else ch.pin
    case 1 => if atTop then false else ch.pin
    case 2 => if atTop then !ch.pin else ch.pin
    case 3 =>
      if t.mode == UpDown then (if hit then !t.down else t.count > ch.value)
      else if t.count == 0 then false else if hit then true else ch.pin
    case 4 =>
      if t.mode == UpDown then (if hit then t.down else t.count <= ch.value)
      else if t.count == 0 then true else if hit then false else ch.pin
    case 5 =>
      if i == 0 then ch.pin
      else if t.mode == Modulo then (if t.count == 0 then false else if hit then true else ch.pin)
      else if hit then true else if atTop then false else ch.pin
    case 6 =>
      if i == 0 then ch.pin
      else if t.mode == Modulo then (if t.count == 0 then true else if hit then false else ch.pin)
      else if hit then false else if atTop then true else ch.pin
    case _ => false
  }

  /** `CaptureCompare` for one channel: in capture mode, look for an edge; in compare mode, act when
      the count is the value of channel 0, the own value, or 0. */
  function VisitChannel(t: Timer, i: int): (r: Timer)
    requires FiveChannels(t) && 0 <= i < 5
    ensures FiveChannels(r) && r.mode == t.mode
  {
    var ch := t.ch[i];
    if !Compares(ch) then Captured(t, i)
    else if t.count == t.ch[0].value || t.count == ch.value || t.count == 0 then
      t.(ch := t.ch[i := ch.(pin := PinAfter(t, i))],
         log := if i < 3 then t.log + [Matched(i)] else t.log)
    else t
  }

  function VisitChannels(t: Timer, n: nat): (r: Timer)
    requires FiveChannels(t) && n <= 5
    ensures FiveChannels(r) && r.mode == t.mode
  {
    if n == 0 then t else VisitChannel(VisitChannels(t, n - 1), n - 1)
  }

  function CaptureCompare(t: Timer): (r: Timer)
    requires FiveChannels(t)
    ensures FiveChannels(r) && r.mode == t.mode
  {
    Repredicted(VisitChannels(t.(log := t.log + [Ran(t.count)]), 5))
  }

  // ----- one tick of each mode -----

  function Overflowed(t: Timer): Timer {
    t.(ovfFlag := t.ovfFlag || t.ovfMask, ircon := t.ircon || t.ovfMask, log := t.log + [Overflow])
  }

  /** The end of a tick: run `CaptureCompare` if asked to, and forget the pin event. */
  function Finish(t: Timer, run: bool): (r: Timer)
    requires FiveChannels(t)
    ensures FiveChannels(r) && r.mode == t.mode
  {
    (if run then CaptureCompare(t) else t).(pinEvent := false)
  }

  predicate Due(t: Timer) { t.next == 0 || t.pinEvent }

  function FreeCount(t: Timer): (r: Timer)
    ensures r.ch == t.ch && r.mode == t.mode && r.pinEvent == t.pinEvent
  {
    var t1 := t.(next := Wrap(t.next - 1), count := Wrap(t.count + 1));
    if t1.count == 0 then Overflowed(t1) else t1
  }

  function ModuloCount(t: Timer): (r: Timer)
    requires FiveChannels(t)
    ensures FiveChannels(r) && r.mode == t.mode
  {
    var t1 := t.(next := Wrap(t.next - 1));
    if t.count == t.ch[0].value then Repredicted(Overflowed(t1.(count := 0)))
    else
      var t2 := t1.(count := Wrap(t.count + 1));
      if t2.count == 0 then Repredicted(Overflowed(t2)) else t2
  }

  function UpDownCount(t: Timer): (r: Timer)
    requires FiveChannels(t)
    ensures r.ch == t.ch && r.mode == t.mode && r.pinEvent == t.pinEvent
  {
    var t1 := t.(next := Wrap(t.next - 1));
    if !t.down then
      var t2 := t1.(count := Wrap(t.count + 1));
      var t3 := if t2.count == 0 then Overflowed(t2) else t2;
      if t3.count == t.ch[0].value then t3.(down := true) else t3
    else
      var t2 := t1.(count := Wrap(t.count - 1));
      if t2.count == 0 then Overflowed(t2).(down := false) else t2
  }

  function FreeTick(t: Timer): (r: Timer)
    requires FiveChannels(t)
    ensures FiveChannels(r) && r.mode == t.mode
  {
    var t1 := FreeCount(t);
    Finish(t1, Due(t1))
  }

  function ModuloTick(t: Timer): (r: Timer)
    requires FiveChannels(t)
    ensures FiveChannels(r) && r.mode == t.mode
  {
    var t1 := ModuloCount(t);
    Finish(t1, Due(t1))
  }

  function UpDownTick(t: Timer): (r: Timer)
    requires FiveChannels(t)
    ensures FiveChannels(r) && r.mode == t.mode
  {
    var t1 := UpDownCount(t);
    var t2 := if Due(t1) then CaptureCompare(t1) else t1;
    (if t1.down != t.down then Repredicted(t2) else t2).(pinEvent := false)
  }

  function Tick(t: Timer): (r: Timer)
    requires FiveChannels(t)
    ensures FiveChannels(r) && r.mode == t.mode
  {
    match t.mode
    case Stopped => t
    case FreeRunning => FreeTick(t)
    case Modulo => ModuloTick(t)
    case UpDown => UpDownTick(t)
  }

  function Ticks(t: Timer, n: nat): (r: Timer)
    requires FiveChannels(t)
    ensures FiveChannels(r) && r.mode == t.mode
  {
    if n == 0 then t else Tick(Ticks(t, n - 1))
  }
}
