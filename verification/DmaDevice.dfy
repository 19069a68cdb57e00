/** The DMA engine as it runs: an array of channels updated in place over the shared memory
    (s51.src/CC2530DMA.cc:144-178, 216-396). */
module DmaDevice {
  import opened DmaModel

  class DmaEngine {
    var tabDMACh: array<Channel>
    var xram: Mem

    ghost predicate Valid()
      reads this
    {
      tabDMACh.Length == 5
    }

    ghost function Value(): (e: Engine)
      requires Valid()
      reads this, tabDMACh
      ensures Five(e)
    {
      Engine(tabDMACh[..], xram)
    }

    /** Move one byte or word, then advance both addresses. */
    method TransferUnit(i: int)
      requires Valid() && 0 <= i < 5
      modifies this`xram, tabDMACh
      ensures Valid()
      ensures var ch := old(tabDMACh[i]);
        && xram == Apply(old(xram), Moved(ch, old(xram)))
        && tabDMACh[..] ==
             old(tabDMACh[..])[i := ch.(s := ch.s + ch.srcInc, d := ch.d + ch.destInc, count := ch.count - 1)]
    {
      var ch := tabDMACh[i];
      ghost var ws := Moved(ch, xram);
      assert ws[..0] == [] && Apply(xram, []) == xram;
      xram := xram[ch.d := Read(xram, ch.s)];
      if ch.word {
        assert ws[..1] == [ws[0]] && ws[..1][..0] == [];
        if ch.destInc >= 0 {
          xram := xram[ch.d + 1 := Read(xram, ch.s + 1)];
        } else {
          xram := xram[ch.d - 1 := Read(xram, ch.s - 1)];
        }
      }
      tabDMACh[i] := ch.(s := ch.s + ch.srcInc, d := ch.d + ch.destInc, count := ch.count - 1);
    }

    /** Read the configuration block of channel `i` field by field. */
    method LoadConfiguration(i: int)
      requires Valid() && 0 <= i < 5
      modifies tabDMACh
      ensures tabDMACh[..] == old(tabDMACh[..])[i := Loaded(old(tabDMACh[i]), xram)]
    {
      var ch := tabDMACh[i];
      var cfg := ch.config;
      var source := Read(xram, cfg) * 256 + Read(xram, cfg + 1);
      var destination := Read(xram, cfg + 2) * 256 + Read(xram, cfg + 3);
      var vlen := Read(xram, cfg + 4) / 32;
      var len := Read(xram, cfg + 4) % 32 * 256 + Read(xram, cfg + 5);
      var mode, inc := Read(xram, cfg + 6), Read(xram, cfg + 7);
      var first := Read(xram, source);
      var count := 0;
      match vlen {
        case 1 => count := Min(len, first + 1);
        case 2 => count := Min(len, first + 0);
        case 3 => count := Min(len, first + 2);
        case 4 => count := Min(len, first + 3);
        case 5 => count := Min(len, first);
        case 6 => count := Min(len, first);
        case _ => count := len;
      }
      tabDMACh[i] := Channel(
        Armed, 0, source, destination, count, len, vlen,
        Increment(inc / 64), Increment(inc / 16 % 4), mode / 128 == 1,
        mode / 32 % 2 == 0, mode / 64 % 2 == 1, inc / 8 % 2 == 1, mode % 32,
        false, false, ch.irq, ch.ircon);
    }

    /** The transfer state: move a unit, and at the end of the count interrupt and leave. */
    method TransferState(i: int)
      requires Valid() && 0 <= i < 5 && tabDMACh[i].state == Transfer
      modifies this`xram, tabDMACh
      ensures Valid()
      ensures xram == Apply(old(xram), Moved(old(tabDMACh[i]), old(xram)))
      ensures tabDMACh[..] == old(tabDMACh[..])[i := Stepped(old(tabDMACh[i]), old(xram))]
    {
      hide Loaded, Moved, Apply;
      var ch := tabDMACh[i];
      TransferUnit(i);
      if tabDMACh[i].count <= 0 {
        tabDMACh[i] := tabDMACh[i].(irq := true);
        if ch.itMask {
          tabDMACh[i] := tabDMACh[i].(ircon := true);
        }
        tabDMACh[i] := tabDMACh[i].(state := if ch.repeated then LoadConfig else Disarm);
      } else if ch.single && !ch.triggered {
        tabDMACh[i] := tabDMACh[i].(state := Armed);
      }
    }

    method StateTrans(i: int)
      requires Valid() && 0 <= i < 5
      modifies this`xram, tabDMACh
      ensures Valid() && Value() == StepChannel(old(Value()), i)
    {
      hide Loaded, Moved, Apply;
      ghost var e := Value();
      NothingWritten(e.mem);
      var ch := tabDMACh[i];
      match ch.state {
        case Idle =>
          if ch.armed {
            tabDMACh[i] := ch.(state := LoadConfig);
          }
        case LoadConfig =>
          LoadConfiguration(i);
        case Armed =>
          if ch.triggered {
            tabDMACh[i] := ch.(triggered := false, state := Transfer);
          }
        case Transfer =>
          TransferState(i);
        case Disarm =>
          tabDMACh[i] := ch.(armed := false, state := Idle);
      }
      assert tabDMACh[..] == e.ch[i := Stepped(e.ch[i], e.mem)];
    }

    /** One tick: take the inputs, then step the channels in index order. */
    method RunTick(xs: seq<Input>)
      requires Valid() && |xs| == 5
      modifies this`xram, tabDMACh
      ensures Valid() && Value() == Tick(old(Value()), xs)
    {
      hide StepChannel;
      ghost var e := Value();
      for i := 0 to 5
        invariant forall j :: 0 <= j < 5 ==> tabDMACh[j] == if j < i then Given(e.ch[j], xs[j]) else e.ch[j]
        invariant xram == e.mem && Valid()
      {
        tabDMACh[i] := Given(tabDMACh[i], xs[i]);
      }
      assert Value() == GivenAll(e, xs);
      for i := 0 to 5
        invariant Valid() && Value() == StepChannels(GivenAll(e, xs), i)
      {
        StateTrans(i);
      }
    }
  }

  lemma NothingWritten(m: Mem)
    ensures Apply(m, []) == m
  {
  }
}
