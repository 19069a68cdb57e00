/** The stack of the HC08: pushes and pulls refine a stack of bytes while SP stays in range, and every
    properly nested run of push/pull, JSR/RTS and SWI/RTI gives back SP and what was saved. */
module Hc08Stack {
  import opened Bits
  import opened Hc08Model

  // ----- the bytes on the stack -----

  /** The bytes from the top of the stack up to address `base`, the top first. */
  function Live(m: Cpu, base: int): (r: seq<Byte>)
    ensures |r| == if m.sp <= base then base - m.sp else 0
    ensures forall i :: 0 <= i < |r| ==> r[i] == Load(m.mem, m.sp + 1 + i)
  {
    seq<Byte>(if m.sp <= base then base - m.sp else 0, i => Load(m.mem, m.sp + 1 + i))
  }

  function High(w: int): Byte { w / 256 % 256 }
  function Low(w: int): Byte { w % 256 }

  function Word2(high: Byte, low: Byte): Word { high * 256 + low }

  lemma PushIsCons(m: Cpu, v: Byte, base: Word)
    requires 1 <= m.sp <= base
    ensures Push1(m, v).sp == m.sp - 1
    ensures Live(Push1(m, v), base) == [v] + Live(m, base)
  {
    var m1 := Push1(m, v);
    forall i | 0 <= i < |Live(m1, base)|
      ensures Live(m1, base)[i] == ([v] + Live(m, base))[i]
    {
      assert i > 0 ==> Load(m1.mem, m.sp + i) == Load(m.mem, m.sp + i);
    }
  }

  lemma Push2IsCons(m: Cpu, v: int, base: Word)
    requires 2 <= m.sp <= base
    ensures Push2(m, v).sp == m.sp - 2
    ensures Live(Push2(m, v), base) == [High(v), Low(v)] + Live(m, base)
  {
    var m1 := Push2(m, v);
    forall i | 0 <= i < |Live(m1, base)|
      ensures Live(m1, base)[i] == ([High(v), Low(v)] + Live(m, base))[i]
    {
      assert i > 1 ==> Load(m1.mem, m.sp - 1 + i) == Load(m.mem, m.sp - 1 + i);
    }
  }

  lemma DropIsTail(m: Cpu, n: nat, base: Word)
    requires m.sp + n <= base
    ensures Drop(m, n).sp == m.sp + n
    ensures Live(Drop(m, n), base) == Live(m, base)[n..]
  {
    var m1 := Drop(m, n);
    assert m1.sp == m.sp + n;
    forall i | 0 <= i < base - m1.sp
      ensures Live(m1, base)[i] == Live(m, base)[n..][i]
    {
    }
  }

  lemma TopIsHead(m: Cpu, base: Word)
    requires m.sp < base
    ensures Top1(m) == Live(m, base)[0]
    ensures m.sp + 1 < base ==> Top2(m) == Word2(Live(m, base)[0], Live(m, base)[1])
  {
  }

  lemma PopIsSplit(m: Cpu, base: Word)
    requires m.sp + 2 <= base
    ensures Live(m, base) == [High(Top2(m)), Low(Top2(m))] + Live(Drop(m, 2), base)
  {
    hide Load;
    DropIsTail(m, 2, base);
    TopIsHead(m, base);
    var bytes := Live(m, base);
    assert High(Word2(bytes[0], bytes[1])) == bytes[0] && Low(Word2(bytes[0], bytes[1])) == bytes[1];
  }

  lemma WordOfBytes(w: int)
    requires Inside(w)
    ensures Word2(High(w), Low(w)) == w
  {
  }

  /** A byte comes back, whatever it is, exactly when SP does not wrap. */
  lemma PushPopIffInRange(m: Cpu)
    ensures (forall v: Byte :: Top1(Push1(m, v)) == v) <==> m.sp >= 1
    ensures (forall v: Word :: Top2(Push2(m, v)) == v) <==> m.sp >= 2
    ensures forall v: Byte :: Drop(Push1(m, v), 1).sp == m.sp
  {
    hide Top2, Push2;
    if m.sp == 0 {
      var other: Byte := if m.mem.outside == 0 then 1 else 0;
      assert Top1(Push1(m, other)) == m.mem.outside;
    }
    if m.sp < 2 {
      WrappedWord(m);
    } else {
      forall v: Word ensures Top2(Push2(m, v)) == v {
        WordComesBack(m, v);
      }
    }
  }

  lemma WordComesBack(m: Cpu, v: Word)
    requires m.sp >= 2
    ensures Top2(Push2(m, v)) == v
  {
    hide Load, High, Low, Word2;
    Push2IsCons(m, v, m.sp);
    TopIsHead(Push2(m, v), m.sp);
    WordOfBytes(v);
  }

  lemma WrappedWord(m: Cpu)
    requires m.sp < 2
    ensures exists v: Word :: Top2(Push2(m, v)) != v
  {
    var low := if m.sp == 0 then m.mem.noise else m.mem.outside;
    var v: Word := if low == 0 then 1 else 0;
    assert Low(Top2(Push2(m, v))) == low;
    assert Top2(Push2(m, v)) != v;
  }

  // ----- what the stack holds -----

  datatype Reg = RegA | RegX | RegH

  /** What one instruction leaves on the stack. */
  datatype Frame =
    | Saved(reg: Reg, v: Byte)
    | Return(pc: int)
    | Interrupted(pc: int, x: Byte, a: Byte, p: Flags)

  function Bytes(f: Frame): seq<Byte> {
    match f
    case Saved(_, v) => [v]
    case Return(pc) => [High(pc), Low(pc)]
    case Interrupted(pc, x, a, p) => [ToByte(p), a, x, High(pc), Low(pc)]
  }

  function Flat(fs: seq<Frame>): seq<Byte> {
    if fs == [] then [] else Bytes(fs[0]) + Flat(fs[1..])
  }

  predicate Sound(f: Frame) {
    match f
    case Saved(_, _) => true
    case Return(pc) => Inside(pc)
    case Interrupted(pc, _, _, p) => Inside(pc) && Has60(p)
  }

  /** How the next instruction uses the stack.  TXS, RSP and AIS move SP freely. */
  datatype Kind = Opens(f: Frame) | Pulls(reg: Reg) | Returns | Resumes | MovesSp | Plain

  function KindOf(m: Cpu): Kind {
    if m.vector then Plain
    else
      match Peek(m)
      case 0x87 => Opens(Saved(RegA, m.a))
      case 0x89 => Opens(Saved(RegX, m.x))
      case 0x8b => Opens(Saved(RegH, m.h))
      case 0xad => Opens(Return(Inc(Inc(m.pc))))
      case 0xbd | 0xcd | 0xdd | 0xed | 0xfd =>
        Opens(Return(FetchEa(Skip(m), Peek(m), false).m.pc))
      case 0x83 => Opens(Interrupted(Inc(m.pc), m.x, m.a, m.p))
      case 0x86 => Pulls(RegA)
      case 0x88 => Pulls(RegX)
      case 0x8a => Pulls(RegH)
      case 0x81 => Returns
      case 0x80 => Resumes
      case 0x94 | 0x9c | 0xa7 => MovesSp
      case _ => Plain
  }

  /** Proper nesting: a frame opens where there is room for it, the closing instruction fits the
      innermost frame, and nothing else moves SP or writes into the live part of the stack. */
  predicate Disciplined(fs: seq<Frame>, m: Cpu, noise: Byte, base: Word) {
    match KindOf(m)
    case Opens(f) => |Bytes(f)| <= m.sp && (f.Saved? || Inside(f.pc))
    case Pulls(_) => fs != [] && fs[0].Saved?
    case Returns => fs != [] && fs[0].Return?
    case Resumes => fs != [] && fs[0].Interrupted?
    case MovesSp => false
    case Plain => Live(Step(m, noise).m, base) == Live(m, base)
  }

  function NextFrames(fs: seq<Frame>, m: Cpu): seq<Frame> {
    match KindOf(m)
    case Opens(f) => [f] + fs
    case Pulls(_) | Returns | Resumes => if fs == [] then [] else fs[1..]
    case _ => fs
  }

  /** The live part of the stack is exactly the open frames. */
  predicate Tracks(fs: seq<Frame>, m: Cpu, base: Word) {
    m.sp <= base && Live(m, base) == Flat(fs) && forall f <- fs :: Sound(f)
  }

  // ----- one instruction -----

  /** Every instruction keeps bits 5 and 6 of P set. */
  lemma StepKeeps60(m: Cpu, noise: Byte)
    requires Has60(m.p)
    ensures Has60(Step(m, noise).m.p)
  {
    hide Row3, Lda, Prefixed, RowA, CondBranch, BitTest, BitSetClear, SetHx, SetClearFlags, ToByte,
         FromByte, FetchEa, Load, Store, Store2, Load2, Peek;
  }

  lemma {:induction false} ReachableHas60(m: Cpu, noise: seq<Byte>)
    ensures Has60(Exec(Reset(m), noise).p)
  {
    if noise == [] {
      ResetHas60(m);
    } else {
      ReachableHas60(m, noise[..|noise| - 1]);
      StepKeeps60(Exec(Reset(m), noise[..|noise| - 1]), noise[|noise| - 1]);
    }
  }

  lemma ResetHas60(m: Cpu)
    ensures Has60(Reset(m).p)
  {
    var b: Byte := 0x60;
    assert b / 2 / 2 / 2 / 2 / 2 == 3;
  }

  lemma PlainKeepsSp(m: Cpu, noise: Byte)
    requires KindOf(m).Plain?
    ensures Step(m, noise).m.sp == m.sp
  {
    hide Row3, Lda, Prefixed, RowA, CondBranch, BitTest, BitSetClear, SetHx, SetClearFlags, ToByte,
         FromByte, FetchEa, Load, Store, Store2, Load2, Peek;
  }

  /** The machine at the moment the handler starts. */
  function Begun(m: Cpu, noise: Byte): Cpu { Skip(m.(mem := m.mem.(noise := noise))) }

  /** What an opening instruction runs. */
  lemma OpenRuns(m: Cpu, noise: Byte)
    requires KindOf(m).Opens?
    ensures var m1, m2 := Begun(m, noise), Step(m, noise).m;
      match KindOf(m).f
      case Saved(_, v) => m2 == Push1(m1, v)
      case Return(pc) => m2 == Push2(m1.(pc := pc), pc).(pc := m2.pc)
      case Interrupted(pc, x, a, p) =>
        m2 == Swi(m1) && pc == m1.pc && x == m1.x && a == m1.a && p == m1.p
  {
    hide Row3, Lda, Prefixed, RowA, CondBranch, BitTest, BitSetClear, SetHx, SetClearFlags, ToByte,
         FromByte, FetchEa, Load, Store, Store2, Load2, Peek, Push1, Push2, Swi, Rti, Rts, Disp, Inc;
    assert FetchEa(Skip(m), Peek(m), false).m.pc == FetchEa(Begun(m, noise), Peek(m), false).m.pc
      by { SamePc(m, noise, Peek(m)); }
  }

  lemma SamePc(m: Cpu, noise: Byte, code: Byte)
    ensures FetchEa(Skip(m), code, false).m.pc == FetchEa(Begun(m, noise), code, false).m.pc
  {
    hide Load, Inc;
  }

  lemma BegunKeeps(m: Cpu, noise: Byte, base: Word)
    ensures Begun(m, noise).sp == m.sp && Live(Begun(m, noise), base) == Live(m, base)
  {
  }

  lemma OpenPushes(m: Cpu, noise: Byte, base: Word)
    requires KindOf(m).Opens? && m.sp <= base
    requires |Bytes(KindOf(m).f)| <= m.sp
    ensures Step(m, noise).m.sp == m.sp - |Bytes(KindOf(m).f)|
    ensures Live(Step(m, noise).m, base) == Bytes(KindOf(m).f) + Live(m, base)
  {
    hide Step, KindOf, Begun, Push1, Push2, Swi, Load, ToByte;
    var f, m1, m2 := KindOf(m).f, Begun(m, noise), Step(m, noise).m;
    OpenRuns(m, noise);
    BegunKeeps(m, noise, base);
    match f {
      case Saved(_, v) =>
        PushIsCons(m1, v, base);
      case Return(pc) =>
        assert Live(m1.(pc := pc), base) == Live(m1, base);
        Push2IsCons(m1.(pc := pc), pc, base);
        assert Live(m2, base) == Live(Push2(m1.(pc := pc), pc), base);
      case Interrupted(_, _, _, _) =>
        SwiPushes(m1, base);
    }
  }

  lemma SwiPushes(m: Cpu, base: Word)
    requires 5 <= m.sp <= base
    ensures Swi(m).sp == m.sp - 5
    ensures Live(Swi(m), base) == Bytes(Interrupted(m.pc, m.x, m.a, m.p)) + Live(m, base)
  {
    hide Push1, Push2, Load, ToByte, High, Low;
    var m2 := Push2(m, m.pc);
    var m3 := Push1(m2, m.x);
    var m4 := Push1(m3, m.a);
    var m5 := Push1(m4, ToByte(m.p));
    Push2IsCons(m, m.pc, base);
    PushIsCons(m2, m.x, base);
    PushIsCons(m3, m.a, base);
    PushIsCons(m4, ToByte(m.p), base);
    assert Live(Swi(m), base) == Live(m5, base);
  }

  predicate Closes(k: Kind) { k.Pulls? || k.Returns? || k.Resumes? }

  function RegOf(m: Cpu, r: Reg): Byte {
    match r
    case RegA => m.a
    case RegX => m.x
    case RegH => m.h
  }

  /** `m` has back what the frame kept; a pull may name another register than the push. */
  predicate Restored(f: Frame, k: Kind, m: Cpu) {
    match f
    case Saved(_, v) => k.Pulls? && RegOf(m, k.reg) == v
    case Return(pc) => m.pc == pc
    case Interrupted(pc, x, a, p) => m.pc == pc && m.x == x && m.a == a && m.p == p
  }

  /** What a closing instruction runs. */
  lemma CloseRuns(m: Cpu, noise: Byte)
    requires Closes(KindOf(m))
    ensures var m1, m2 := Begun(m, noise), Step(m, noise).m;
      match KindOf(m)
      case Pulls(r) => m2.sp == Drop(m1, 1).sp && m2.mem == m1.mem && RegOf(m2, r) == Top1(m1)
      case Returns => m2 == Rts(m1)
      case _ => m2 == Rti(m1)
  {
    hide Row3, Lda, Prefixed, RowA, CondBranch, BitTest, BitSetClear, SetHx, SetClearFlags, ToByte,
         FromByte, FetchEa, Load, Store, Store2, Load2, Peek, Push1, Push2, Swi, Rti, Rts, Disp, Inc,
         Top1;
  }

  lemma RtsRestores(m: Cpu, pc: int, rest: seq<Byte>, base: Word)
    requires m.sp <= base && Live(m, base) == [High(pc), Low(pc)] + rest && Inside(pc)
    ensures Rts(m).sp == m.sp + 2 && Live(Rts(m), base) == rest && Rts(m).pc == pc
  {
    hide Load, High, Low, Word2;
    DropIsTail(m, 2, base);
    TopIsHead(m, base);
    WordOfBytes(pc);
    assert Live(Rts(m), base) == Live(Drop(m, 2), base);
  }

  lemma RtiRestores(m: Cpu, f: Frame, rest: seq<Byte>, base: Word)
    requires f.Interrupted? && Sound(f)
    requires m.sp <= base && Live(m, base) == Bytes(f) + rest
    ensures Rti(m).sp == m.sp + 5 && Live(Rti(m), base) == rest && Restored(f, Resumes, Rti(m))
  {
    hide Load, High, Low, Word2, ToByte, FromByte, Rts, Top1, Live, Drop;
    var m1 := Drop(m, 1).(p := Or60(FromByte(Top1(m))));
    var m2 := Drop(m1, 1).(a := Top1(m1));
    var m3 := Drop(m2, 1).(x := Top1(m2));
    var word := [High(f.pc), Low(f.pc)];
    assert Bytes(f) + rest == [ToByte(f.p)] + ([f.a] + ([f.x] + (word + rest)));
    PopOne(m, m1, ToByte(f.p), [f.a] + ([f.x] + (word + rest)), base);
    PopOne(m1, m2, f.a, [f.x] + (word + rest), base);
    PopOne(m2, m3, f.x, word + rest, base);
    FlagsRoundTrip(f.p);
    RtsRestores(m3, f.pc, rest, base);
    RtsKeeps(m3);
    DropKeeps(m);
    DropKeeps(m1);
    DropKeeps(m2);
  }

  /** A pull into some register. */
  lemma PopOne(m: Cpu, m1: Cpu, v: Byte, rest: seq<Byte>, base: Word)
    requires m.sp <= base && Live(m, base) == [v] + rest
    requires m1 == Drop(m, 1).(p := m1.p, a := m1.a, x := m1.x)
    ensures Top1(m) == v && m1.sp == m.sp + 1 && Live(m1, base) == rest
  {
    TopIsHead(m, base);
    DropIsTail(m, 1, base);
    assert Live(m1, base) == Live(Drop(m, 1), base);
  }

  lemma DropKeeps(m: Cpu)
    ensures Drop(m, 1) == m.(sp := Drop(m, 1).sp)
  {
  }

  lemma RtsKeeps(m: Cpu)
    ensures Rts(m).a == m.a && Rts(m).x == m.x && Rts(m).p == m.p
  {
  }

  /** A closing instruction that fits the innermost frame gives back what the frame kept. */
  lemma CloseRestores(fs: seq<Frame>, m: Cpu, noise: Byte, base: Word)
    requires Tracks(fs, m, base) && Disciplined(fs, m, noise, base) && Closes(KindOf(m))
    ensures Restored(fs[0], KindOf(m), Step(m, noise).m)
    ensures Tracks(fs[1..], Step(m, noise).m, base)
  {
    hide Step, KindOf, Begun, Rts, Rti, Load, ToByte;
    var k, m1, m2 := KindOf(m), Begun(m, noise), Step(m, noise).m;
    CloseRuns(m, noise);
    BegunKeeps(m, noise, base);
    assert fs[0] in fs;
    match fs[0] {
      case Saved(_, v) =>
        TopIsHead(m1, base);
        DropIsTail(m1, 1, base);
        assert Live(m2, base) == Live(Drop(m1, 1), base);
      case Return(pc) =>
        RtsRestores(m1, pc, Flat(fs[1..]), base);
      case Interrupted(_, _, _, _) =>
        RtiRestores(m1, fs[0], Flat(fs[1..]), base);
    }
  }

  /** The invariant of every disciplined run. */
  lemma StepTracks(fs: seq<Frame>, m: Cpu, noise: Byte, base: Word)
    requires Tracks(fs, m, base) && Disciplined(fs, m, noise, base) && Has60(m.p)
    ensures Tracks(NextFrames(fs, m), Step(m, noise).m, base)
  {
    var k := KindOf(m);
    hide Load, Step, KindOf, ToByte;
    if k.Opens? {
      OpenSound(m);
      OpenPushes(m, noise, base);
      assert ([k.f] + fs)[1..] == fs;
    } else if Closes(k) {
      CloseRestores(fs, m, noise, base);
    } else {
      PlainKeepsSp(m, noise);
    }
  }

  lemma OpenSound(m: Cpu)
    requires KindOf(m).Opens? && Has60(m.p) && (KindOf(m).f.Saved? || Inside(KindOf(m).f.pc))
    ensures Sound(KindOf(m).f)
  {
    hide FetchEa;
  }

  // ----- whole runs -----

  /** The frames that are open after a run. */
  function Frames(fs: seq<Frame>, m: Cpu, noise: seq<Byte>): seq<Frame> {
    if noise == [] then fs
    else
      var k := |noise| - 1;
      NextFrames(Frames(fs, m, noise[..k]), Exec(m, noise[..k]))
  }

  /** Every instruction of the run is disciplined. */
  predicate Nested(fs: seq<Frame>, m: Cpu, noise: seq<Byte>, base: Word) {
    noise == [] ||
    (var k := |noise| - 1;
     Nested(fs, m, noise[..k], base)
     && Disciplined(Frames(fs, m, noise[..k]), Exec(m, noise[..k]), noise[k], base))
  }

  /** Along every properly nested run the stack is exactly the open frames. */
  lemma {:induction false} RunTracks(fs: seq<Frame>, m: Cpu, noise: seq<Byte>, base: Word)
    requires Tracks(fs, m, base) && Has60(m.p) && Nested(fs, m, noise, base)
    ensures Tracks(Frames(fs, m, noise), Exec(m, noise), base) && Has60(Exec(m, noise).p)
  {
    hide Tracks, Disciplined, NextFrames, Step, Has60;
    if noise != [] {
      var k := |noise| - 1;
      RunTracks(fs, m, noise[..k], base);
      StepTracks(Frames(fs, m, noise[..k]), Exec(m, noise[..k]), noise[k], base);
      StepKeeps60(Exec(m, noise[..k]), noise[k]);
    }
  }

  /** After its first instruction the run stays inside the frame that this instruction opened. */
  predicate StaysAbove(fs: seq<Frame>, m: Cpu, noise: seq<Byte>) {
    forall k :: 1 <= k <= |noise| ==> |Frames(fs, m, noise[..k])| > |fs|
  }

  lemma ExecNone(m: Cpu)
    ensures Exec(m, []) == m
  {
  }

  lemma NextOpens(fs: seq<Frame>, m: Cpu)
    requires KindOf(m).Opens?
    ensures NextFrames(fs, m) == [KindOf(m).f] + fs
  {
    hide KindOf;
  }

  lemma {:induction false} EnclosingFrameStays(fs: seq<Frame>, m: Cpu, noise: seq<Byte>)
    requires KindOf(m).Opens? && noise != [] && StaysAbove(fs, m, noise)
    ensures var now := Frames(fs, m, noise);
      |now| > |fs| && now[|now| - |fs| - 1..] == [KindOf(m).f] + fs
  {
    hide Exec, KindOf, NextFrames;
    var k := |noise| - 1;
    assert noise[..|noise|] == noise;
    if k == 0 {
      assert noise[..0] == [];
      ExecNone(m);
      NextOpens(fs, m);
    } else {
      forall j | 1 <= j <= k ensures |Frames(fs, m, noise[..k][..j])| > |fs| {
        assert noise[..k][..j] == noise[..j];
      }
      EnclosingFrameStays(fs, m, noise[..k]);
      Suffix(Frames(fs, m, noise[..k]), Exec(m, noise[..k]), |fs| + 1);
    }
  }

  lemma Suffix(fs: seq<Frame>, m: Cpu, n: nat)
    requires n <= |fs| && n <= |NextFrames(fs, m)|
    ensures var now := NextFrames(fs, m); now[|now| - n..] == fs[|fs| - n..]
  {
    hide KindOf;
  }

  /** The bracket theorem.  Start where an instruction opens a frame and run, properly nested, until
      that frame is closed again, however deep the nesting was in between: SP and the whole live
      stack are as before, and the closing instruction gives back what the opening one saved. */
  lemma BracketRestores(fs: seq<Frame>, m: Cpu, noise: seq<Byte>, last: Byte, base: Word)
    requires Tracks(fs, m, base) && Has60(m.p) && KindOf(m).Opens?
    requires noise != [] && StaysAbove(fs, m, noise)
    requires Nested(fs, m, noise + [last], base) && |Frames(fs, m, noise + [last])| == |fs|
    ensures var m1 := Exec(m, noise + [last]);
      m1.sp == m.sp && Live(m1, base) == Live(m, base)
      && Restored(KindOf(m).f, KindOf(Exec(m, noise)), m1)
  {
    hide KindOf, Step, Has60, Load, Bytes, Disciplined, Restored, StaysAbove;
    assert (noise + [last])[..|noise|] == noise;
    var now, m1 := Frames(fs, m, noise), Exec(m, noise);
    RunTracks(fs, m, noise, base);
    EnclosingFrameStays(fs, m, noise);
    assert |NextFrames(now, m1)| == |fs|;
    assert Closes(KindOf(m1)) && now == [KindOf(m).f] + fs;
    CloseRestores(now, m1, last, base);
    assert now[1..] == fs;
  }

  /** From reset: an SWI and the matching RTI leave A, X, P and SP alone and go on behind the SWI. */
  lemma InterruptIsTransparent(m0: Cpu, past: seq<Byte>, noise: seq<Byte>, last: Byte)
    requires var m := Exec(Reset(m0), past);
      !m.vector && Peek(m) == 0x83 && noise != [] && StaysAbove([], m, noise)
      && Nested([], m, noise + [last], m.sp) && Frames([], m, noise + [last]) == []
    ensures var m := Exec(Reset(m0), past);
      var m1 := Exec(m, noise + [last]);
      m1.a == m.a && m1.x == m.x && m1.p == m.p && m1.sp == m.sp && m1.pc == Inc(m.pc)
  {
    hide Exec, Step, FetchEa, StaysAbove, Nested, Frames, Peek, Load;
    var m := Exec(Reset(m0), past);
    ReachableHas60(m0, past);
    assert KindOf(m) == Opens(Interrupted(Inc(m.pc), m.x, m.a, m.p));
    assert Tracks([], m, m.sp);
    BracketRestores([], m, noise, last, m.sp);
  }

  /** SWI goes to the word at 0xfffc, unless the five bytes that it pushes overwrite that word. */
  lemma SwiGoes(m: Cpu, noise: Byte)
    requires !m.vector && Peek(m) == 0x83 && 4 <= m.sp < 0xfffc
    ensures var r := Step(m, noise).m;
      r.pc == Load2(m.mem, 0xfffc) && forall a :: a < m.sp - 4 || a > m.sp ==> Load(r.mem, a) == Load(m.mem, a)
  {
    hide Swi;
    SwiKeeps(Begun(m, noise));
  }

  lemma SwiKeeps(m: Cpu)
    requires 4 <= m.sp < 0xfffc
    ensures Swi(m).pc == Load2(m.mem, 0xfffc)
    ensures forall a :: a < m.sp - 4 || a > m.sp ==> Load(Swi(m).mem, a) == Load(m.mem, a)
  {
    hide ToByte, Load, Store, Push1;
    var m1 := Push2(m, m.pc);
    var m2 := Push1(m1, m.x);
    var m3 := Push1(m2, m.a);
    OneCell(m.mem, m.sp - 1, m.pc / 256 % 256);
    OneCell(Store(m.mem, m.sp - 1, m.pc / 256 % 256), m.sp, m.pc % 256);
    PushesOne(m1, m.x);
    PushesOne(m2, m.a);
    PushesOne(m3, ToByte(m.p));
  }

  lemma OneCell(mem: Memory, at: int, v: Byte)
    requires Inside(at)
    ensures forall a :: a != at ==> Load(Store(mem, at, v), a) == Load(mem, a)
  {
  }

  lemma PushesOne(m: Cpu, v: Byte)
    requires m.sp >= 0
    ensures var r := Push1(m, v);
      r == m.(sp := r.sp, mem := r.mem) && (m.sp >= 1 ==> r.sp == m.sp - 1)
      && forall a :: a != m.sp ==> Load(r.mem, a) == Load(m.mem, a)
  {
  }

  /** The shortest bracket: an SWI whose vector points to an RTI, outside the bytes that the SWI
      pushes, is a nested run. */
  lemma EmptyHandlerIsNested(m: Cpu, n1: Byte, n2: Byte)
    requires !m.vector && Peek(m) == 0x83 && 0 <= m.pc < 0xffff && 5 <= m.sp < 0xfffc
    requires var target := Load2(m.mem, 0xfffc);
      Load(m.mem, target) == 0x80 && !(m.sp - 4 <= target <= m.sp)
    ensures StaysAbove([], m, [n1]) && Nested([], m, [n1] + [n2], m.sp)
    ensures Frames([], m, [n1] + [n2]) == []
  {
    hide Step, KindOf, Peek, Live, NextFrames, Disciplined;
    var m1 := Step(m, n1).m;
    SwiGoes(m, n1);
    PeekIs(m1);
    EmptyHandlerKinds(m, n1, n2);
    assert [n1][..0] == [] && [n1][..1] == [n1] && ([n1] + [n2])[..1] == [n1];
    assert Exec(m, []) == m && Exec(m, [n1]) == m1;
    assert Frames([], m, []) == [] && Frames([], m, [n1]) == NextFrames([], m);
    assert Nested([], m, [], m.sp) && Nested([], m, [n1], m.sp);
  }

  lemma PeekIs(m: Cpu)
    ensures Peek(m) == Load(m.mem, m.pc)
  {
  }

  lemma EmptyHandlerKinds(m: Cpu, n1: Byte, n2: Byte)
    requires !m.vector && Peek(m) == 0x83 && 0 <= m.pc < 0xffff && m.sp >= 5
    requires Peek(Step(m, n1).m) == 0x80
    ensures var m1, fs := Step(m, n1).m, NextFrames([], m);
      Disciplined([], m, n1, m.sp) && |fs| == 1 && Disciplined(fs, m1, n2, m.sp)
      && NextFrames(fs, m1) == []
  {
    hide Load, FetchEa, Step, Peek, Live;
    var m1 := Step(m, n1).m;
    SwiFetches(m, n1);
    assert KindOf(m) == Opens(Interrupted(Inc(m.pc), m.x, m.a, m.p)) && KindOf(m1) == Resumes;
    hide KindOf;
  }

  lemma SwiFetches(m: Cpu, noise: Byte)
    requires !m.vector && Peek(m) == 0x83
    ensures !Step(m, noise).m.vector
  {
    hide Load, Store, ToByte;
  }

  /** Without bits 5 and 6 an interrupt would not give P back: RTI sets them. */
  lemma RtiNeeds60(m: Cpu)
    requires m.sp >= 5
    ensures Rti(Swi(m)).p == m.p <==> Has60(m.p)
  {
    hide Swi, Rti, Load, ToByte, FromByte, Rts, Top1, High, Low;
    SwiPushes(m, m.sp);
    TopIsHead(Swi(m), m.sp);
    FlagsRoundTrip(m.p);
    RtiSetsP(Swi(m));
  }

  lemma RtiSetsP(m: Cpu)
    ensures Rti(m).p == Or60(FromByte(Top1(m)))
  {
    hide Load, FromByte, Top1, Top2;
  }
}
