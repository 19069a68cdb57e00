/** Non-interference: channels whose destinations nobody else touches run as if each were alone. */
module DmaIsolation {
  import opened DmaModel

  // ----- what a step looks at -----

  /** The addresses that a step of `ch` reads. */
  function Reads(ch: Channel, m: Mem): set<int> {
    match ch.state
    case LoadConfig =>
      var c := ch.config;
      {c, c + 1, c + 2, c + 3, c + 4, c + 5, c + 6, c + 7, Read(m, c) * 256 + Read(m, c + 1)}
    case Transfer => if ch.word then {ch.s, ch.s + Beside(ch)} else {ch.s}
    case _ => {}
  }

  /** The addresses that a step of `ch` writes. */
  function Writes(ch: Channel): set<int> {
    if ch.state != Transfer then {}
    else if ch.word then {ch.d, ch.d + Beside(ch)} else {ch.d}
  }

  ghost predicate AgreeOn(m: Mem, m': Mem, addrs: set<int>) {
    forall a :: a in addrs ==> Read(m, a) == Read(m', a)
  }

  /** A step depends on nothing but what it reads. */
  lemma StepDependsOnReads(ch: Channel, m: Mem, m': Mem)
    requires AgreeOn(m, m', Reads(ch, m))
    ensures Stepped(ch, m) == Stepped(ch, m') && Written(ch, m) == Written(ch, m')
  {
    if ch.state == LoadConfig {
      LoadDependsOnReads(ch, m, m');
    } else if ch.state == Transfer {
      assert Read(m, ch.s) == Read(m', ch.s);
      assert ch.word ==> Read(m, ch.s + Beside(ch)) == Read(m', ch.s + Beside(ch));
    }
  }

  lemma LoadDependsOnReads(ch: Channel, m: Mem, m': Mem)
    requires ch.state == LoadConfig && AgreeOn(m, m', Reads(ch, m))
    ensures Loaded(ch, m) == Loaded(ch, m')
  {
    hide Read, TransferCount, Increment;
    var c := ch.config;
    var r := Reads(ch, m);
    assert {c, c + 1, c + 2, c + 3, c + 4, c + 5, c + 6, c + 7} <= r;
    assert Read(m, c) == Read(m', c) && Read(m, c + 1) == Read(m', c + 1);
    assert Read(m, c + 2) == Read(m', c + 2) && Read(m, c + 3) == Read(m', c + 3);
    assert Read(m, c + 4) == Read(m', c + 4) && Read(m, c + 5) == Read(m', c + 5);
    assert Read(m, c + 6) == Read(m', c + 6) && Read(m, c + 7) == Read(m', c + 7);
    var s := Read(m, c) * 256 + Read(m, c + 1);
    assert s in r && Read(m, s) == Read(m', s);
  }

  /** Writing two memories alike keeps them alike, and changes nothing else. */
  lemma ApplyWrites(m: Mem, m': Mem, ch: Channel, from: Mem, a: int)
    ensures a !in Writes(ch) ==> Read(Apply(m, Written(ch, from)), a) == Read(m, a)
    ensures Read(m, a) == Read(m', a) ==>
      Read(Apply(m, Written(ch, from)), a) == Read(Apply(m', Written(ch, from)), a)
  {
    var ws := Written(ch, from);
    if ws == [] {
      assert Apply(m, ws) == m && Apply(m', ws) == m';
    } else {
      var n := |ws| - 1;
      assert ws[..0] == [] && Apply(m, []) == m && Apply(m', []) == m';
      if n == 1 {
        assert ws[..1] == [ws[0]];
        assert [ws[0]][..0] == [];
      }
    }
  }

  // ----- one channel alone -----

  /** Channel `i` with the memory to itself; `xs[n]` are the inputs at tick n. */
  datatype Solo = Solo(ch: Channel, mem: Mem)

  function Alone(ch: Channel, mem: Mem, xs: seq<seq<Input>>, i: int, n: nat): Solo
    requires n <= |xs| && 0 <= i < 5 && forall t :: 0 <= t < |xs| ==> |xs[t]| == 5
  {
    if n == 0 then Solo(ch, mem)
    else
      var p := Alone(ch, mem, xs, i, n - 1);
      var c := Given(p.ch, xs[n - 1][i]);
      Solo(Stepped(c, p.mem), Apply(p.mem, Written(c, p.mem)))
  }

  /** Everything the channel reads, or writes, in its first `n` ticks alone. */
  function ReadAlone(ch: Channel, mem: Mem, xs: seq<seq<Input>>, i: int, n: nat): set<int>
    requires n <= |xs| && 0 <= i < 5 && forall t :: 0 <= t < |xs| ==> |xs[t]| == 5
  {
    if n == 0 then {}
    else
      var p := Alone(ch, mem, xs, i, n - 1);
      ReadAlone(ch, mem, xs, i, n - 1) + Reads(Given(p.ch, xs[n - 1][i]), p.mem)
  }

  function WrittenAlone(ch: Channel, mem: Mem, xs: seq<seq<Input>>, i: int, n: nat): set<int>
    requires n <= |xs| && 0 <= i < 5 && forall t :: 0 <= t < |xs| ==> |xs[t]| == 5
  {
    if n == 0 then {}
    else
      var p := Alone(ch, mem, xs, i, n - 1);
      WrittenAlone(ch, mem, xs, i, n - 1) + Writes(Given(p.ch, xs[n - 1][i]))
  }

  // ----- all of them together -----

  function Together(e: Engine, xs: seq<seq<Input>>, n: nat): (r: Engine)
    requires Five(e) && n <= |xs| && forall t :: 0 <= t < |xs| ==> |xs[t]| == 5
    ensures Five(r)
  {
    if n == 0 then e else Tick(Together(e, xs, n - 1), xs[n - 1])
  }

  /** A run: where it starts and its inputs. */
  datatype Setting = Setting(e: Engine, xs: seq<seq<Input>>)

  predicate Fits(w: Setting) { Five(w.e) && forall t :: 0 <= t < |w.xs| ==> |w.xs[t]| == 5 }

  function Own(w: Setting, i: int, n: nat): Solo
    requires Fits(w) && 0 <= i < 5 && n <= |w.xs|
  {
    Alone(w.e.ch[i], w.e.mem, w.xs, i, n)
  }

  function OwnReads(w: Setting, i: int): set<int>
    requires Fits(w) && 0 <= i < 5
  {
    ReadAlone(w.e.ch[i], w.e.mem, w.xs, i, |w.xs|)
  }

  function OwnWrites(w: Setting, i: int): set<int>
    requires Fits(w) && 0 <= i < 5
  {
    WrittenAlone(w.e.ch[i], w.e.mem, w.xs, i, |w.xs|)
  }

  /** Nobody else reads or writes what a channel writes. */
  ghost predicate Isolated(w: Setting) {
    Fits(w) && forall i, j :: 0 <= i < 5 && 0 <= j < 5 && i != j ==>
      OwnWrites(w, i) !! (OwnReads(w, j) + OwnWrites(w, j))
  }

  /** `a` is outside the destinations of all channels but `j`. */
  ghost predicate Foreign(w: Setting, j: int, a: int)
    requires Fits(w)
  {
    forall i :: 0 <= i < 5 && i != j ==> a !in OwnWrites(w, i)
  }

  /** Mid-tick: the channels below `k` have made step `n + 1`, the others have their inputs for it.
      Each channel is where it would be alone, and memory is as it would be alone, outside the
      destinations of the others. */
  ghost predicate InStep(w: Setting, n: nat, k: nat, e: Engine)
    requires Fits(w) && n < |w.xs|
  {
    && Five(e)
    && (forall i :: 0 <= i < 5 ==>
          e.ch[i] == if i < k then Own(w, i, n + 1).ch else Given(Own(w, i, n).ch, w.xs[n][i]))
    && forall j, a :: 0 <= j < 5 && Foreign(w, j, a) ==>
         Read(e.mem, a) == Read(Own(w, j, if j < k then n + 1 else n).mem, a)
  }

  lemma {:induction false} FootprintsGrow(ch: Channel, mem: Mem, xs: seq<seq<Input>>, i: int, n: nat, m: nat)
    requires n < m <= |xs| && 0 <= i < 5 && forall t :: 0 <= t < |xs| ==> |xs[t]| == 5
    ensures var p := Alone(ch, mem, xs, i, n); var c := Given(p.ch, xs[n][i]);
      Reads(c, p.mem) <= ReadAlone(ch, mem, xs, i, m) && Writes(c) <= WrittenAlone(ch, mem, xs, i, m)
  {
    hide Reads, Writes, Stepped, Written;
    if n + 1 < m {
      FootprintsGrow(ch, mem, xs, i, n, m - 1);
    }
  }

  /** Channel `k` makes its step as it would alone. */
  lemma StepStaysInStep(w: Setting, n: nat, k: nat, e: Engine)
    requires Isolated(w) && n < |w.xs| && k < 5 && InStep(w, n, k, e)
    ensures InStep(w, n, k + 1, StepChannel(e, k))
  {
    hide Reads, Writes, Stepped, Written, Apply, OwnReads, OwnWrites;
    var p := Own(w, k, n);
    var c := Given(p.ch, w.xs[n][k]);
    FootprintsGrow(w.e.ch[k], w.e.mem, w.xs, k, n, |w.xs|);
    OwnFootprints(w, k, n);
    forall a | a in Reads(c, p.mem)
      ensures Read(p.mem, a) == Read(e.mem, a)
    {
      assert Foreign(w, k, a);
    }
    StepDependsOnReads(c, p.mem, e.mem);
    var r := StepChannel(e, k);
    forall j, a | 0 <= j < 5 && Foreign(w, j, a)
      ensures Read(r.mem, a) == Read(Own(w, j, if j < k + 1 then n + 1 else n).mem, a)
    {
      ApplyWrites(e.mem, p.mem, c, e.mem, a);
    }
  }

  lemma OwnFootprints(w: Setting, k: int, n: nat)
    requires Fits(w) && 0 <= k < 5 && n < |w.xs|
    ensures var p := Own(w, k, n); var c := Given(p.ch, w.xs[n][k]);
      Reads(c, p.mem) <= OwnReads(w, k) && Writes(c) <= OwnWrites(w, k)
  {
    FootprintsGrow(w.e.ch[k], w.e.mem, w.xs, k, n, |w.xs|);
  }

  /** Between ticks: every channel is where it would be alone. */
  ghost predicate AsAlone(w: Setting, n: nat, e: Engine)
    requires Fits(w) && n <= |w.xs|
  {
    && Five(e)
    && (forall i :: 0 <= i < 5 ==> e.ch[i] == Own(w, i, n).ch)
    && forall j, a :: 0 <= j < 5 && Foreign(w, j, a) ==> Read(e.mem, a) == Read(Own(w, j, n).mem, a)
  }

  lemma {:induction false} StepsStayInStep(w: Setting, n: nat, e: Engine, k: nat)
    requires Isolated(w) && n < |w.xs| && k <= 5 && Five(e) && AsAlone(w, n, e)
    ensures InStep(w, n, k, StepChannels(GivenAll(e, w.xs[n]), k))
  {
    hide StepChannel, Own, Foreign;
    if k > 0 {
      StepsStayInStep(w, n, e, k - 1);
      StepStaysInStep(w, n, k - 1, StepChannels(GivenAll(e, w.xs[n]), k - 1));
    }
  }

  lemma StartsAlone(w: Setting)
    requires Fits(w)
    ensures AsAlone(w, 0, w.e)
  {
  }

  lemma TickDone(w: Setting, n: nat, e: Engine)
    requires Fits(w) && n < |w.xs| && InStep(w, n, 5, e)
    ensures AsAlone(w, n + 1, e)
  {
    hide Own, Foreign;
  }

  lemma {:induction false} TicksStayAsAlone(w: Setting, n: nat)
    requires Isolated(w) && n <= |w.xs|
    ensures AsAlone(w, n, Together(w.e, w.xs, n))
  {
    hide Own, Foreign, StepChannels, InStep;
    if n == 0 {
      StartsAlone(w);
    } else {
      var e := Together(w.e, w.xs, n - 1);
      TicksStayAsAlone(w, n - 1);
      StepsStayInStep(w, n - 1, e, 5);
      TickDone(w, n - 1, StepChannels(GivenAll(e, w.xs[n - 1]), 5));
    }
  }

  /** A channel alone leaves everything outside its destinations as it was. */
  lemma {:induction false} AloneKeeps(w: Setting, i: int, n: nat, a: int)
    requires Fits(w) && 0 <= i < 5 && n <= |w.xs| && a !in OwnWrites(w, i)
    ensures Read(Own(w, i, n).mem, a) == Read(w.e.mem, a)
  {
    hide Stepped, Written, Apply, Writes, OwnWrites;
    if n > 0 {
      AloneKeeps(w, i, n - 1, a);
      var p := Own(w, i, n - 1);
      OwnFootprints(w, i, n - 1);
      ApplyWrites(p.mem, p.mem, Given(p.ch, w.xs[n - 1][i]), p.mem, a);
    }
  }

  /** If nobody else reads or writes what a channel writes, then after every tick of the five
      channels together each channel is in the state it would be in alone, each destination holds
      what its channel would have put there alone, and the rest of the memory is untouched. */
  lemma NonInterference(w: Setting, n: nat)
    requires Isolated(w) && n <= |w.xs|
    ensures var e := Together(w.e, w.xs, n);
      && (forall i :: 0 <= i < 5 ==> e.ch[i] == Own(w, i, n).ch)
      && (forall i, a :: 0 <= i < 5 && a in OwnWrites(w, i) ==> Read(e.mem, a) == Read(Own(w, i, n).mem, a))
      && (forall a :: (forall i :: 0 <= i < 5 ==> a !in OwnWrites(w, i)) ==>
            Read(e.mem, a) == Read(w.e.mem, a))
  {
    hide OwnWrites, OwnReads, Own, Together;
    var e := Together(w.e, w.xs, n);
    TicksStayAsAlone(w, n);
    forall i, a | 0 <= i < 5 && a in OwnWrites(w, i)
      ensures Read(e.mem, a) == Read(Own(w, i, n).mem, a)
    {
      assert Foreign(w, i, a);
    }
    forall a | forall i :: 0 <= i < 5 ==> a !in OwnWrites(w, i)
      ensures Read(e.mem, a) == Read(w.e.mem, a)
    {
      assert Foreign(w, 0, a);
      AloneKeeps(w, 0, n, a);
    }
  }
}
