/** `yyparse` as it runs (cmd.src/cmdpars.cc:896-1423): two growable arrays, a lookahead that is
    read only when a state needs it, and the packed tables.  `YyParse` computes `Run` on every
    token list. */
module ParserLoop {
  import opened ParserTables
  import opened ParserSemantics
  import opened ParserEngine

  /** The two arrays, up to the stack pointer, read as a stack. */
  function StackOf(ss: seq<State>, vs: seq<Value>): (stk: Stack)
    requires |ss| == |vs| >= 1
    ensures Depth(stk) == |ss|
    ensures |ss| > 1 ==> Top(stk) == ss[|ss| - 1]
  {
    var n := |ss| - 1;
    if n == 0 then Bottom else Push(StackOf(ss[..n], vs[..n]), ss[n], vs[n])
  }

  lemma StackOfPrefix(ss: seq<State>, vs: seq<Value>, k: int)
    requires |ss| == |vs| && 1 <= k <= 4 && k < |ss|
    ensures Has(StackOf(ss, vs), k)
    ensures Pop(StackOf(ss, vs), k) == StackOf(ss[..|ss| - k], vs[..|ss| - k])
  {
    var n := |ss|;
    if k >= 2 {
      assert ss[..n - 1][..n - 2] == ss[..n - 2] && vs[..n - 1][..n - 2] == vs[..n - 2];
      StackOfRest(ss[..n - 1], vs[..n - 1]);
    }
    if k >= 3 {
      assert ss[..n - 2][..n - 3] == ss[..n - 3] && vs[..n - 2][..n - 3] == vs[..n - 3];
      StackOfRest(ss[..n - 2], vs[..n - 2]);
    }
    if k >= 4 {
      assert ss[..n - 3][..n - 4] == ss[..n - 4] && vs[..n - 3][..n - 4] == vs[..n - 4];
      StackOfRest(ss[..n - 3], vs[..n - 3]);
    }
  }

  lemma StackOfRest(ss: seq<State>, vs: seq<Value>)
    requires |ss| == |vs| >= 2
    ensures StackOf(ss, vs).Push?
    ensures StackOf(ss, vs).rest == StackOf(ss[..|ss| - 1], vs[..|ss| - 1])
  {
  }

  lemma StackOfValue(ss: seq<State>, vs: seq<Value>, i: int)
    requires |ss| == |vs| >= 1 && 0 <= i <= 3
    ensures Val(StackOf(ss, vs), i) == if i < |ss| - 1 then vs[|ss| - 1 - i] else NoValue
  {
    if i + 1 < |ss| {
      StackOfPrefix(ss, vs, i + 1);
      if i > 0 { StackOfPrefix(ss, vs, i); }
    } else {
      DeepEnough(StackOf(ss, vs), i + 1);
    }
  }

  lemma DeepEnough(stk: Stack, k: int)
    requires 1 <= k <= 4
    ensures Has(stk, k) ==> Depth(stk) > k
  {
    if Has(stk, k) {
      assert Depth(stk) == Depth(stk.rest) + 1;
      assert k >= 2 ==> Depth(stk.rest) == Depth(stk.rest.rest) + 1;
      assert k >= 3 ==> Depth(stk.rest.rest) == Depth(stk.rest.rest.rest) + 1;
    }
  }

  lemma RuleRanges(rule: int)
    requires 1 <= rule <= 20
    ensures YYNTBASE <= YyR1(rule) <= 24 && 1 <= YyR2(rule) <= 4
  {
  }

  const YYEMPTY := -2

  /** One run of `yyparse`: the stacks, the lookahead and the store it works on. */
  class Engine {
    var yyss: array<State>
    var yyvs: array<Value>
    var ssp: nat
    var input: seq<Token>
    var pos: nat
    var yychar: int
    var yylval: Token
    var store: Store
    ghost var unread: seq<Token>

    /** Between two turns of the loop there is room for one more symbol. */
    ghost predicate Inv()
      reads this, yyss, yyvs
    {
      Shaped() && ssp < yyss.Length - 1
    }

    ghost predicate Shaped()
      reads this, yyss, yyvs
    {
      && yyss.Length == yyvs.Length
      && YYINITDEPTH <= yyss.Length <= YYMAXDEPTH
      && ssp < yyss.Length
      && yyss[0] == 0 && yyvs[0] == NoValue
      && pos <= |input|
      && (yychar == YYEMPTY ==> unread == input[pos..])
      && (yychar != YYEMPTY ==>
            && Head(unread) == yylval
            && yychar == ExternalCode(yylval)
            && (yylval != Eof ==> unread[1..] == input[pos..]))
    }

    ghost function Stk(): Stack
      requires Shaped()
      reads this, yyss, yyvs
    {
      StackOf(yyss[..ssp + 1], yyvs[..ssp + 1])
    }

    /** An empty stack (state 0 over a wasted value) and no lookahead yet. */
    constructor (input: seq<Token>, st: Store)
      ensures Inv() && fresh(yyss) && fresh(yyvs)
      ensures Stk() == Bottom && unread == input && store == st
    {
      yyss := new State[YYINITDEPTH](_ => 0);
      yyvs := new Value[YYINITDEPTH](_ => NoValue);
      ssp := 0;
      this.input, pos := input, 0;
      yychar, yylval := YYEMPTY, Eof;
      store := st;
      unread := input;
    }

    /** `YYLEX`, when a lookahead is needed and none is held. */
    method FillLookAhead()
      requires Inv()
      modifies `yychar, `yylval, `pos
      ensures Inv() && yychar != YYEMPTY
      ensures yychar == ExternalCode(Head(unread))
    {
      if yychar == YYEMPTY {
        yylval := if pos < |input| then input[pos] else Eof;
        pos := if pos < |input| then pos + 1 else pos;
        yychar := ExternalCode(yylval);
      }
    }

    /** `yybackup` and `yydefault`: what to do, from the packed tables.  The lookahead is read only
        if the state needs one. */
    method NextAction() returns (act: Action)
      requires Inv()
      modifies `yychar, `yylval, `pos
      ensures Inv() && act == Act(Top(Stk()), LookAhead(unread))
      ensures act.Shift? ==> yychar != YYEMPTY
    {
      hide Act, YyPact, YyTable, YyCheck, YyDefact;
      var yystate := yyss[ssp];
      TopOfStack();
      TablesDecode(yystate, LookAhead(unread));
      var yyn := YyPact(yystate);
      if yyn != YYFLAG {
        FillLookAhead();
        var yychar1 := Translate(yychar);
        yyn := yyn + yychar1;
        if 0 <= yyn <= YYLAST && YyCheck(yyn) == yychar1 {
          yyn := YyTable(yyn);
          if yyn < 0 {
            return if yyn == YYFLAG then Error else Reduce(-yyn);
          } else if yyn == 0 {
            return Error;
          } else if yyn == YYFINAL {
            return Accept;
          } else {
            return Shift(yyn);
          }
        }
      }
      yyn := YyDefact(yystate);
      act := if yyn == 0 then Error else Reduce(yyn);
    }

    lemma TopOfStack()
      requires Inv()
      ensures Top(Stk()) == yyss[ssp]
    {
    }

    /** Push a value and the state that evens the stacks; at the end of the arrays, double them up
        to `YYMAXDEPTH`.  Fails, as the parser does, when no larger array is allowed. */
    method NewState(s: State, v: Value) returns (ok: bool)
      requires Inv()
      modifies this`yyss, this`yyvs, this`ssp, yyss, yyvs
      ensures yyss == old(yyss) || fresh(yyss)
      ensures yyvs == old(yyvs) || fresh(yyvs)
      ensures ok <==> old(Depth(Stk())) + 1 < YYMAXDEPTH
      ensures ok ==> Inv() && Stk() == Push(old(Stk()), s, v)
    {
      PutTop(s, v);
      ok := true;
      if ssp >= yyss.Length - 1 {
        if yyss.Length >= YYMAXDEPTH {
          return false;
        }
        ghost var ss, vs := yyss[..ssp + 1], yyvs[..ssp + 1];
        Grow();
        assert yyss[..ssp + 1] == ss && yyvs[..ssp + 1] == vs;
        if ssp >= yyss.Length - 1 {
          assert false;
        }
      }
    }

    method PutTop(s: State, v: Value)
      requires Inv()
      modifies this`ssp, yyss, yyvs
      ensures Shaped() && ssp == old(ssp) + 1
      ensures Stk() == Push(old(Stk()), s, v)
    {
      ssp := ssp + 1;
      yyvs[ssp] := v;
      yyss[ssp] := s;
      assert yyss[..ssp + 1][..ssp] == old(yyss[..ssp + 1]);
      assert yyvs[..ssp + 1][..ssp] == old(yyvs[..ssp + 1]);
    }

    /** Copy both stacks into arrays of twice the size, at most `YYMAXDEPTH`. */
    method Grow()
      requires yyss.Length == yyvs.Length && YYINITDEPTH <= yyss.Length < YYMAXDEPTH
      modifies `yyss, `yyvs
      ensures fresh(yyss) && fresh(yyvs)
      ensures yyss.Length == yyvs.Length && old(yyss.Length) < yyss.Length <= YYMAXDEPTH
      ensures yyss[..old(yyss.Length)] == old(yyss[..]) && yyvs[..old(yyss.Length)] == old(yyvs[..])
    {
      var size := yyss.Length;
      var yystacksize := size * 2;
      if yystacksize > YYMAXDEPTH {
        yystacksize := YYMAXDEPTH;
      }
      var newSs := new State[yystacksize](_ => 0);
      var newVs := new Value[yystacksize](_ => NoValue);
      forall i | 0 <= i < size {
        newSs[i] := yyss[i];
      }
      forall i | 0 <= i < size {
        newVs[i] := yyvs[i];
      }
      yyss, yyvs := newSs, newVs;
    }

    /** Shift the lookahead; the end of input is not consumed. */
    method ShiftLookAhead(s: State) returns (ok: bool)
      requires Inv() && yychar != YYEMPTY
      modifies this, yyss, yyvs
      ensures yyss == old(yyss) || fresh(yyss)
      ensures yyvs == old(yyvs) || fresh(yyvs)
      ensures ok <==> old(Depth(Stk())) + 1 < YYMAXDEPTH
      ensures ok ==> Inv() && Stk() == old(Push(Stk(), s, TokenValue(Head(unread))))
      ensures unread == old(Advance(unread)) && store == old(store)
    {
      var v := TokenValue(yylval);
      if yychar != 0 {
        yychar := YYEMPTY;
        unread := unread[1..];
      }
      ok := NewState(s, v);
    }

    /** `yyreduce`: run the action, pop the right-hand side, push the result. */
    method ReduceRule(yyn: int) returns (ok: bool)
      requires Inv() && Valid(Stk()) && Reducible(Stk(), yyn)
      modifies this, yyss, yyvs
      ensures yyss == old(yyss) || fresh(yyss)
      ensures yyvs == old(yyvs) || fresh(yyvs)
      ensures ok <==> old(Depth(Reduced(yyn, Stk(), store))) < YYMAXDEPTH
      ensures ok ==> Inv() && Stk() == old(Reduced(yyn, Stk(), store))
      ensures unread == old(unread) && store == old(Result(yyn, Stk(), store).1)
    {
      hide Ready, Perform, Edge, Typed, Has, Pop, YyR1, YyR2, Goto, StackOf;
      RuleRanges(yyn);
      ghost var stk := Stk();
      var yylen := YyR2(yyn);
      var (yyval, st1) := Perform(yyn, ValueAt(0), ValueAt(1), ValueAt(2), ValueAt(3), store);
      store := st1;
      DropHandle(yylen);
      var yystate := GotoState(YyR1(yyn));
      ok := NewState(yystate, yyval);
    }

    method DropHandle(k: int)
      requires Inv() && 1 <= k <= 4 && Has(Stk(), k)
      modifies `ssp
      ensures Inv() && Stk() == old(Pop(Stk(), k))
    {
      HandleFits(k);
      ssp := ssp - k;
    }

    /** The goto of the uncovered state, from the packed tables. */
    method GotoState(x: int) returns (yystate: State)
      requires Inv() && YYNTBASE <= x <= 24
      ensures yystate == Goto(Top(Stk()), x)
    {
      hide YyPgoto, YyTable, YyCheck, YyDefgoto, Goto;
      GotosDecode(yyss[ssp], x);
      TopOfStack();
      var n := YyPgoto(x - YYNTBASE) + yyss[ssp];
      yystate := if 0 <= n <= YYLAST && YyCheck(n) == yyss[ssp] then YyTable(n)
                 else YyDefgoto(x - YYNTBASE);
    }

    /** `yyvsp[-i]`. */
    function ValueAt(i: int): (v: Value)
      requires Inv() && 0 <= i <= 3
      reads this, yyss, yyvs
      ensures v == Val(Stk(), i)
    {
      StackOfValue(yyss[..ssp + 1], yyvs[..ssp + 1], i);
      if i < ssp then yyvs[ssp - i] else NoValue
    }

    lemma HandleFits(k: int)
      requires Inv() && 1 <= k <= 4 && Has(Stk(), k)
      ensures k <= ssp
      ensures Pop(Stk(), k) == StackOf(yyss[..ssp + 1 - k], yyvs[..ssp + 1 - k])
    {
      DeepEnough(Stk(), k);
      StackOfPrefix(yyss[..ssp + 1], yyvs[..ssp + 1], k);
      assert yyss[..ssp + 1][..ssp + 1 - k] == yyss[..ssp + 1 - k];
      assert yyvs[..ssp + 1][..ssp + 1 - k] == yyvs[..ssp + 1 - k];
    }

    /** `yyerrlab` to `yyerrpop`: no state takes the error token, so all of them are popped. */
    method Recover() returns (code: int)
      requires Inv()
      modifies `ssp, `store
      ensures code == 1 && ssp == 0
      ensures store == Show(old(store), SyntaxError)
    {
      store := Show(store, SyntaxError);
      while true
        invariant ssp < yyss.Length
        invariant store == Show(old(store), SyntaxError)
        decreases ssp
      {
        var yyn := YyPact(yyss[ssp]);
        NoErrorShift(yyss[ssp]);
        if yyn != YYFLAG && 0 <= yyn + YYTERROR <= YYLAST && YyCheck(yyn + YYTERROR) == YYTERROR {
          assert false;
        }
        if ssp == 0 {
          return 1;
        }
        ssp := ssp - 1;
      }
    }

    /** One turn of the loop: either the run is over, or its outcome is that of a configuration
        that is smaller in the order of `Run`. */
    method Step() returns (done: bool, code: int)
      requires Inv() && Valid(Stk())
      modifies this, yyss, yyvs
      ensures yyss == old(yyss) || fresh(yyss)
      ensures yyvs == old(yyvs) || fresh(yyvs)
      ensures done ==> Outcome(code, store) == old(Run(Stk(), unread, store))
      ensures !done ==>
        && Inv() && Valid(Stk())
        && Run(Stk(), unread, store) == old(Run(Stk(), unread, store))
        && (InputLeft(Stk(), unread) < old(InputLeft(Stk(), unread)) ||
            (InputLeft(Stk(), unread) == old(InputLeft(Stk(), unread)) && Weight(Stk()) < old(Weight(Stk()))))
    {
      hide Act, Perform, Ready, Goto, Edge, Typed, YyDefact, YyR1, YyR2;
      ghost var stk := Stk();
      var act := NextAction();
      var ok := true;
      match act {
        case Error =>
          code := Recover();
          return true, code;
        case Accept =>
          return true, 0;
        case Shift(t) =>
          ShiftKeepsValid(stk, Head(unread));
          ok := ShiftLookAhead(t);
        case Reduce(rule) =>
          ReduceIsDefault(Top(stk), LookAhead(unread));
          ReductionFindsItsHandle(stk);
          ReductionKeepsValid(stk, store);
          ReductionLowersWeight(stk, store);
          ok := ReduceRule(rule);
      }
      if !ok {
        store := Show(store, StackOverflow);
        return true, 2;
      }
      done, code := false, 0;
    }
  }

  /** `yyparse` on any token list computes `Run`, and so returns. */
  method YyParse(input: seq<Token>, st: Store) returns (code: int, final: Store)
    ensures Outcome(code, final) == Run(Bottom, input, st)
  {
    hide Run;
    var e := new Engine(input, st);
    var done := false;
    code := 0;
    while !done
      invariant fresh(e) && fresh(e.yyss) && fresh(e.yyvs)
      invariant done ==> Outcome(code, e.store) == Run(Bottom, input, st)
      invariant !done ==> e.Inv() && Valid(e.Stk())
      invariant !done ==> Run(e.Stk(), e.unread, e.store) == Run(Bottom, input, st)
      decreases !done, if done then 0 else InputLeft(e.Stk(), e.unread), if done then 0 else Weight(e.Stk())
    {
      done, code := e.Step();
    }
    final := e.store;
  }
}
