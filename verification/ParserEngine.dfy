/** The shift/reduce engine `yyparse` (cmd.src/cmdpars.cc:896-1423).

    `Run` is what the engine computes, as a function of the stack, the unread tokens and the
    store.  That it is well defined is the safety of the engine: under `Valid` every reduction
    finds its right-hand side on the stack with values of the right kind, and runs of
    reductions are well-founded.  The engine itself is in module `ParserLoop`. */
module ParserEngine {
  import opened ParserTables
  import opened ParserSemantics

  const YYINITDEPTH := 200
  const YYMAXDEPTH := 10000

  /** The state stack with the value stack beside it.  `Bottom` is state 0 and its wasted value. */
  datatype Stack = Bottom | Push(rest: Stack, state: State, val: Value)

  function Top(stk: Stack): State {
    match stk
    case Bottom => 0
    case Push(_, s, _) => s
  }

  function Depth(stk: Stack): (d: nat)
    ensures d >= 1
  {
    match stk
    case Bottom => 1
    case Push(r, _, _) => Depth(r) + 1
  }

  /** At least `k` (1 to 4) symbols lie above the bottom. */
  predicate Has(stk: Stack, k: int) {
    && stk.Push?
    && (k >= 2 ==> stk.rest.Push?)
    && (k >= 3 ==> stk.rest.rest.Push?)
    && (k >= 4 ==> stk.rest.rest.rest.Push?)
  }

  function Pop(stk: Stack, k: int): Stack
    requires 1 <= k <= 4 && Has(stk, k)
  {
    match k
    case 1 => stk.rest
    case 2 => stk.rest.rest
    case 3 => stk.rest.rest.rest
    case _ => stk.rest.rest.rest.rest
  }

  // ----- the invariant -----

  /** The transitions p -> t of the automaton. */
  predicate Edge(p: State, t: State) {
    match t
    case 0 => false
    case 1 => IsStart(p) case 2 => IsStart(p) case 3 => IsStart(p) case 6 => IsStart(p)
    case 4 => IsStart(p) || p == 3 case 5 => IsStart(p) || p == 3 case 7 => IsStart(p) || p == 3
    case 8 => IsStart(p) case 10 => IsStart(p) case 11 => IsStart(p) case 12 => IsStart(p)
    case 9 => p == 0 case 13 => p == 1 case 14 => p == 2 case 15 => p == 3 case 16 => p == 3
    case 17 => p == 4
    case 18 => IsOpen(p) case 19 => IsOpen(p)
    case 20 => IsOpen(p) || p == 27 || p == 28
    case 21 => IsOpen(p) || p == 27 || p == 28
    case 22 => p == 11 case 23 => p == 11 || p == 15 case 24 => p == 12
    case 25 => p == 14 case 34 => p == 26 case 35 => p == 0 case 36 => p == 35
    case _ => 17 <= p <= 24 && t == p + 9
  }

  /** The kind of value that belongs to a state, that is, to the symbol it was entered on. */
  predicate Typed(s: State, v: Value) {
    match s
    case 4 => v.MemObject?
    case 5 => v.Cell? case 11 => v.Cell? case 15 => v.Cell?
    case 7 => v.BitRef? case 12 => v.BitRef? case 16 => v.BitRef?
    case 6 => v.Number? case 8 => v.Number? case 9 => v.Number? case 10 => v.Number?
    case 13 => v.Number? case 14 => v.Number? case 26 => v.Number? case 27 => v.Number?
    case 28 => v.Number? case 29 => v.Number? case 30 => v.Number? case 31 => v.Number?
    case 32 => v.Number? case 33 => v.Number? case 35 => v.Number?
    case _ => true
  }

  predicate Valid(stk: Stack) {
    match stk
    case Bottom => true
    case Push(r, s, v) => Valid(r) && Edge(Top(r), s) && Typed(s, v)
  }

  // ----- the semantic actions -----

  /** The kinds of value that the action of a rule reads at `yyvsp[0]`, `yyvsp[-1]`, `yyvsp[-2]`
      and `yyvsp[-3]`. */
  predicate Ready(rule: int, v0: Value, v1: Value, v2: Value, v3: Value) {
    match rule
    case 2 => v0.Number? && v2.Cell?
    case 3 => v0.Number? && v2.BitRef?
    case 5 => v0.Number? && v2.Number?
    case 6 => v0.Number? && v2.Number?
    case 7 => v0.Number? && v2.Number?
    case 8 => v0.Number? && v2.Number?
    case 11 => v1.Number?
    case 13 => v0.Cell?
    case 14 => v0.BitRef?
    case 15 => v0.Cell?
    case 16 => v0.BitRef?
    case 17 => v0.Cell?
    case 18 => v1.Number? && v3.MemObject?
    case 19 => v0.BitRef?
    case 20 => v0.Number? && v2.Cell?
    case _ => v0.Number?
  }

  function Numbered(p: (int, Store)): (Value, Store) { (Number(p.0), p.1) }

  /** The action of a rule: the value it computes and what it does to the store.  A rule without
      a case keeps the default value, `yyvsp[1-yylen]`. */
  function Perform(rule: int, v0: Value, v1: Value, v2: Value, v3: Value, st: Store): (Value, Store)
    requires Ready(rule, v0, v1, v2, v3)
  {
    match rule
    case 1 => (v0, Show(st, Printed(v0.n)))
    case 2 => Numbered(StoreCell(st, v2.mem, v2.addr, v0.n))
    case 3 => Numbered(StoreBit(st, v2.mem, v2.addr, v2.mask, v0.n))
    case 5 => (Number(v2.n + v0.n), st)
    case 6 => (Number(v2.n - v0.n), st)
    case 7 => (Number(v2.n * v0.n), st)
    case 8 => Numbered(Divide(st, v2.n, v0.n))
    case 9 => (Number(-v0.n), st)
    case 11 => (v1, st)
    case 13 => (Number(LoadCell(st, v0.mem, v0.addr)), st)
    case 14 => (Number(LoadBit(st, v0.mem, v0.addr, v0.mask)), st)
    case 15 => (Number(v0.addr), st)
    case 16 => Numbered(BitAddressOf(st, v0.bitAddr))
    case 18 => (Cell(v3.mem, v1.n), st)
    case 20 => (SelectBit(st, v2.mem, v2.addr, v0.n), st)
    case _ => (v0, st)
  }

  /** The value `i` places below the top, or the wasted one. */
  function Val(stk: Stack, i: int): Value
    requires 0 <= i <= 3
  {
    if !Has(stk, i + 1) then NoValue
    else
      match i
      case 0 => stk.val
      case 1 => stk.rest.val
      case 2 => stk.rest.rest.val
      case _ => stk.rest.rest.rest.val
  }

  predicate Reducible(stk: Stack, rule: int) {
    && 1 <= rule <= 20
    && Has(stk, YyR2(rule))
    && Ready(rule, Val(stk, 0), Val(stk, 1), Val(stk, 2), Val(stk, 3))
  }

  function Result(rule: int, stk: Stack, st: Store): (Value, Store)
    requires Reducible(stk, rule)
  {
    Perform(rule, Val(stk, 0), Val(stk, 1), Val(stk, 2), Val(stk, 3), st)
  }

  /** The stack after a reduction: the right-hand side replaced by the result. */
  function Reduced(rule: int, stk: Stack, st: Store): Stack
    requires Reducible(stk, rule)
  {
    var below := Pop(stk, YyR2(rule));
    Push(below, Goto(Top(below), YyR1(rule)), Result(rule, stk, st).0)
  }

  /** Validity reaches down to every symbol of a right-hand side. */
  lemma ValidBelow(stk: Stack)
    requires Valid(stk)
    ensures stk.Push? ==> Valid(stk.rest)
    ensures stk.Push? && stk.rest.Push? ==> Valid(stk.rest.rest)
    ensures stk.Push? && stk.rest.Push? && stk.rest.rest.Push? ==> Valid(stk.rest.rest.rest)
  {
  }

  /** No underflow: the rule that a state reduces finds its whole right-hand side on both stacks,
      with values of the kinds that its action reads. */
  lemma ReductionFindsItsHandle(stk: Stack)
    requires Valid(stk) && YyDefact(Top(stk)) != 0
    ensures Reducible(stk, YyDefact(Top(stk)))
  {
    ValidBelow(stk);
  }

  /** An action yields the kind of value that belongs to its left-hand side. */
  lemma ActionsAreTyped(rule: int, stk: Stack, st: Store, below: State)
    requires Reducible(stk, rule)
    ensures Typed(Goto(below, YyR1(rule)), Result(rule, stk, st).0)
  {
  }

  /** The state uncovered by a reduction has a goto on the reduced symbol. */
  lemma UncoveredStateGoesOn(stk: Stack)
    requires Valid(stk) && YyDefact(Top(stk)) != 0
    requires Has(stk, YyR2(YyDefact(Top(stk))))
    ensures var rule := YyDefact(Top(stk));
      var below := Pop(stk, YyR2(rule));
      Valid(below) && Edge(Top(below), Goto(Top(below), YyR1(rule)))
  {
    ValidBelow(stk);
    var rule := YyDefact(Top(stk));
    var below := Pop(stk, YyR2(rule));
    if rule == 1 {
      assert Top(below) == 0;
    } else if rule < 17 {
      assert IsStart(Top(below));
    } else {
      assert IsStart(Top(below)) || Top(below) == 3;
    }
  }

  lemma ReductionKeepsValid(stk: Stack, st: Store)
    requires Valid(stk) && YyDefact(Top(stk)) != 0
    requires Reducible(stk, YyDefact(Top(stk)))
    ensures Valid(Reduced(YyDefact(Top(stk)), stk, st))
    ensures Top(Reduced(YyDefact(Top(stk)), stk, st)) != 36
  {
    var rule := YyDefact(Top(stk));
    UncoveredStateGoesOn(stk);
    ActionsAreTyped(rule, stk, st, Top(Pop(stk, YyR2(rule))));
  }

  function SymbolWeight(s: State): nat {
    match s
    case 35 => 1
    case 8 => 3 case 10 => 3 case 11 => 3 case 12 => 3 case 15 => 3 case 16 => 3
    case 9 => 2 case 13 => 2 case 14 => 2
    case 26 => 2 case 27 => 2 case 28 => 2 case 29 => 2 case 30 => 2 case 31 => 2
    case 32 => 2 case 33 => 2
    case _ => 4
  }

  /** A potential that every reduction lowers: a symbol weighs more than what it reduces to. */
  function Weight(stk: Stack): nat {
    match stk
    case Bottom => 0
    case Push(r, s, _) => Weight(r) + SymbolWeight(s)
  }

  /** Runs of reductions are well-founded. */
  lemma ReductionLowersWeight(stk: Stack, st: Store)
    requires Valid(stk) && YyDefact(Top(stk)) != 0
    requires Reducible(stk, YyDefact(Top(stk)))
    ensures Weight(Reduced(YyDefact(Top(stk)), stk, st)) < Weight(stk)
  {
    hide Perform;
    ValidBelow(stk);
    var k := YyR2(YyDefact(Top(stk)));
    assert k >= 2 ==> Weight(stk.rest) == Weight(stk.rest.rest) + SymbolWeight(stk.rest.state);
    assert k >= 3 ==> Weight(stk.rest.rest) >= Weight(stk.rest.rest.rest) + 1;
    assert k >= 4 ==> Weight(stk.rest.rest.rest) >= Weight(stk.rest.rest.rest.rest);
  }

  // ----- what the engine computes -----

  /** The return code of `yyparse` (0 accept, 1 reject, 2 stack overflow) and the final store. */
  datatype Outcome = Outcome(code: int, store: Store)

  function Head(input: seq<Token>): Token { if input == [] then Eof else input[0] }

  /** The lookahead as the tables know it. */
  function LookAhead(input: seq<Token>): (r: int)
    ensures 0 <= r <= 25
  {
    TokenNumber(Head(input))
  }

  /** A shifted token is dropped, except the end of input, which stays. */
  function Advance(input: seq<Token>): seq<Token> {
    if Head(input) == Eof then input else input[1..]
  }

  /** Shifts that can still come: each token once, and the end of input once. */
  function InputLeft(stk: Stack, input: seq<Token>): nat {
    2 * |input| + (if Top(stk) == 36 then 0 else 1)
  }

  function Run(stk: Stack, input: seq<Token>, st: Store): (o: Outcome)
    requires Valid(stk)
    ensures 0 <= o.code <= 2
    decreases InputLeft(stk, input), Weight(stk)
  {
    if Depth(stk) >= YYMAXDEPTH then Outcome(2, Show(st, StackOverflow))
    else
      match Act(Top(stk), LookAhead(input))
      case Error => Outcome(1, Show(st, SyntaxError))
      case Accept => Outcome(0, st)
      case Shift(t) =>
        ShiftKeepsValid(stk, Head(input));
        Run(Push(stk, t, TokenValue(Head(input))), Advance(input), st)
      case Reduce(rule) =>
        ReductionGoesOn(stk, st);
        Run(Reduced(rule, stk, st), input, Result(rule, stk, st).1)
  }

  /** What a reduction needs and keeps. */
  lemma ReductionGoesOn(stk: Stack, st: Store)
    requires Valid(stk)
    ensures var rule := YyDefact(Top(stk));
      rule != 0 ==>
        && Reducible(stk, rule) && Valid(Reduced(rule, stk, st)) && Top(Reduced(rule, stk, st)) != 36
        && Weight(Reduced(rule, stk, st)) < Weight(stk)
  {
    hide Perform, Valid, Edge, Typed, Weight, Ready;
    if YyDefact(Top(stk)) != 0 {
      ReductionFindsItsHandle(stk);
      ReductionKeepsValid(stk, st);
      ReductionLowersWeight(stk, st);
    }
  }

  lemma ShiftKeepsValid(stk: Stack, t: Token)
    requires Valid(stk) && Act(Top(stk), TokenNumber(t)).Shift?
    ensures var s := Act(Top(stk), TokenNumber(t)).state;
      && 0 <= s < 37
      && Valid(Push(stk, s, TokenValue(t)))
      && (s == 36 <==> t == Eof)
      && Top(stk) != 36
  {
    hide Edge, Typed, Act, Valid, TokenNumber, TokenValue;
    var p, n := Top(stk), TokenNumber(t);
    if IsStart(p) {
      StartShifts(p, n);
    } else if IsOpen(p) {
      OpenShifts(p, n);
    } else {
      OtherShifts(p, n);
    }
    ShiftedValue(Act(p, n).state, t);
    ValidPush(stk, Act(p, n).state, TokenValue(t));
  }

  lemma ValidPush(stk: Stack, s: State, v: Value)
    requires Valid(stk) && Edge(Top(stk), s) && Typed(s, v)
    ensures Valid(Push(stk, s, v))
  {
  }

  /** The state is entered on this token. */
  predicate EnteredOn(s: State, n: int) {
    match s
    case 1 => n == 4 case 2 => n == 8 case 3 => n == 13
    case 4 => n == 14 case 5 => n == 15 case 6 => n == 16 case 7 => n == 17
    case 17 => n == 10 case 18 => n == 3 case 19 => n == 4 case 20 => n == 5 case 21 => n == 6
    case 22 => n == 7 case 23 => n == 12 case 24 => n == 7 case 25 => n == 9
    case 34 => n == 11 case 36 => n == 0
    case _ => false
  }

  /** What a shift must be for the stack to stay valid. */
  predicate GoodShift(p: State, n: int) {
    var a := Act(p, n);
    a.Shift? ==> 0 <= a.state < 37 && Edge(p, a.state) && EnteredOn(a.state, n) && p != 36
  }

  lemma StartShifts(p: State, n: int)
    requires IsStart(p)
    ensures GoodShift(p, n)
  {
  }

  lemma OpenShifts(p: State, n: int)
    requires IsOpen(p)
    ensures GoodShift(p, n)
  {
  }

  lemma OtherShifts(p: State, n: int)
    requires !IsStart(p) && !IsOpen(p)
    ensures GoodShift(p, n)
  {
  }

  /** The value of a token fits the states that are entered on it. */
  lemma ShiftedValue(s: State, t: Token)
    requires EnteredOn(s, TokenNumber(t))
    ensures Typed(s, TokenValue(t)) && (s == 36 <==> t == Eof)
  {
  }

  // ----- the stack limit -----

  lemma ReductionLowersDepth(stk: Stack, rule: int, st: Store)
    requires Reducible(stk, rule)
    ensures Depth(Reduced(rule, stk, st)) <= Depth(stk)
  {
    hide Perform, Goto, Ready;
    assert Depth(stk) == Depth(stk.rest) + 1;
    if YyR2(rule) >= 3 {
      assert Depth(stk.rest) == Depth(stk.rest.rest) + 1;
    }
  }

  /** No rule has an empty right-hand side, so the stack never holds more symbols than tokens were
      read: input below the limit cannot overflow it. */
  lemma {:induction false} NoOverflow(stk: Stack, input: seq<Token>, st: Store)
    requires Valid(stk)
    requires Depth(stk) + |input| + (if Top(stk) == 36 then 0 else 1) < YYMAXDEPTH
    ensures Run(stk, input, st).code != 2
    decreases InputLeft(stk, input), Weight(stk)
  {
    hide Perform;
    match Act(Top(stk), LookAhead(input))
    case Error =>
    case Accept =>
    case Shift(t) =>
      ShiftKeepsValid(stk, Head(input));
      NoOverflow(Push(stk, t, TokenValue(Head(input))), Advance(input), st);
    case Reduce(rule) =>
      ReductionFindsItsHandle(stk);
      ReductionKeepsValid(stk, st);
      ReductionLowersWeight(stk, st);
      ReductionLowersDepth(stk, rule, st);
      NoOverflow(Reduced(rule, stk, st), input, Result(rule, stk, st).1);
  }

  lemma ReduceIsDefault(s: State, tok: int)
    requires Act(s, tok).Reduce?
    ensures s != 36 && YyDefact(s) != 0 && Act(s, tok).rule == YyDefact(s)
  {
  }
}
