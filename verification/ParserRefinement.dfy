/** The engine and the recursive-descent parser read every token list alike, and the engine's
    value stack and store follow the evaluation of the tree. */
module ParserRefinement {
  import opened ParserTables
  import opened ParserSemantics
  import opened ParserEngine
  import opened ConsoleGrammar
  import opened ConsoleReading

  datatype Config = Config(stk: Stack, input: seq<Token>, st: Store)

  function Go(c: Config): Outcome
    requires Valid(c.stk)
  {
    Run(c.stk, c.input, c.st)
  }

  /** Unless the stack overflows, the two configurations have the same outcome. */
  ghost predicate Becomes(c: Config, d: Config) {
    Valid(c.stk) && Valid(d.stk) && (Go(c).code == 2 || Go(c) == Go(d))
  }

  lemma ShiftTo(c: Config, t: int)
    requires Valid(c.stk) && Act(Top(c.stk), LookAhead(c.input)) == Shift(t)
    ensures 0 <= t < 37
    ensures Becomes(c, Config(Push(c.stk, t, TokenValue(Head(c.input))), Advance(c.input), c.st))
  {
    ShiftKeepsValid(c.stk, Head(c.input));
  }

  lemma ReduceBy(c: Config, rule: int)
    requires Valid(c.stk) && Act(Top(c.stk), LookAhead(c.input)) == Reduce(rule)
    ensures Reducible(c.stk, rule)
    ensures Becomes(c, Config(Reduced(rule, c.stk, c.st), c.input, Result(rule, c.stk, c.st).1))
  {
    hide Perform;
    ReductionFindsItsHandle(c.stk);
    ReductionKeepsValid(c.stk, c.st);
  }

  /** The text is rejected after the phrases in `done` have had their effects. */
  ghost predicate Rejected(c: Config, done: Done)
    requires Valid(c.stk)
  {
    Go(c).code == 2 || Go(c) == Outcome(1, Show(Effects(done, c.st), SyntaxError))
  }

  lemma Rejects(c: Config)
    requires Valid(c.stk) && Act(Top(c.stk), LookAhead(c.input)) == Error
    ensures Rejected(c, Nothing)
  {
  }

  /** The configuration after an expression with value `v` has been read on top of `stk`. */
  function AfterExpr(stk: Stack, v: int, rest: seq<Token>, st: Store): (c: Config)
    requires Valid(stk) && IsStart(Top(stk))
    ensures Valid(c.stk)
  {
    Config(Push(stk, Goto(Top(stk), 21), Number(v)), rest, st)
  }

  /** The configuration after a cell (symbol 23) or a bit (symbol 24). */
  function AfterPlace(stk: Stack, v: Value, rest: seq<Token>, st: Store): (c: Config)
    requires Valid(stk) && TakesPlaces(Top(stk)) && IsPlace(v)
    ensures Valid(c.stk)
  {
    Config(Push(stk, Goto(Top(stk), if v.Cell? then 23 else 24), v), rest, st)
  }

  /** Start states after which * and / (and, at the lowest level, + and -) go on. */
  predicate TakesFactors(s: State) { IsStart(s) && s != 1 && s != 20 && s != 21 }
  predicate TakesTerms(s: State) { TakesFactors(s) && s != 18 && s != 19 }

  predicate TakesPlaces(s: State) { IsStart(s) || s == 3 }

  predicate IsPlace(v: Value) { v.Cell? || v.BitRef? }

  // ----- fragments of runs: what the engine does once the parts of a phrase are on the stack -----

  lemma NumberRead(c: Config)
    requires Valid(c.stk) && IsStart(Top(c.stk)) && Head(c.input).NumberTok?
    ensures Becomes(c, AfterExpr(c.stk, c.input[0].n, c.input[1..], c.st))
  {
    hide Run, Edge, Typed, Valid, OnWords, Mask, Quotient;
    ShiftTo(c, 6);
    ReduceBy(Config(Push(c.stk, 6, TokenValue(c.input[0])), c.input[1..], c.st), 12);
  }

  lemma CellRead(c: Config)
    requires Valid(c.stk) && TakesPlaces(Top(c.stk)) && Head(c.input).MemoryTok?
    ensures Becomes(c, AfterPlace(c.stk, TokenValue(c.input[0]), c.input[1..], c.st))
  {
    hide Run, Edge, Typed, Valid, OnWords, Mask, Quotient;
    ShiftTo(c, 5);
    ReduceBy(Config(Push(c.stk, 5, TokenValue(c.input[0])), c.input[1..], c.st), 17);
  }

  lemma BitRead(c: Config)
    requires Valid(c.stk) && TakesPlaces(Top(c.stk)) && Head(c.input).BitTok?
    ensures Becomes(c, AfterPlace(c.stk, TokenValue(c.input[0]), c.input[1..], c.st))
  {
    hide Run, Edge, Typed, Valid, OnWords, Mask, Quotient;
    ShiftTo(c, 7);
    ReduceBy(Config(Push(c.stk, 7, TokenValue(c.input[0])), c.input[1..], c.st), 19);
  }

  /** The stack after a prefix `-`, `(` or `&`. */
  function Opened(stk: Stack, t: Token): (r: Stack)
    requires Valid(stk) && IsStart(Top(stk))
    ensures Valid(r)
  {
    Push(stk, if t == Minus then 1 else if t == LParen then 2 else 3, NoValue)
  }

  lemma PrefixShifted(c: Config)
    requires Valid(c.stk) && IsStart(Top(c.stk)) && Head(c.input) in {Minus, LParen, Amp}
    ensures Becomes(c, Config(Opened(c.stk, c.input[0]), c.input[1..], c.st))
  {
    hide Run, Edge, Typed, Valid, OnWords, Mask, Quotient;
    ShiftTo(c, Opened(c.stk, c.input[0]).state);
  }

  /** The stack after `mem[`. */
  function BeforeIndex(stk: Stack, mem: int): (r: Stack)
    requires Valid(stk) && TakesPlaces(Top(stk))
    ensures Valid(r)
  {
    Push(Push(stk, 4, MemObject(mem)), 17, NoValue)
  }

  lemma IndexOpened(c: Config)
    requires Valid(c.stk) && TakesPlaces(Top(c.stk)) && Head(c.input).MemObjectTok?
    ensures if Head(c.input[1..]) == LBracket
            then Becomes(c, Config(BeforeIndex(c.stk, c.input[0].mem), c.input[2..], c.st))
            else Rejected(c, Nothing)
  {
    hide Run, Edge, Typed, Valid, OnWords, Mask, Quotient;
    ShiftTo(c, 4);
    var c1 := Config(Push(c.stk, 4, MemObject(c.input[0].mem)), c.input[1..], c.st);
    if Head(c1.input) == LBracket {
      ShiftTo(c1, 17);
      assert c1.input[1..] == c.input[2..];
    } else {
      Rejects(c1);
    }
  }

  /** The stack after a cell and the `.` behind it. */
  function BeforeBit(stk: Stack, v: Value): (r: Stack)
    requires Valid(stk) && TakesPlaces(Top(stk)) && v.Cell?
    ensures Valid(r)
  {
    assert Valid(Push(stk, Goto(Top(stk), 23), v));
    Push(Push(stk, Goto(Top(stk), 23), v), 23, NoValue)
  }

  lemma DotShifted(stk: Stack, v: Value, rest: seq<Token>, st: Store)
    requires Valid(stk) && TakesPlaces(Top(stk)) && v.Cell? && Head(rest) == Dot
    ensures Becomes(AfterPlace(stk, v, rest, st), Config(BeforeBit(stk, v), rest[1..], st))
  {
    hide Run, Edge, Typed, Valid, OnWords, Mask, Quotient;
    ShiftTo(AfterPlace(stk, v, rest, st), 23);
  }

  lemma EqualShifted(stk: Stack, v: Value, rest: seq<Token>, st: Store)
    requires Valid(stk) && IsStart(Top(stk)) && IsPlace(v) && Head(rest) == Equal
    ensures Becomes(AfterPlace(stk, v, rest, st), Config(BeforeSource(stk, v), rest[1..], st))
  {
    hide Run, Edge, Typed, Valid, OnWords, Mask, Quotient;
    ShiftTo(AfterPlace(stk, v, rest, st), if v.Cell? then 22 else 24);
  }

  /** A bracket that is not closed is a syntax error. */
  lemma Unclosed(stk: Stack, v: int, rest: seq<Token>, st: Store)
    requires Valid(stk) && !IsOp(Head(rest))
    requires (Top(stk) == 2 && Head(rest) != RParen) || (Top(stk) == 17 && Head(rest) != RBracket)
    ensures Rejected(AfterExpr(stk, v, rest, st), Nothing)
  {
    hide Run, Edge, Typed, Valid, OnWords, Mask, Quotient;
    Rejects(AfterExpr(stk, v, rest, st));
  }

  lemma Negated(stk: Stack, v: int, rest: seq<Token>, st: Store)
    requires Valid(stk) && IsStart(Top(stk))
    ensures Becomes(AfterExpr(Opened(stk, Minus), v, rest, st), AfterExpr(stk, -v, rest, st))
  {
    hide Run, Edge, Typed, Valid, OnWords, Mask, Quotient;
    var c := Config(Push(Push(stk, 1, NoValue), 13, Number(v)), rest, st);
    assert c == AfterExpr(Opened(stk, Minus), v, rest, st);
    ReduceBy(c, 9);
  }

  lemma Parenthesised(stk: Stack, v: int, rest: seq<Token>, st: Store)
    requires Valid(stk) && IsStart(Top(stk)) && Head(rest) == RParen
    ensures Becomes(AfterExpr(Opened(stk, LParen), v, rest, st), AfterExpr(stk, v, rest[1..], st))
  {
    hide Run, Edge, Typed, Valid, OnWords, Mask, Quotient;
    var c := AfterExpr(Opened(stk, LParen), v, rest, st);
    ShiftTo(c, 25);
    ReduceBy(Config(Push(c.stk, 25, NoValue), rest[1..], st), 11);
  }

  lemma IndexRead(stk: Stack, mem: int, v: int, rest: seq<Token>, st: Store)
    requires Valid(stk) && TakesPlaces(Top(stk)) && Head(rest) == RBracket
    ensures Becomes(AfterExpr(BeforeIndex(stk, mem), v, rest, st),
                    AfterPlace(stk, Cell(mem, v), rest[1..], st))
  {
    hide Run, Edge, Typed, Valid, OnWords, Mask, Quotient, Perform, Goto, Reduced, Reducible;
    var c := AfterExpr(BeforeIndex(stk, mem), v, rest, st);
    BracketCloses(stk, mem, v, rest, st);
    var stk1 := Push(c.stk, 34, NoValue);
    ReduceBy(Config(stk1, rest[1..], st), 18);
    IndexReduced(stk, mem, v, st);
  }

  lemma BracketCloses(stk: Stack, mem: int, v: int, rest: seq<Token>, st: Store)
    requires Valid(stk) && TakesPlaces(Top(stk)) && Head(rest) == RBracket
    ensures var c := AfterExpr(BeforeIndex(stk, mem), v, rest, st);
      && Becomes(c, Config(Push(c.stk, 34, NoValue), rest[1..], st))
      && Act(34, LookAhead(rest[1..])) == Reduce(18)
  {
    hide Run, Edge, Typed, Valid, OnWords, Mask, Quotient;
    ShiftTo(AfterExpr(BeforeIndex(stk, mem), v, rest, st), 34);
  }

  lemma IndexReduced(stk: Stack, mem: int, v: int, st: Store)
    requires Valid(stk) && TakesPlaces(Top(stk))
    ensures var stk1 := Push(Push(BeforeIndex(stk, mem), Goto(17, 21), Number(v)), 34, NoValue);
      && Reducible(stk1, 18) && Result(18, stk1, st) == (Cell(mem, v), st)
      && Reduced(18, stk1, st) == Push(stk, Goto(Top(stk), 23), Cell(mem, v))
  {
    hide Valid, Goto, Edge, Typed;
  }

  lemma BitSelected(stk: Stack, v: Value, n: int, rest: seq<Token>, st: Store)
    requires Valid(stk) && TakesPlaces(Top(stk)) && v.Cell? && !IsOp(Head(rest))
    ensures Becomes(AfterExpr(BeforeBit(stk, v), n, rest, st),
                    AfterPlace(stk, SelectBit(st, v.mem, v.addr, n), rest, st))
  {
    hide Run, Edge, Typed, Valid, OnWords, Mask, Quotient;
    ReduceBy(AfterExpr(BeforeBit(stk, v), n, rest, st), 20);
  }

  function AddressResult(v: Value, st: Store): (int, Store)
    requires IsPlace(v)
  {
    if v.Cell? then (v.addr, st) else BitAddressOf(st, v.bitAddr)
  }

  lemma AddressTaken(stk: Stack, v: Value, rest: seq<Token>, st: Store)
    requires Valid(stk) && IsStart(Top(stk)) && IsPlace(v)
    requires v.Cell? ==> Head(rest) != Dot
    ensures var (n, st1) := AddressResult(v, st);
      Becomes(AfterPlace(Opened(stk, Amp), v, rest, st), AfterExpr(stk, n, rest, st1))
  {
    hide Run, Edge, Typed, Valid, OnWords, Mask, Quotient;
    var c := AfterPlace(Opened(stk, Amp), v, rest, st);
    var (n, st1) := AddressResult(v, st);
    ReduceBy(c, if v.Cell? then 15 else 16);
    ReduceBy(Config(Push(stk, 10, Number(n)), rest, st1), 10);
  }

  function LoadResult(v: Value, st: Store): int
    requires IsPlace(v)
  {
    if v.Cell? then LoadCell(st, v.mem, v.addr) else LoadBit(st, v.mem, v.addr, v.mask)
  }

  lemma Loaded(stk: Stack, v: Value, rest: seq<Token>, st: Store)
    requires Valid(stk) && IsStart(Top(stk)) && IsPlace(v)
    requires Head(rest) != Equal && (v.Cell? ==> Head(rest) != Dot)
    ensures Becomes(AfterPlace(stk, v, rest, st), AfterExpr(stk, LoadResult(v, st), rest, st))
  {
    hide Run, Edge, Typed, Valid, OnWords, Mask, Quotient;
    ReduceBy(AfterPlace(stk, v, rest, st), if v.Cell? then 13 else 14);
  }

  function StoreResult(v: Value, n: int, st: Store): (int, Store)
    requires IsPlace(v)
  {
    if v.Cell? then StoreCell(st, v.mem, v.addr, n) else StoreBit(st, v.mem, v.addr, v.mask, n)
  }

  /** The stack after a place and the `=` behind it. */
  function BeforeSource(stk: Stack, v: Value): (r: Stack)
    requires Valid(stk) && IsStart(Top(stk)) && IsPlace(v)
    ensures Valid(r)
  {
    assert Valid(Push(stk, Goto(Top(stk), if v.Cell? then 23 else 24), v));
    Push(Push(stk, Goto(Top(stk), if v.Cell? then 23 else 24), v), if v.Cell? then 22 else 24, NoValue)
  }

  lemma CellAssigned(stk: Stack, v: Value, n: int, rest: seq<Token>, st: Store)
    requires Valid(stk) && IsStart(Top(stk)) && v.Cell? && !IsOp(Head(rest))
    ensures var (k, st1) := StoreCell(st, v.mem, v.addr, n);
      Becomes(AfterExpr(BeforeSource(stk, v), n, rest, st), Config(Push(stk, 8, Number(k)), rest, st1))
  {
    hide Run, Edge, Typed, Valid, OnWords, Mask, Quotient;
    ReduceBy(AfterExpr(BeforeSource(stk, v), n, rest, st), 2);
  }

  lemma BitAssigned(stk: Stack, v: Value, n: int, rest: seq<Token>, st: Store)
    requires Valid(stk) && IsStart(Top(stk)) && v.BitRef? && !IsOp(Head(rest))
    ensures var (k, st1) := StoreBit(st, v.mem, v.addr, v.mask, n);
      Becomes(AfterExpr(BeforeSource(stk, v), n, rest, st), Config(Push(stk, 8, Number(k)), rest, st1))
  {
    hide Run, Edge, Typed, Valid, OnWords, Mask, Quotient;
    ReduceBy(AfterExpr(BeforeSource(stk, v), n, rest, st), 3);
  }

  lemma Assigned(stk: Stack, v: Value, n: int, rest: seq<Token>, st: Store)
    requires Valid(stk) && IsStart(Top(stk)) && IsPlace(v) && !IsOp(Head(rest))
    ensures var (k, st1) := StoreResult(v, n, st);
      Becomes(AfterExpr(BeforeSource(stk, v), n, rest, st), AfterExpr(stk, k, rest, st1))
  {
    hide Run, Edge, Typed, Valid, OnWords, Mask, Quotient;
    var (k, st1) := StoreResult(v, n, st);
    if v.Cell? {
      CellAssigned(stk, v, n, rest, st);
    } else {
      BitAssigned(stk, v, n, rest, st);
    }
    ReduceBy(Config(Push(stk, 8, Number(k)), rest, st1), 4);
  }

  function OpState(op: Op): State {
    match op
    case Add => 18
    case Sub => 19
    case Mul => 20
    case Div => 21
  }

  predicate Accepts(s: State, op: Op) { TakesFactors(s) && (op.Add? || op.Sub? ==> TakesTerms(s)) }

  /** The stack after a left operand and the operator behind it. */
  function BeforeRight(stk: Stack, op: Op, a: int): (r: Stack)
    requires Valid(stk) && Accepts(Top(stk), op)
    ensures Valid(r)
  {
    assert Valid(Push(stk, Goto(Top(stk), 21), Number(a)));
    Push(Push(stk, Goto(Top(stk), 21), Number(a)), OpState(op), NoValue)
  }

  lemma TermsCombined(stk: Stack, op: Op, a: int, b: int, rest: seq<Token>, st: Store)
    requires Valid(stk) && TakesTerms(Top(stk)) && (op.Add? || op.Sub?) && !IsFactorOp(Head(rest))
    ensures var (n, st1) := Apply(op, a, b, st);
      Becomes(AfterExpr(BeforeRight(stk, op, a), b, rest, st), AfterExpr(stk, n, rest, st1))
  {
    hide Run, Edge, Typed, Valid, OnWords, Mask, Quotient;
    ReduceBy(AfterExpr(BeforeRight(stk, op, a), b, rest, st), if op.Add? then 5 else 6);
  }

  lemma FactorsCombined(stk: Stack, op: Op, a: int, b: int, rest: seq<Token>, st: Store)
    requires Valid(stk) && TakesFactors(Top(stk)) && (op.Mul? || op.Div?)
    ensures var (n, st1) := Apply(op, a, b, st);
      Becomes(AfterExpr(BeforeRight(stk, op, a), b, rest, st), AfterExpr(stk, n, rest, st1))
  {
    hide Run, Edge, Typed, Valid, OnWords, Mask, Quotient;
    ReduceBy(AfterExpr(BeforeRight(stk, op, a), b, rest, st), if op.Mul? then 7 else 8);
  }

  lemma OpShifted(stk: Stack, op: Op, a: int, ts: seq<Token>, st: Store)
    requires Valid(stk) && Accepts(Top(stk), op) && Head(ts) == OpToken(op)
    ensures Becomes(AfterExpr(stk, a, ts, st), Config(BeforeRight(stk, op, a), ts[1..], st))
  {
    hide Run, Edge, Typed, Valid, OnWords, Mask, Quotient;
    ShiftTo(AfterExpr(stk, a, ts, st), OpState(op));
  }

  // ----- one lemma per function of the recursive-descent parser -----

  ghost predicate ReadsExpr(c: Config, r: Parsed<Expr>)
    requires Valid(c.stk) && IsStart(Top(c.stk))
  {
    match r
    case Fail(done) => Rejected(c, done)
    case Ok(e, rest) => var (v, st1) := Eval(e, c.st); Becomes(c, AfterExpr(c.stk, v, rest, st1))
  }

  ghost predicate ReadsMem(c: Config, r: Parsed<Mem>)
    requires Valid(c.stk) && TakesPlaces(Top(c.stk))
  {
    match r
    case Fail(done) => Rejected(c, done)
    case Ok(m, rest) => var (v, st1) := EvalMem(m, c.st); Becomes(c, AfterPlace(c.stk, v, rest, st1))
  }

  ghost predicate ReadsPlace(c: Config, r: Parsed<Place>)
    requires Valid(c.stk) && TakesPlaces(Top(c.stk))
  {
    match r
    case Fail(done) => Rejected(c, done)
    case Ok(p, rest) => var (v, st1) := EvalPlace(p, c.st); Becomes(c, AfterPlace(c.stk, v, rest, st1))
  }

  lemma {:induction false} MemRefines(c: Config)
    requires Valid(c.stk) && TakesPlaces(Top(c.stk))
    requires var t := Head(c.input);
      t.MemoryTok? || t.MemObjectTok? || Act(Top(c.stk), TokenNumber(t)) == Error
    ensures ReadsMem(c, ParseMem(c.input))
    decreases |c.input|, 0
  {
    hide Run, Perform, Edge, Typed, Valid, StoreBit, LoadBit, SelectBit, Divide;
    var t := Head(c.input);
    if t.MemoryTok? {
      CellRead(c);
    } else if t.MemObjectTok? {
      IndexOpened(c);
      if Head(c.input[1..]) == LBracket {
        var c1 := Config(BeforeIndex(c.stk, t.mem), c.input[2..], c.st);
        ExprRefines(c1);
        match ParseExpr(c1.input)
        case Fail(_) =>
        case Ok(e, rest) =>
          var (v, st1) := Eval(e, c.st);
          if Head(rest) == RBracket {
            IndexRead(c.stk, t.mem, v, rest, st1);
          } else {
            Unclosed(c1.stk, v, rest, st1);
          }
      }
    } else {
      Rejects(c);
    }
  }

  lemma {:induction false} PlaceRefines(c: Config)
    requires Valid(c.stk) && TakesPlaces(Top(c.stk))
    requires var t := Head(c.input);
      t.BitTok? || t.MemoryTok? || t.MemObjectTok? || Act(Top(c.stk), TokenNumber(t)) == Error
    ensures ReadsPlace(c, ParsePlace(c.input))
    ensures var r := ParsePlace(c.input); r.Ok? && r.tree.OfMem? ==> Head(r.rest) != Dot
    decreases |c.input|, 1
  {
    hide Run, Perform, Edge, Typed, Valid, StoreBit, LoadBit, SelectBit, Divide;
    if Head(c.input).BitTok? {
      BitRead(c);
    } else {
      MemRefines(c);
      match ParseMem(c.input)
      case Fail(_) =>
      case Ok(m, rest) =>
        if Head(rest) == Dot {
          SelectionRefines(c, m, rest);
        }
    }
  }

  lemma {:induction false} SelectionRefines(c: Config, m: Mem, rest: seq<Token>)
    requires Valid(c.stk) && TakesPlaces(Top(c.stk)) && |rest| < |c.input| && Head(rest) == Dot
    requires ReadsMem(c, Ok(m, rest))
    ensures match ParseExpr(rest[1..])
      case Fail(done) => Rejected(c, Then(AMem(m), done))
      case Ok(e, rest2) => ReadsPlace(c, Ok(Selected(m, e), rest2))
    decreases |c.input|, 0
  {
    hide Run, Perform, Edge, Typed, Valid, StoreBit, LoadBit, SelectBit, Divide;
    var (v, st1) := EvalMem(m, c.st);
    DotShifted(c.stk, v, rest, st1);
    var c2 := Config(BeforeBit(c.stk, v), rest[1..], st1);
    ExprRefines(c2);
    match ParseExpr(c2.input)
    case Fail(_) =>
    case Ok(e, rest2) =>
      var (n, st2) := Eval(e, st1);
      BitSelected(c.stk, v, n, rest2, st2);
  }

  lemma {:induction false} FactorRefines(c: Config)
    requires Valid(c.stk) && IsStart(Top(c.stk))
    ensures ReadsExpr(c, ParseFactor(c.input))
    decreases |c.input|, 3
  {
    hide Run, Perform, Edge, Typed, Valid, StoreBit, LoadBit, SelectBit, Divide;
    var t := Head(c.input);
    if t.NumberTok? {
      NumberRead(c);
    } else if t == Minus {
      PrefixShifted(c);
      var c1 := Config(Opened(c.stk, Minus), c.input[1..], c.st);
      FactorRefines(c1);
      match ParseFactor(c1.input)
      case Fail(_) =>
      case Ok(e, rest) =>
        var (v, st1) := Eval(e, c.st);
        Negated(c.stk, v, rest, st1);
    } else if t == LParen {
      ParenRefines(c);
    } else if t == Amp {
      AddressRefines(c);
    } else {
      AccessRefines(c);
    }
  }

  lemma {:induction false} ParenRefines(c: Config)
    requires Valid(c.stk) && IsStart(Top(c.stk)) && Head(c.input) == LParen
    ensures ReadsExpr(c, ParseFactor(c.input))
    decreases |c.input|, 2
  {
    hide Run, Perform, Edge, Typed, Valid, StoreBit, LoadBit, SelectBit, Divide;
    PrefixShifted(c);
    var c1 := Config(Opened(c.stk, LParen), c.input[1..], c.st);
    ExprRefines(c1);
    match ParseExpr(c1.input)
    case Fail(_) =>
    case Ok(e, rest) =>
      var (v, st1) := Eval(e, c.st);
      if Head(rest) == RParen {
        Parenthesised(c.stk, v, rest, st1);
      } else {
        Unclosed(c1.stk, v, rest, st1);
      }
  }

  lemma {:induction false} AddressRefines(c: Config)
    requires Valid(c.stk) && IsStart(Top(c.stk)) && Head(c.input) == Amp
    ensures ReadsExpr(c, ParseFactor(c.input))
    decreases |c.input|, 2
  {
    hide Run, Perform, Edge, Typed, Valid, StoreBit, LoadBit, SelectBit, Divide;
    PrefixShifted(c);
    var c1 := Config(Opened(c.stk, Amp), c.input[1..], c.st);
    PlaceRefines(c1);
    match ParsePlace(c1.input)
    case Fail(_) =>
    case Ok(p, rest) =>
      var (v, st1) := EvalPlace(p, c.st);
      AddressTaken(c.stk, v, rest, st1);
  }

  /** A place that is read or assigned. */
  lemma {:induction false} AccessRefines(c: Config)
    requires Valid(c.stk) && IsStart(Top(c.stk))
    requires var t := Head(c.input); !t.NumberTok? && t != Minus && t != LParen && t != Amp
    ensures ReadsExpr(c, ParseFactor(c.input))
    decreases |c.input|, 2
  {
    hide Run, Perform, Edge, Typed, Valid, StoreBit, LoadBit, SelectBit, Divide;
    PlaceRefines(c);
    match ParsePlace(c.input)
    case Fail(_) =>
    case Ok(p, rest) =>
      var (v, st1) := EvalPlace(p, c.st);
      if Head(rest) != Equal {
        Loaded(c.stk, v, rest, st1);
      } else {
        AssignmentRefines(c, p, rest);
      }
  }

  lemma {:induction false} AssignmentRefines(c: Config, p: Place, rest: seq<Token>)
    requires Valid(c.stk) && IsStart(Top(c.stk)) && |rest| < |c.input| && Head(rest) == Equal
    requires ReadsPlace(c, Ok(p, rest))
    ensures match ParseExpr(rest[1..])
      case Fail(done) => Rejected(c, Then(APlace(p), done))
      case Ok(e, rest2) => ReadsExpr(c, Ok(Assign(p, e), rest2))
    decreases |c.input|, 1
  {
    hide Run, Perform, Edge, Typed, Valid, StoreBit, LoadBit, SelectBit, Divide;
    var (v, st1) := EvalPlace(p, c.st);
    EqualShifted(c.stk, v, rest, st1);
    var c2 := Config(BeforeSource(c.stk, v), rest[1..], st1);
    ExprRefines(c2);
    match ParseExpr(c2.input)
    case Fail(_) =>
    case Ok(e, rest2) =>
      var (n, st2) := Eval(e, st1);
      Assigned(c.stk, v, n, rest2, st2);
  }

  lemma {:induction false} MoreFactorsRefines(c: Config, l: Expr, ts: seq<Token>)
    requires Valid(c.stk) && TakesFactors(Top(c.stk)) && |ts| < |c.input|
    requires ReadsExpr(c, Ok(l, ts))
    ensures ReadsExpr(c, MoreFactors(l, ts))
    ensures var r := MoreFactors(l, ts); r.Ok? ==> !IsFactorOp(Head(r.rest))
    decreases |ts|, 5
  {
    hide Run, Perform, Edge, Typed, Valid, StoreBit, LoadBit, SelectBit, Divide;
    if IsFactorOp(Head(ts)) {
      var (a, st1) := Eval(l, c.st);
      var op := if ts[0] == Star then Mul else Div;
      OpShifted(c.stk, op, a, ts, st1);
      var c2 := Config(BeforeRight(c.stk, op, a), ts[1..], st1);
      FactorRefines(c2);
      match ParseFactor(c2.input)
      case Fail(_) =>
      case Ok(f, rest) =>
        var (b, st2) := Eval(f, st1);
        FactorsCombined(c.stk, op, a, b, rest, st2);
        MoreFactorsRefines(c, Bin(op, l, f), rest);
    }
  }

  lemma {:induction false} TermRefines(c: Config)
    requires Valid(c.stk) && TakesFactors(Top(c.stk))
    ensures ReadsExpr(c, ParseTerm(c.input))
    ensures var r := ParseTerm(c.input); r.Ok? ==> !IsFactorOp(Head(r.rest))
    decreases |c.input|, 4
  {
    hide Run, Perform, Edge, Typed, Valid, StoreBit, LoadBit, SelectBit, Divide;
    FactorRefines(c);
    match ParseFactor(c.input)
    case Fail(_) =>
    case Ok(f, rest) => MoreFactorsRefines(c, f, rest);
  }

  lemma {:induction false} MoreTermsRefines(c: Config, l: Expr, ts: seq<Token>)
    requires Valid(c.stk) && TakesTerms(Top(c.stk)) && |ts| < |c.input|
    requires ReadsExpr(c, Ok(l, ts)) && !IsFactorOp(Head(ts))
    ensures ReadsExpr(c, MoreTerms(l, ts))
    ensures var r := MoreTerms(l, ts); r.Ok? ==> !IsOp(Head(r.rest))
    decreases |ts|, 5
  {
    hide Run, Perform, Edge, Typed, Valid, StoreBit, LoadBit, SelectBit, Divide;
    if IsTermOp(Head(ts)) {
      var (a, st1) := Eval(l, c.st);
      var op := if ts[0] == Plus then Add else Sub;
      OpShifted(c.stk, op, a, ts, st1);
      var c2 := Config(BeforeRight(c.stk, op, a), ts[1..], st1);
      TermRefines(c2);
      match ParseTerm(c2.input)
      case Fail(_) =>
      case Ok(f, rest) =>
        var (b, st2) := Eval(f, st1);
        TermsCombined(c.stk, op, a, b, rest, st2);
        MoreTermsRefines(c, Bin(op, l, f), rest);
    }
  }

  lemma {:induction false} ExprRefines(c: Config)
    requires Valid(c.stk) && TakesTerms(Top(c.stk))
    ensures ReadsExpr(c, ParseExpr(c.input))
    ensures var r := ParseExpr(c.input); r.Ok? ==> !IsOp(Head(r.rest))
    decreases |c.input|, 5
  {
    hide Run, Perform, Edge, Typed, Valid, StoreBit, LoadBit, SelectBit, Divide;
    TermRefines(c);
    match ParseTerm(c.input)
    case Fail(_) =>
    case Ok(t, rest) => MoreTermsRefines(c, t, rest);
  }
}
