/** What the console parser does with a token list, from start to finish. */
module ConsoleParser {
  import opened ParserSemantics
  import opened ParserEngine
  import opened ConsoleGrammar
  import opened ConsoleReading
  import opened ParserRefinement

  /** The outcome of `yyparse` on `ts`. */
  function Parse(ts: seq<Token>, st: Store): Outcome { Run(Bottom, ts, st) }

  /** The store after `e` has been evaluated and its value printed. */
  function Answered(e: Expr, st: Store): Store {
    var (v, st1) := Eval(e, st);
    Show(st1, Printed(v))
  }

  /** From the goal symbol on: print, then accept at the end of input and reject anything else. */
  lemma GoalReached(v: int, rest: seq<Token>, st: Store)
    ensures var c := AfterExpr(Bottom, v, rest, st);
      var shown := Show(st, Printed(v));
      && Valid(c.stk)
      && (!IsOp(Head(rest)) ==>
            || Go(c).code == 2
            || Go(c) == (if Head(rest) == Eof then Outcome(0, shown)
                         else Outcome(1, Show(shown, SyntaxError))))
  {
    var c := AfterExpr(Bottom, v, rest, st);
    if !IsOp(Head(rest)) {
      ReduceBy(c, 1);
      var c1 := Config(Push(Bottom, 35, Number(v)), rest, Show(st, Printed(v)));
      if Head(rest) == Eof {
        ShiftTo(c1, 36);
      }
    }
  }

  /** What the language definition says of a token list, without an automaton: recursive descent
      finds a tree, or the phrases before an error, and the evaluator does the rest. */
  function Interpreted(ts: seq<Token>, st: Store): Outcome {
    match ParseExpr(ts)
    case Fail(done) => Outcome(1, Show(Effects(done, st), SyntaxError))
    case Ok(e, rest) =>
      if Head(rest) == Eof then Outcome(0, Answered(e, st))
      else Outcome(1, Show(Answered(e, st), SyntaxError))
  }

  /** Short enough for the stack whatever the tokens are. */
  predicate Short(ts: seq<Token>) { |ts| < YYMAXDEPTH - 2 }

  /** The engine does, on every token list and in every store, what recursive descent and the
      evaluator say, unless its stack overflows.  A complete expression followed by something
      else is evaluated and printed before it is rejected. */
  lemma EngineReadsGrammar(ts: seq<Token>, st: Store)
    ensures 0 <= Parse(ts, st).code <= 2
    ensures Short(ts) ==> Parse(ts, st).code != 2
    ensures Parse(ts, st).code != 2 ==> Parse(ts, st) == Interpreted(ts, st)
  {
    var c := Config(Bottom, ts, st);
    if Short(ts) {
      NoOverflow(Bottom, ts, st);
    }
    ExprRefines(c);
    match ParseExpr(ts)
    case Fail(_) =>
    case Ok(e, rest) =>
      var (v, st1) := Eval(e, st);
      GoalReached(v, rest, st1);
  }

  /** A list without an end-of-input token, short enough for the stack. */
  predicate Ordinary(ts: seq<Token>) { Eof !in ts && Short(ts) }

  /** The parser accepts exactly the token sequences of canonical trees, and answers with the
      value and the effects of the one tree. */
  lemma AcceptsExactlyCanonical(ts: seq<Token>, st: Store)
    requires Ordinary(ts)
    ensures Parse(ts, st).code == 0 <==> exists e :: Canonical(e) && Yield(e) == ts
    ensures forall e :: Canonical(e) && Yield(e) == ts ==> Parse(ts, st) == Outcome(0, Answered(e, st))
  {
    EngineReadsGrammar(ts, st);
    ExprIsGood(ts);
    forall e | Canonical(e) && Yield(e) == ts
      ensures Parse(ts, st) == Outcome(0, Answered(e, st))
    {
      ReadBackIffCanonical(e);
    }
    if Parse(ts, st).code == 0 {
      var r := ParseExpr(ts);
      assert forall t :: t in r.rest ==> t in ts;
      assert r.rest == [];
      assert Yield(r.tree) == ts;
    }
  }

  // ----- printing and parsing back -----

  /** No parentheses anywhere. */
  predicate Bare(e: Expr) {
    match e
    case Num(_) => true
    case Neg(e1) => Bare(e1)
    case Bin(_, l, r) => Bare(l) && Bare(r)
    case Paren(_) => false
    case AddressOf(p) => BarePlace(p)
    case Load(p) => BarePlace(p)
    case Assign(p, e1) => BarePlace(p) && Bare(e1)
  }

  predicate BareMem(m: Mem) { m.Indexed? ==> Bare(m.e) }

  predicate BarePlace(p: Place) {
    match p
    case OfMem(m) => BareMem(m)
    case NamedBit(_, _, _, _) => true
    case Selected(m, e) => BareMem(m) && Bare(e)
  }

  /** An operand in parentheses, unless it is a number. */
  function Enclose(e: Expr): Expr { if e.Num? then e else Paren(e) }

  /** Every compound operand put in parentheses. */
  function Parenthesise(e: Expr): Expr {
    match e
    case Num(_) => e
    case Neg(e1) => Neg(Enclose(Parenthesise(e1)))
    case Bin(op, l, r) => Bin(op, Enclose(Parenthesise(l)), Enclose(Parenthesise(r)))
    case Paren(e1) => Paren(Parenthesise(e1))
    case AddressOf(p) => AddressOf(ParenthesisePlace(p))
    case Load(p) => Load(ParenthesisePlace(p))
    case Assign(p, e1) => Assign(ParenthesisePlace(p), Enclose(Parenthesise(e1)))
  }

  function ParenthesiseMem(m: Mem): Mem {
    match m
    case Named(_, _) => m
    case Indexed(mem, e) => Indexed(mem, Parenthesise(e))
  }

  function ParenthesisePlace(p: Place): Place {
    match p
    case OfMem(m) => OfMem(ParenthesiseMem(m))
    case NamedBit(_, _, _, _) => p
    case Selected(m, e) => Selected(ParenthesiseMem(m), Enclose(Parenthesise(e)))
  }

  /** All parentheses removed. */
  function Strip(e: Expr): Expr {
    match e
    case Num(_) => e
    case Neg(e1) => Neg(Strip(e1))
    case Bin(op, l, r) => Bin(op, Strip(l), Strip(r))
    case Paren(e1) => Strip(e1)
    case AddressOf(p) => AddressOf(StripPlace(p))
    case Load(p) => Load(StripPlace(p))
    case Assign(p, e1) => Assign(StripPlace(p), Strip(e1))
  }

  function StripMem(m: Mem): Mem {
    match m
    case Named(_, _) => m
    case Indexed(mem, e) => Indexed(mem, Strip(e))
  }

  function StripPlace(p: Place): Place {
    match p
    case OfMem(m) => OfMem(StripMem(m))
    case NamedBit(_, _, _, _) => p
    case Selected(m, e) => Selected(StripMem(m), Strip(e))
  }

  lemma {:induction false} ParenthesisedIsCanonical(e: Expr)
    ensures Canonical(Parenthesise(e))
    ensures Bare(e) ==> Strip(Parenthesise(e)) == e
  {
    match e
    case Num(_) =>
    case Neg(e1) => ParenthesisedIsCanonical(e1);
    case Bin(_, l, r) => ParenthesisedIsCanonical(l); ParenthesisedIsCanonical(r);
    case Paren(e1) => ParenthesisedIsCanonical(e1);
    case AddressOf(p) => PlaceParenthesisedIsCanonical(p);
    case Load(p) => PlaceParenthesisedIsCanonical(p);
    case Assign(p, e1) => PlaceParenthesisedIsCanonical(p); ParenthesisedIsCanonical(e1);
  }

  lemma {:induction false} PlaceParenthesisedIsCanonical(p: Place)
    ensures CanonicalPlace(ParenthesisePlace(p)) && !PlaceAbsorbs(ParenthesisePlace(p), Equal)
    ensures BarePlace(p) ==> StripPlace(ParenthesisePlace(p)) == p
  {
    match p
    case OfMem(m) => MemParenthesisedIsCanonical(m);
    case NamedBit(_, _, _, _) =>
    case Selected(m, e) => MemParenthesisedIsCanonical(m); ParenthesisedIsCanonical(e);
  }

  lemma {:induction false} MemParenthesisedIsCanonical(m: Mem)
    ensures CanonicalMem(ParenthesiseMem(m))
    ensures BareMem(m) ==> StripMem(ParenthesiseMem(m)) == m
  {
    if m.Indexed? { ParenthesisedIsCanonical(m.e); }
  }

  lemma {:induction false} StripKeepsMeaning(e: Expr, st: Store)
    ensures Eval(Strip(e), st) == Eval(e, st)
  {
    match e
    case Num(_) =>
    case Neg(e1) => StripKeepsMeaning(e1, st);
    case Bin(_, l, r) => StripKeepsMeaning(l, st); StripKeepsMeaning(r, Eval(l, st).1);
    case Paren(e1) => StripKeepsMeaning(e1, st);
    case AddressOf(p) => StripKeepsPlace(p, st);
    case Load(p) => StripKeepsPlace(p, st);
    case Assign(p, e1) => StripKeepsPlace(p, st); StripKeepsMeaning(e1, EvalPlace(p, st).1);
  }

  lemma {:induction false} StripKeepsMem(m: Mem, st: Store)
    ensures EvalMem(StripMem(m), st) == EvalMem(m, st)
  {
    if m.Indexed? { StripKeepsMeaning(m.e, st); }
  }

  lemma {:induction false} StripKeepsPlace(p: Place, st: Store)
    ensures EvalPlace(StripPlace(p), st) == EvalPlace(p, st)
  {
    match p
    case OfMem(m) => StripKeepsMem(m, st);
    case NamedBit(_, _, _, _) =>
    case Selected(m, e) => StripKeepsMem(m, st); StripKeepsMeaning(e, EvalMem(m, st).1);
  }

  /** Print with parentheses, parse back: the same tree, and the engine answers with its value. */
  lemma PrintParseRoundTrip(e: Expr, st: Store)
    requires Bare(e)
    ensures var ts := Yield(Parenthesise(e));
      && ParseExpr(ts) == Ok(Parenthesise(e), [])
      && Strip(ParseExpr(ts).tree) == e
      && (Parse(ts, st) == Outcome(0, Answered(e, st)) || (Parse(ts, st).code == 2 && !Short(ts)))
  {
    var t := Parenthesise(e);
    ParenthesisedIsCanonical(e);
    ReadBackIffCanonical(t);
    StripKeepsMeaning(t, st);
    EngineReadsGrammar(Yield(t), st);
  }
}
