/** Derivation trees of the twenty grammar rules, and what the semantic actions compute when they
    are run over such a tree from the leaves up, left to right. */
module ConsoleDerivation {
  import opened ParserTables
  import opened ParserSemantics
  import opened ParserEngine
  import opened ConsoleGrammar
  import opened ConsoleReading
  import opened ConsoleParser

  /** The right-hand sides of the rules, one after the other (cmd.src/cmdpars.cc:545-555). */
  function YyRhs(i: int): int
    requires 0 <= i < 62
  {
    match i
    case 0 => 21 case 1 => 0 case 2 => 23 case 3 => 7 case 4 => 21 case 5 => 0 case 6 => 24
    case 7 => 7 case 8 => 21 case 9 => 0 case 10 => 20 case 11 => 0 case 12 => 21 case 13 => 3
    case 14 => 21 case 15 => 0 case 16 => 21 case 17 => 4 case 18 => 21 case 19 => 0 case 20 => 21
    case 21 => 5 case 22 => 21 case 23 => 0 case 24 => 21 case 25 => 6 case 26 => 21 case 27 => 0
    case 28 => 4 case 29 => 21 case 30 => 0 case 31 => 22 case 32 => 0 case 33 => 8 case 34 => 21
    case 35 => 9 case 36 => 0 case 37 => 16 case 38 => 0 case 39 => 23 case 40 => 0 case 41 => 24
    case 42 => 0 case 43 => 13 case 44 => 23 case 45 => 0 case 46 => 13 case 47 => 24 case 48 => 0
    case 49 => 15 case 50 => 0 case 51 => 14 case 52 => 10 case 53 => 21 case 54 => 11 case 55 => 0
    case 56 => 17 case 57 => 0 case 58 => 23 case 59 => 12 case 60 => 21 case _ => 0
  }

  /** Where the right-hand side of each rule starts (cmd.src/cmdpars.cc:540-543). */
  function YyPrhs(i: int): int
    requires 0 <= i < 21
  {
    match i
    case 0 => 0 case 1 => 0 case 2 => 2 case 3 => 6 case 4 => 10 case 5 => 12 case 6 => 16
    case 7 => 20 case 8 => 24 case 9 => 28 case 10 => 31 case 11 => 33 case 12 => 37 case 13 => 39
    case 14 => 41 case 15 => 43 case 16 => 46 case 17 => 49 case 18 => 51 case 19 => 56 case _ => 58
  }

  /** Symbol `i` of the right-hand side of a rule. */
  function Symbol(rule: int, i: int): int
    requires 1 <= rule <= 20 && 0 <= i < 4
  {
    var n := YyPrhs(rule) + i;
    if n < 62 then YyRhs(n) else 0
  }

  datatype Tree = Leaf(tok: Token) | Node(rule: int, kids: Kids)

  /** The children of a node: no rule has more than four symbols. */
  datatype Kids =
    | One(a: Tree)
    | Two(a: Tree, b: Tree)
    | Three(a: Tree, b: Tree, c: Tree)
    | Four(a: Tree, b: Tree, c: Tree, d: Tree)

  function Root(t: Tree): int {
    match t
    case Leaf(tok) => TokenNumber(tok)
    case Node(rule, _) => if 1 <= rule <= 20 then YyR1(rule) else -1
  }

  /** Every inner node is an instance of a rule. */
  predicate Derives(t: Tree) {
    match t
    case Leaf(_) => true
    case Node(rule, kids) =>
      && 1 <= rule <= 20
      && match kids
         case One(a) => YyR2(rule) == 1 && Root(a) == Symbol(rule, 0) && Derives(a)
         case Two(a, b) =>
           && YyR2(rule) == 2 && Root(a) == Symbol(rule, 0) && Root(b) == Symbol(rule, 1)
           && Derives(a) && Derives(b)
         case Three(a, b, c) =>
           && YyR2(rule) == 3 && Root(a) == Symbol(rule, 0) && Root(b) == Symbol(rule, 1)
           && Root(c) == Symbol(rule, 2)
           && Derives(a) && Derives(b) && Derives(c)
         case Four(a, b, c, d) =>
           && YyR2(rule) == 4 && Root(a) == Symbol(rule, 0) && Root(b) == Symbol(rule, 1)
           && Root(c) == Symbol(rule, 2) && Root(d) == Symbol(rule, 3)
           && Derives(a) && Derives(b) && Derives(c) && Derives(d)
  }

  function Frontier(t: Tree): seq<Token> {
    match t
    case Leaf(tok) => [tok]
    case Node(_, One(a)) => Frontier(a)
    case Node(_, Two(a, b)) => Frontier(a) + Frontier(b)
    case Node(_, Three(a, b, c)) => Frontier(a) + (Frontier(b) + Frontier(c))
    case Node(_, Four(a, b, c, d)) => Frontier(a) + (Frontier(b) + (Frontier(c) + Frontier(d)))
  }

  /** The actions, children first and from left to right. */
  function PostOrder(t: Tree, st: Store): (Value, Store) {
    match t
    case Leaf(tok) => (TokenValue(tok), st)
    case Node(rule, One(a)) =>
      var (va, st1) := PostOrder(a, st);
      Reduce(rule, va, NoValue, NoValue, NoValue, st1)
    case Node(rule, Two(a, b)) =>
      var (va, st1) := PostOrder(a, st);
      var (vb, st2) := PostOrder(b, st1);
      Reduce(rule, vb, va, NoValue, NoValue, st2)
    case Node(rule, Three(a, b, c)) =>
      var (va, st1) := PostOrder(a, st);
      var (vb, st2) := PostOrder(b, st1);
      var (vc, st3) := PostOrder(c, st2);
      Reduce(rule, vc, vb, va, NoValue, st3)
    case Node(rule, Four(a, b, c, d)) =>
      var (va, st1) := PostOrder(a, st);
      var (vb, st2) := PostOrder(b, st1);
      var (vc, st3) := PostOrder(c, st2);
      var (vd, st4) := PostOrder(d, st3);
      Reduce(rule, vd, vc, vb, va, st4)
  }

  function Reduce(rule: int, v0: Value, v1: Value, v2: Value, v3: Value, st: Store): (Value, Store) {
    if Ready(rule, v0, v1, v2, v3) then Perform(rule, v0, v1, v2, v3, st) else (NoValue, st)
  }

  // ----- the derivation of a tree -----

  function OpRule(op: Op): int {
    match op
    case Add => 5
    case Sub => 6
    case Mul => 7
    case Div => 8
  }

  function ExprTree(e: Expr): Tree {
    match e
    case Num(n) => Node(12, One(Leaf(NumberTok(n))))
    case Neg(e1) => Node(9, Two(Leaf(Minus), ExprTree(e1)))
    case Bin(op, l, r) => Node(OpRule(op), Three(ExprTree(l), Leaf(OpToken(op)), ExprTree(r)))
    case Paren(e1) => Node(11, Three(Leaf(LParen), ExprTree(e1), Leaf(RParen)))
    case AddressOf(p) => Node(10, One(AddressTree(p.OfMem?, PlaceTree(p))))
    case Load(p) => Node(if p.OfMem? then 13 else 14, One(PlaceTree(p)))
    case Assign(p, e1) =>
      Node(4, One(AssignTree(p.OfMem?, PlaceTree(p), ExprTree(e1))))
  }

  function AssignTree(cell: bool, place: Tree, e: Tree): Tree {
    Node(if cell then 2 else 3, Three(place, Leaf(Equal), e))
  }

  function AddressTree(cell: bool, place: Tree): Tree {
    Node(if cell then 15 else 16, Two(Leaf(Amp), place))
  }

  function MemTree(m: Mem): Tree {
    match m
    case Named(mem, addr) => Node(17, One(Leaf(MemoryTok(mem, addr))))
    case Indexed(mem, e) =>
      Node(18, Four(Leaf(MemObjectTok(mem)), Leaf(LBracket), ExprTree(e), Leaf(RBracket)))
  }

  function PlaceTree(p: Place): Tree {
    match p
    case OfMem(m) => MemTree(m)
    case NamedBit(mem, addr, bitAddr, mask) => Node(19, One(Leaf(BitTok(mem, addr, bitAddr, mask))))
    case Selected(m, e) => Node(20, Three(MemTree(m), Leaf(Dot), ExprTree(e)))
  }

  // The twenty rules, read off the flat table.

  lemma ShapesOneToFive()
    ensures Symbol(1, 0) == 21
    ensures Symbol(2, 0) == 23 && Symbol(2, 1) == 7 && Symbol(2, 2) == 21
    ensures Symbol(3, 0) == 24 && Symbol(3, 1) == 7 && Symbol(3, 2) == 21
    ensures Symbol(4, 0) == 20
    ensures Symbol(5, 0) == 21 && Symbol(5, 1) == 3 && Symbol(5, 2) == 21
  {
  }

  lemma ShapesSixToTen()
    ensures Symbol(6, 0) == 21 && Symbol(6, 1) == 4 && Symbol(6, 2) == 21
    ensures Symbol(7, 0) == 21 && Symbol(7, 1) == 5 && Symbol(7, 2) == 21
    ensures Symbol(8, 0) == 21 && Symbol(8, 1) == 6 && Symbol(8, 2) == 21
    ensures Symbol(9, 0) == 4 && Symbol(9, 1) == 21
    ensures Symbol(10, 0) == 22
  {
  }

  lemma ShapesElevenToFifteen()
    ensures Symbol(11, 0) == 8 && Symbol(11, 1) == 21 && Symbol(11, 2) == 9
    ensures Symbol(12, 0) == 16
    ensures Symbol(13, 0) == 23
    ensures Symbol(14, 0) == 24
    ensures Symbol(15, 0) == 13 && Symbol(15, 1) == 23
  {
  }

  lemma ShapesSixteenToTwenty()
    ensures Symbol(16, 0) == 13 && Symbol(16, 1) == 24
    ensures Symbol(17, 0) == 15
    ensures Symbol(18, 0) == 14 && Symbol(18, 1) == 10 && Symbol(18, 2) == 21 && Symbol(18, 3) == 11
    ensures Symbol(19, 0) == 17
    ensures Symbol(20, 0) == 23 && Symbol(20, 1) == 12 && Symbol(20, 2) == 21
  {
  }

  lemma RuleShapes()
    ensures Symbol(1, 0) == 21 && Symbol(4, 0) == 20 && Symbol(10, 0) == 22 && Symbol(12, 0) == 16
    ensures Symbol(13, 0) == 23 && Symbol(14, 0) == 24 && Symbol(17, 0) == 15 && Symbol(19, 0) == 17
    ensures Symbol(9, 0) == 4 && Symbol(9, 1) == 21
    ensures forall r :: 15 <= r <= 16 ==> Symbol(r, 0) == 13 && Symbol(r, 1) == r + 8
    ensures forall r :: 2 <= r <= 3 ==>
      Symbol(r, 0) == r + 21 && Symbol(r, 1) == 7 && Symbol(r, 2) == 21
    ensures forall r :: 5 <= r <= 8 ==>
      Symbol(r, 0) == 21 && Symbol(r, 1) == r - 2 && Symbol(r, 2) == 21
    ensures Symbol(11, 0) == 8 && Symbol(11, 1) == 21 && Symbol(11, 2) == 9
    ensures Symbol(20, 0) == 23 && Symbol(20, 1) == 12 && Symbol(20, 2) == 21
    ensures Symbol(18, 0) == 14 && Symbol(18, 1) == 10 && Symbol(18, 2) == 21 && Symbol(18, 3) == 11
  {
    hide Symbol;
    ShapesOneToFive();
    ShapesSixToTen();
    ShapesElevenToFifteen();
    ShapesSixteenToTwenty();
  }

  lemma Derive2(rule: int, a: Tree, b: Tree)
    requires 1 <= rule <= 20 && YyR2(rule) == 2 && Derives(a) && Derives(b)
    requires Root(a) == Symbol(rule, 0) && Root(b) == Symbol(rule, 1)
    ensures Derives(Node(rule, Two(a, b))) && Root(Node(rule, Two(a, b))) == YyR1(rule)
    ensures Frontier(Node(rule, Two(a, b))) == Frontier(a) + Frontier(b)
  {
  }

  lemma Derive3(rule: int, a: Tree, b: Tree, c: Tree)
    requires 1 <= rule <= 20 && YyR2(rule) == 3 && Derives(a) && Derives(b) && Derives(c)
    requires Root(a) == Symbol(rule, 0) && Root(b) == Symbol(rule, 1) && Root(c) == Symbol(rule, 2)
    ensures Derives(Node(rule, Three(a, b, c))) && Root(Node(rule, Three(a, b, c))) == YyR1(rule)
    ensures Frontier(Node(rule, Three(a, b, c))) == Frontier(a) + (Frontier(b) + Frontier(c))
  {
  }

  lemma Derive1(rule: int, a: Tree)
    requires 1 <= rule <= 20 && YyR2(rule) == 1 && Derives(a) && Root(a) == Symbol(rule, 0)
    ensures Derives(Node(rule, One(a))) && Root(Node(rule, One(a))) == YyR1(rule)
    ensures Frontier(Node(rule, One(a))) == Frontier(a)
  {
  }

  lemma LeafDerives(t: Token)
    ensures Derives(Leaf(t)) && Root(Leaf(t)) == TokenNumber(t) && Frontier(Leaf(t)) == [t]
  {
  }

  /** The tree is a derivation of the tokens of the expression. */
  lemma {:induction false} ExprIsDerived(e: Expr)
    ensures Derives(ExprTree(e)) && Root(ExprTree(e)) == 21 && Frontier(ExprTree(e)) == Yield(e)
  {
    hide Derives, Frontier, Root, Symbol;
    RuleShapes();
    match e
    case Num(n) =>
      LeafDerives(NumberTok(n));
      Derive1(12, Leaf(NumberTok(n)));
    case Neg(e1) =>
      ExprIsDerived(e1);
      LeafDerives(Minus);
      Derive2(9, Leaf(Minus), ExprTree(e1));
    case Bin(op, l, r) =>
      ExprIsDerived(l);
      ExprIsDerived(r);
      LeafDerives(OpToken(op));
      Derive3(OpRule(op), ExprTree(l), Leaf(OpToken(op)), ExprTree(r));
    case Paren(e1) =>
      ExprIsDerived(e1);
      LeafDerives(LParen);
      LeafDerives(RParen);
      Derive3(11, Leaf(LParen), ExprTree(e1), Leaf(RParen));
    case AddressOf(p) =>
      PlaceIsDerived(p);
      LeafDerives(Amp);
      Derive2(if p.OfMem? then 15 else 16, Leaf(Amp), PlaceTree(p));
      Derive1(10, AddressTree(p.OfMem?, PlaceTree(p)));
    case Load(p) =>
      PlaceIsDerived(p);
      Derive1(if p.OfMem? then 13 else 14, PlaceTree(p));
    case Assign(p, e1) =>
      PlaceIsDerived(p);
      ExprIsDerived(e1);
      LeafDerives(Equal);
      Derive3(if p.OfMem? then 2 else 3, PlaceTree(p), Leaf(Equal), ExprTree(e1));
      Derive1(4, AssignTree(p.OfMem?, PlaceTree(p), ExprTree(e1)));
  }

  lemma {:induction false} MemIsDerived(m: Mem)
    ensures Derives(MemTree(m)) && Root(MemTree(m)) == 23 && Frontier(MemTree(m)) == YieldMem(m)
  {
    hide Symbol;
    RuleShapes();
    if m.Indexed? { ExprIsDerived(m.e); }
  }

  lemma {:induction false} PlaceIsDerived(p: Place)
    ensures Derives(PlaceTree(p)) && Root(PlaceTree(p)) == (if p.OfMem? then 23 else 24)
    ensures Frontier(PlaceTree(p)) == YieldPlace(p)
  {
    hide Derives, Frontier, Root, Symbol;
    RuleShapes();
    match p
    case OfMem(m) => MemIsDerived(m);
    case NamedBit(mem, addr, bitAddr, mask) =>
      LeafDerives(BitTok(mem, addr, bitAddr, mask));
      Derive1(19, Leaf(BitTok(mem, addr, bitAddr, mask)));
    case Selected(m, e) =>
      MemIsDerived(m);
      ExprIsDerived(e);
      LeafDerives(Dot);
      Derive3(20, MemTree(m), Leaf(Dot), ExprTree(e));
  }

  lemma Order2(rule: int, a: Tree, b: Tree, st: Store)
    ensures var (va, st1) := PostOrder(a, st); var (vb, st2) := PostOrder(b, st1);
      PostOrder(Node(rule, Two(a, b)), st) == Reduce(rule, vb, va, NoValue, NoValue, st2)
  {
  }

  lemma Order3(rule: int, a: Tree, b: Tree, c: Tree, st: Store)
    ensures var (va, st1) := PostOrder(a, st); var (vb, st2) := PostOrder(b, st1);
      var (vc, st3) := PostOrder(c, st2);
      PostOrder(Node(rule, Three(a, b, c)), st) == Reduce(rule, vc, vb, va, NoValue, st3)
  {
  }

  lemma Order1(rule: int, a: Tree, st: Store)
    ensures var (va, st1) := PostOrder(a, st);
      PostOrder(Node(rule, One(a)), st) == Reduce(rule, va, NoValue, NoValue, NoValue, st1)
  {
  }

  lemma LeafValue(t: Token, st: Store)
    ensures PostOrder(Leaf(t), st) == (TokenValue(t), st)
  {
  }

  ghost predicate Evaluates(e: Expr, st: Store) {
    var (v, st1) := Eval(e, st);
    PostOrder(ExprTree(e), st) == (Number(v), st1)
  }

  lemma AddressOrder(p: Place, st: Store)
    requires PostOrder(PlaceTree(p), st) == EvalPlace(p, st)
    ensures Evaluates(AddressOf(p), st)
  {
    hide PostOrder, OnWords, Mask, Quotient;
    LeafValue(Amp, st);
    Order2(if p.OfMem? then 15 else 16, Leaf(Amp), PlaceTree(p), st);
    Order1(10, AddressTree(p.OfMem?, PlaceTree(p)), st);
  }

  lemma AssignOrder(p: Place, e: Expr, st: Store)
    requires PostOrder(PlaceTree(p), st) == EvalPlace(p, st) && Evaluates(e, EvalPlace(p, st).1)
    ensures Evaluates(Assign(p, e), st)
  {
    hide PostOrder, OnWords, Mask, Quotient;
    LeafValue(Equal, EvalPlace(p, st).1);
    Order3(if p.OfMem? then 2 else 3, PlaceTree(p), Leaf(Equal), ExprTree(e), st);
    Order1(4, AssignTree(p.OfMem?, PlaceTree(p), ExprTree(e)), st);
  }

  /** Running the actions over the tree evaluates the expression. */
  lemma {:induction false} PostOrderEvaluates(e: Expr, st: Store)
    ensures var (v, st1) := Eval(e, st); PostOrder(ExprTree(e), st) == (Number(v), st1)
  {
    hide PostOrder, OnWords, Mask, Quotient;
    match e
    case Num(n) =>
      LeafValue(NumberTok(n), st);
      Order1(12, Leaf(NumberTok(n)), st);
    case Neg(e1) =>
      PostOrderEvaluates(e1, st);
      LeafValue(Minus, st);
      Order2(9, Leaf(Minus), ExprTree(e1), st);
    case Bin(op, l, r) =>
      PostOrderEvaluates(l, st);
      PostOrderEvaluates(r, Eval(l, st).1);
      LeafValue(OpToken(op), Eval(l, st).1);
      Order3(OpRule(op), ExprTree(l), Leaf(OpToken(op)), ExprTree(r), st);
    case Paren(e1) =>
      PostOrderEvaluates(e1, st);
      LeafValue(LParen, st);
      LeafValue(RParen, Eval(e1, st).1);
      Order3(11, Leaf(LParen), ExprTree(e1), Leaf(RParen), st);
    case AddressOf(p) =>
      PostOrderPlace(p, st);
      AddressOrder(p, st);
    case Load(p) =>
      PostOrderPlace(p, st);
      Order1(if p.OfMem? then 13 else 14, PlaceTree(p), st);
    case Assign(p, e1) =>
      PostOrderPlace(p, st);
      PostOrderEvaluates(e1, EvalPlace(p, st).1);
      AssignOrder(p, e1, st);
  }

  lemma {:induction false} PostOrderMem(m: Mem, st: Store)
    ensures PostOrder(MemTree(m), st) == EvalMem(m, st)
  {
    if m.Indexed? { PostOrderEvaluates(m.e, st); }
  }

  lemma {:induction false} PostOrderPlace(p: Place, st: Store)
    ensures PostOrder(PlaceTree(p), st) == EvalPlace(p, st)
  {
    match p
    case OfMem(m) => PostOrderMem(m, st);
    case NamedBit(_, _, _, _) =>
    case Selected(m, e) =>
      PostOrderMem(m, st);
      PostOrderEvaluates(e, EvalMem(m, st).1);
  }

  /** Soundness: what the engine accepts is derived from the goal symbol, and the printed value and
      the final store are those of the actions run once each, in post-order. */
  lemma AcceptedIsDerived(ts: seq<Token>, st: Store) returns (t: Tree, read: seq<Token>)
    requires Parse(ts, st).code == 0
    ensures Derives(t) && Root(t) == 19 && Frontier(t) == read
    ensures read <= ts && Head(ts[|read|..]) == Eof
    ensures Parse(ts, st).store == PostOrder(t, st).1
  {
    hide Run, ParseExpr, Derives, Frontier, PostOrder, Symbol, ExprTree;
    EngineReadsGrammar(ts, st);
    ExprIsGood(ts);
    var e := ParseExpr(ts).tree;
    t, read := Node(1, One(ExprTree(e))), Yield(e);
    ExprIsDerived(e);
    RuleShapes();
    Derive1(1, ExprTree(e));
    PostOrderEvaluates(e, st);
    Order1(1, ExprTree(e), st);
    assert ts[|read|..] == ParseExpr(ts).rest;
  }
}
