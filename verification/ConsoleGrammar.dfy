/** The console expression language, defined without an automaton: abstract syntax, its value and
    effects, its token sequences, and a recursive-descent parser with the precedences that the
    grammar file asks for (cmd.src/cmdpars.y:30-135). */
module ConsoleGrammar {
  import opened ParserSemantics
  import opened ParserEngine

  datatype Op = Add | Sub | Mul | Div

  datatype Expr =
    | Num(n: int)
    | Neg(e: Expr)
    | Bin(op: Op, l: Expr, r: Expr)
    | Paren(e: Expr)
    | AddressOf(place: Place)
    | Load(place: Place)
    | Assign(place: Place, e: Expr)

  /** A memory cell: a named one, or `mem[e]`. */
  datatype Mem = Named(mem: int, addr: int) | Indexed(mem: int, e: Expr)

  /** What can be read, assigned to or have its address taken: a cell, a named bit, or `m.e`. */
  datatype Place =
    | OfMem(m: Mem)
    | NamedBit(mem: int, addr: int, bitAddr: int, mask: int)
    | Selected(m: Mem, e: Expr)

  // ----- meaning: left to right, operands before operators -----

  function Apply(op: Op, a: int, b: int, st: Store): (int, Store) {
    match op
    case Add => (a + b, st)
    case Sub => (a - b, st)
    case Mul => (a * b, st)
    case Div => Divide(st, a, b)
  }

  function Eval(e: Expr, st: Store): (int, Store) {
    match e
    case Num(n) => (n, st)
    case Neg(e1) => var (v, st1) := Eval(e1, st); (-v, st1)
    case Bin(op, l, r) =>
      var (a, st1) := Eval(l, st);
      var (b, st2) := Eval(r, st1);
      Apply(op, a, b, st2)
    case Paren(e1) => Eval(e1, st)
    case AddressOf(p) =>
      var (v, st1) := EvalPlace(p, st);
      if v.Cell? then (v.addr, st1) else BitAddressOf(st1, v.bitAddr)
    case Load(p) =>
      var (v, st1) := EvalPlace(p, st);
      if v.Cell? then (LoadCell(st1, v.mem, v.addr), st1)
      else (LoadBit(st1, v.mem, v.addr, v.mask), st1)
    case Assign(p, e1) =>
      var (v, st1) := EvalPlace(p, st);
      var (n, st2) := Eval(e1, st1);
      if v.Cell? then StoreCell(st2, v.mem, v.addr, n) else StoreBit(st2, v.mem, v.addr, v.mask, n)
  }

  function EvalMem(m: Mem, st: Store): (r: (Value, Store))
    ensures r.0.Cell?
  {
    match m
    case Named(mem, addr) => (Cell(mem, addr), st)
    case Indexed(mem, e) => var (v, st1) := Eval(e, st); (Cell(mem, v), st1)
  }

  function EvalPlace(p: Place, st: Store): (r: (Value, Store))
    ensures r.0.Cell? || r.0.BitRef?
    ensures r.0.Cell? <==> p.OfMem?
  {
    match p
    case OfMem(m) => EvalMem(m, st)
    case NamedBit(mem, addr, bitAddr, mask) => (BitRef(mem, addr, bitAddr, mask), st)
    case Selected(m, e) =>
      var (c, st1) := EvalMem(m, st);
      var (v, st2) := Eval(e, st1);
      (SelectBit(st2, c.mem, c.addr, v), st2)
  }

  // ----- the tokens of a tree -----

  function OpToken(op: Op): Token {
    match op
    case Add => Plus
    case Sub => Minus
    case Mul => Star
    case Div => Slash
  }

  function Yield(e: Expr): (ts: seq<Token>)
    ensures ts != []
  {
    match e
    case Num(n) => [NumberTok(n)]
    case Neg(e1) => [Minus] + Yield(e1)
    case Bin(op, l, r) => Yield(l) + ([OpToken(op)] + Yield(r))
    case Paren(e1) => [LParen] + (Yield(e1) + [RParen])
    case AddressOf(p) => [Amp] + YieldPlace(p)
    case Load(p) => YieldPlace(p)
    case Assign(p, e1) => YieldPlace(p) + ([Equal] + Yield(e1))
  }

  function YieldMem(m: Mem): (ts: seq<Token>)
    ensures ts != []
  {
    match m
    case Named(mem, addr) => [MemoryTok(mem, addr)]
    case Indexed(mem, e) => [MemObjectTok(mem)] + ([LBracket] + (Yield(e) + [RBracket]))
  }

  function YieldPlace(p: Place): (ts: seq<Token>)
    ensures ts != []
  {
    match p
    case OfMem(m) => YieldMem(m)
    case NamedBit(mem, addr, bitAddr, mask) => [BitTok(mem, addr, bitAddr, mask)]
    case Selected(m, e) => YieldMem(m) + ([Dot] + Yield(e))
  }

  // ----- recursive descent -----

  /** A tree and the tokens behind it, or no tree, only the complete phrases found before the point
      of failure, from left to right. */
  datatype Parsed<T> = Ok(tree: T, rest: seq<Token>) | Fail(done: Done)

  datatype Done = Nothing | Then(first: Phrase, more: Done)

  datatype Phrase = AnExpr(e: Expr) | APlace(p: Place) | AMem(m: Mem)

  /** What the phrases of a failed text have done by then. */
  function Effects(done: Done, st: Store): Store {
    match done
    case Nothing => st
    case Then(AnExpr(e), more) => Effects(more, Eval(e, st).1)
    case Then(APlace(p), more) => Effects(more, EvalPlace(p, st).1)
    case Then(AMem(m), more) => Effects(more, EvalMem(m, st).1)
  }

  /** expression: terms joined by + and -, to the left. */
  function ParseExpr(ts: seq<Token>): (r: Parsed<Expr>)
    ensures r.Ok? ==> |r.rest| < |ts|
    decreases |ts|, 4
  {
    match ParseTerm(ts)
    case Fail(done) => Fail(done)
    case Ok(t, rest) => MoreTerms(t, rest)
  }

  function MoreTerms(l: Expr, ts: seq<Token>): (r: Parsed<Expr>)
    ensures r.Ok? ==> |r.rest| <= |ts|
    decreases |ts|, 5
  {
    if Head(ts) != Plus && Head(ts) != Minus then Ok(l, ts)
    else
      match ParseTerm(ts[1..])
      case Fail(done) => Fail(Then(AnExpr(l), done))
      case Ok(r, rest) => MoreTerms(Bin(if ts[0] == Plus then Add else Sub, l, r), rest)
  }

  /** term: factors joined by * and /, to the left. */
  function ParseTerm(ts: seq<Token>): (r: Parsed<Expr>)
    ensures r.Ok? ==> |r.rest| < |ts|
    decreases |ts|, 3
  {
    match ParseFactor(ts)
    case Fail(done) => Fail(done)
    case Ok(f, rest) => MoreFactors(f, rest)
  }

  function MoreFactors(l: Expr, ts: seq<Token>): (r: Parsed<Expr>)
    ensures r.Ok? ==> |r.rest| <= |ts|
    decreases |ts|, 5
  {
    if Head(ts) != Star && Head(ts) != Slash then Ok(l, ts)
    else
      match ParseFactor(ts[1..])
      case Fail(done) => Fail(Then(AnExpr(l), done))
      case Ok(r, rest) => MoreFactors(Bin(if ts[0] == Star then Mul else Div, l, r), rest)
  }

  /** factor: a number, a parenthesis, a prefix operator, or a place that is read or, when `=`
      follows, assigned the longest expression to its right. */
  function ParseFactor(ts: seq<Token>): (r: Parsed<Expr>)
    ensures r.Ok? ==> |r.rest| < |ts|
    decreases |ts|, 2
  {
    var t := Head(ts);
    if t.NumberTok? then Ok(Num(t.n), ts[1..])
    else if t == Minus then
      match ParseFactor(ts[1..])
      case Fail(done) => Fail(done)
      case Ok(e, rest) => Ok(Neg(e), rest)
    else if t == LParen then
      match ParseExpr(ts[1..])
      case Fail(done) => Fail(done)
      case Ok(e, rest) =>
        if Head(rest) == RParen then Ok(Paren(e), rest[1..]) else Fail(Then(AnExpr(e), Nothing))
    else if t == Amp then
      match ParsePlace(ts[1..])
      case Fail(done) => Fail(done)
      case Ok(p, rest) => Ok(AddressOf(p), rest)
    else
      match ParsePlace(ts)
      case Fail(done) => Fail(done)
      case Ok(p, rest) =>
        if Head(rest) != Equal then Ok(Load(p), rest)
        else
          match ParseExpr(rest[1..])
          case Fail(done) => Fail(Then(APlace(p), done))
          case Ok(e, rest2) => Ok(Assign(p, e), rest2)
  }

  /** A cell followed by `.` selects a bit by the longest expression to its right. */
  function ParsePlace(ts: seq<Token>): (r: Parsed<Place>)
    ensures r.Ok? ==> |r.rest| < |ts|
    decreases |ts|, 1
  {
    var t := Head(ts);
    if t.BitTok? then Ok(NamedBit(t.mem, t.addr, t.bitAddr, t.mask), ts[1..])
    else
      match ParseMem(ts)
      case Fail(done) => Fail(done)
      case Ok(m, rest) =>
        if Head(rest) != Dot then Ok(OfMem(m), rest)
        else
          match ParseExpr(rest[1..])
          case Fail(done) => Fail(Then(AMem(m), done))
          case Ok(e, rest2) => Ok(Selected(m, e), rest2)
  }

  function ParseMem(ts: seq<Token>): (r: Parsed<Mem>)
    ensures r.Ok? ==> |r.rest| < |ts|
    decreases |ts|, 0
  {
    var t := Head(ts);
    if t.MemoryTok? then Ok(Named(t.mem, t.addr), ts[1..])
    else if t.MemObjectTok? && Head(ts[1..]) == LBracket then
      match ParseExpr(ts[2..])
      case Fail(done) => Fail(done)
      case Ok(e, rest) =>
        if Head(rest) == RBracket then Ok(Indexed(t.mem, e), rest[1..])
        else Fail(Then(AnExpr(e), Nothing))
    else Fail(Nothing)
  }
}
