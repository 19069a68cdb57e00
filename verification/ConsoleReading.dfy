/** Which tree a token sequence stands for.  The grammar of cmd.src/cmdpars.y is ambiguous; the
    precedence declarations pick one tree.  `Canonical` says which trees are picked, without
    mentioning a parser, and the recursive-descent parser is shown to find exactly those. */
module ConsoleReading {
  import opened ParserSemantics
  import opened ParserEngine
  import opened ConsoleGrammar

  predicate IsFactorOp(t: Token) { t == Star || t == Slash }
  predicate IsTermOp(t: Token) { t == Plus || t == Minus }
  predicate IsOp(t: Token) { IsFactorOp(t) || IsTermOp(t) }

  predicate IsFactor(e: Expr) { !e.Bin? }
  predicate IsTerm(e: Expr) { e.Bin? ==> e.op.Mul? || e.op.Div? }

  /** The right end of `e` reaches out for a following token `t`: a place takes `=`, a cell takes
      `.`, and the operand of an assignment or of a bit selection takes any operator. */
  predicate Absorbs(e: Expr, t: Token) {
    match e
    case Num(_) => false
    case Paren(_) => false
    case Neg(e1) => Absorbs(e1, t)
    case Bin(_, _, r) => Absorbs(r, t)
    case AddressOf(p) => PlaceAbsorbs(p, t)
    case Load(p) => t == Equal || PlaceAbsorbs(p, t)
    case Assign(_, e1) => IsOp(t) || Absorbs(e1, t)
  }

  predicate PlaceAbsorbs(p: Place, t: Token) {
    match p
    case OfMem(_) => t == Dot
    case NamedBit(_, _, _, _) => false
    case Selected(_, e) => IsOp(t) || Absorbs(e, t)
  }

  /** Unary minus binds tightest, then * and /, then + and -; binary operators group to the left;
      an assignment or a bit selection extends as far to the right as it can. */
  predicate Canonical(e: Expr) {
    match e
    case Num(_) => true
    case Neg(e1) => IsFactor(e1) && Canonical(e1)
    case Bin(op, l, r) =>
      && Canonical(l) && Canonical(r) && !Absorbs(l, OpToken(op))
      && (if op.Mul? || op.Div? then IsTerm(l) && IsFactor(r) else IsTerm(r))
    case Paren(e1) => Canonical(e1)
    case AddressOf(p) => CanonicalPlace(p)
    case Load(p) => CanonicalPlace(p)
    case Assign(p, e1) => CanonicalPlace(p) && !PlaceAbsorbs(p, Equal) && Canonical(e1)
  }

  predicate CanonicalMem(m: Mem) { m.Indexed? ==> Canonical(m.e) }

  predicate CanonicalPlace(p: Place) {
    match p
    case OfMem(m) => CanonicalMem(m)
    case NamedBit(_, _, _, _) => true
    case Selected(m, e) => CanonicalMem(m) && Canonical(e)
  }

  // ----- what is parsed is canonical and spells the tokens read -----

  ghost predicate GoodExpr(ts: seq<Token>, r: Parsed<Expr>) {
    r.Ok? ==> ts == Yield(r.tree) + r.rest && Canonical(r.tree) && !Absorbs(r.tree, Head(r.rest))
  }

  ghost predicate GoodPlace(ts: seq<Token>, r: Parsed<Place>) {
    r.Ok? ==>
      && ts == YieldPlace(r.tree) + r.rest && CanonicalPlace(r.tree)
      && !PlaceAbsorbs(r.tree, Head(r.rest))
  }

  lemma {:induction false} ExprIsGood(ts: seq<Token>)
    ensures GoodExpr(ts, ParseExpr(ts))
    ensures ParseExpr(ts).Ok? ==> !IsOp(Head(ParseExpr(ts).rest))
    decreases |ts|, 4
  {
    hide ParseTerm, MoreTerms;
    TermIsGood(ts);
    match ParseTerm(ts)
    case Fail(_) =>
    case Ok(t, rest) => MoreTermsAreGood(ts, t, rest);
  }

  lemma {:induction false} MoreTermsAreGood(all: seq<Token>, l: Expr, ts: seq<Token>)
    requires GoodExpr(all, Ok(l, ts)) && !IsFactorOp(Head(ts))
    ensures GoodExpr(all, MoreTerms(l, ts))
    ensures MoreTerms(l, ts).Ok? ==> !IsOp(Head(MoreTerms(l, ts).rest))
    decreases |ts|, 5
  {
    hide ParseTerm;
    if IsTermOp(Head(ts)) {
      var op := if ts[0] == Plus then Add else Sub;
      TermIsGood(ts[1..]);
      match ParseTerm(ts[1..])
      case Fail(_) =>
      case Ok(r, rest) =>
        SplitBin(all, op, l, r, ts, rest);
        MoreTermsAreGood(all, Bin(op, l, r), rest);
    }
  }

  /** The tokens of a binary expression, cut at its operator. */
  lemma SplitBin(all: seq<Token>, op: Op, l: Expr, r: Expr, ts: seq<Token>, rest: seq<Token>)
    requires all == Yield(l) + ts && ts != [] && ts[0] == OpToken(op) && ts[1..] == Yield(r) + rest
    ensures all == Yield(Bin(op, l, r)) + rest
  {
    assert ts == [OpToken(op)] + ts[1..];
  }

  lemma {:induction false} TermIsGood(ts: seq<Token>)
    ensures GoodExpr(ts, ParseTerm(ts))
    ensures ParseTerm(ts).Ok? ==> IsTerm(ParseTerm(ts).tree) && !IsFactorOp(Head(ParseTerm(ts).rest))
    decreases |ts|, 3
  {
    hide ParseFactor, MoreFactors;
    FactorIsGood(ts);
    match ParseFactor(ts)
    case Fail(_) =>
    case Ok(f, rest) => MoreFactorsAreGood(ts, f, rest);
  }

  lemma {:induction false} MoreFactorsAreGood(all: seq<Token>, l: Expr, ts: seq<Token>)
    requires GoodExpr(all, Ok(l, ts)) && IsTerm(l)
    ensures GoodExpr(all, MoreFactors(l, ts))
    ensures var r := MoreFactors(l, ts); r.Ok? ==> IsTerm(r.tree) && !IsFactorOp(Head(r.rest))
    decreases |ts|, 5
  {
    hide ParseFactor;
    if IsFactorOp(Head(ts)) {
      var op := if ts[0] == Star then Mul else Div;
      FactorIsGood(ts[1..]);
      match ParseFactor(ts[1..])
      case Fail(_) =>
      case Ok(r, rest) =>
        SplitBin(all, op, l, r, ts, rest);
        MoreFactorsAreGood(all, Bin(op, l, r), rest);
    }
  }

  lemma SplitParen(ts: seq<Token>, e: Expr, rest: seq<Token>)
    requires ts != [] && ts[0] == LParen && ts[1..] == Yield(e) + rest
    requires rest != [] && rest[0] == RParen
    ensures ts == Yield(Paren(e)) + rest[1..]
  {
    assert rest == [RParen] + rest[1..];
    assert ts == [LParen] + ts[1..];
  }

  lemma {:induction false} ParenIsGood(ts: seq<Token>)
    requires Head(ts) == LParen
    ensures GoodExpr(ts, ParseFactor(ts))
    ensures ParseFactor(ts).Ok? ==> IsFactor(ParseFactor(ts).tree)
    decreases |ts|, 1, 1
  {
    hide ParseExpr, ParsePlace;
    ExprIsGood(ts[1..]);
    match ParseExpr(ts[1..])
    case Fail(_) =>
    case Ok(e, rest) =>
      if Head(rest) == RParen {
        SplitParen(ts, e, rest);
      }
  }

  lemma {:induction false} FactorIsGood(ts: seq<Token>)
    ensures GoodExpr(ts, ParseFactor(ts))
    ensures ParseFactor(ts).Ok? ==> IsFactor(ParseFactor(ts).tree)
    decreases |ts|, 2
  {
    hide ParseExpr, ParsePlace;
    var t := Head(ts);
    if t.NumberTok? {
    } else if t == Minus {
      FactorIsGood(ts[1..]);
    } else if t == LParen {
      ParenIsGood(ts);
    } else if t == Amp {
      PlaceIsGood(ts[1..]);
    } else {
      AccessIsGood(ts);
    }
  }

  /** Two parts around a token `t`, and what follows them. */
  lemma SplitAt(ts: seq<Token>, a: seq<Token>, t: Token, b: seq<Token>, rest: seq<Token>, rest2: seq<Token>)
    requires ts == a + rest && rest != [] && rest[0] == t && rest[1..] == b + rest2
    ensures ts == (a + ([t] + b)) + rest2
  {
    assert rest == [t] + rest[1..];
  }

  lemma {:induction false} AccessIsGood(ts: seq<Token>)
    requires var t := Head(ts); !t.NumberTok? && t != Minus && t != LParen && t != Amp
    ensures GoodExpr(ts, ParseFactor(ts))
    ensures ParseFactor(ts).Ok? ==> IsFactor(ParseFactor(ts).tree)
    decreases |ts|, 1, 1
  {
    hide ParseExpr, ParsePlace;
    PlaceIsGood(ts);
    match ParsePlace(ts)
    case Fail(_) =>
    case Ok(p, rest) =>
      if Head(rest) == Equal {
        ExprIsGood(rest[1..]);
        match ParseExpr(rest[1..])
        case Fail(_) =>
        case Ok(e, rest2) =>
          SplitAt(ts, YieldPlace(p), Equal, Yield(e), rest, rest2);
      }
  }

  lemma {:induction false} PlaceIsGood(ts: seq<Token>)
    ensures GoodPlace(ts, ParsePlace(ts))
    decreases |ts|, 1, 0
  {
    hide ParseExpr, ParseMem;
    if Head(ts).BitTok? {
    } else {
      MemIsGood(ts);
      match ParseMem(ts)
      case Fail(_) =>
      case Ok(m, rest) =>
        if Head(rest) == Dot {
          ExprIsGood(rest[1..]);
          match ParseExpr(rest[1..])
          case Fail(_) =>
          case Ok(e, rest2) =>
            SplitAt(ts, YieldMem(m), Dot, Yield(e), rest, rest2);
        }
    }
  }

  lemma SplitIndexed(ts: seq<Token>, mem: int, e: Expr, rest: seq<Token>)
    requires |ts| >= 2 && ts[0] == MemObjectTok(mem) && ts[1] == LBracket && ts[2..] == Yield(e) + rest
    requires rest != [] && rest[0] == RBracket
    ensures ts == YieldMem(Indexed(mem, e)) + rest[1..]
  {
    assert rest == [RBracket] + rest[1..];
    assert ts == [MemObjectTok(mem)] + ([LBracket] + ts[2..]);
  }

  lemma {:induction false} MemIsGood(ts: seq<Token>)
    ensures var r := ParseMem(ts); r.Ok? ==> ts == YieldMem(r.tree) + r.rest && CanonicalMem(r.tree)
    decreases |ts|, 0
  {
    hide ParseExpr;
    var t := Head(ts);
    if t.MemObjectTok? && Head(ts[1..]) == LBracket {
      ExprIsGood(ts[2..]);
      match ParseExpr(ts[2..])
      case Fail(_) =>
      case Ok(e, rest) =>
        if Head(rest) == RBracket {
          SplitIndexed(ts, t.mem, e, rest);
        }
    }
  }

  // ----- every canonical tree is found from its tokens -----

  lemma {:induction false} ReadsTerms(e: Expr, rest: seq<Token>)
    requires Canonical(e) && !Absorbs(e, Head(rest)) && !IsFactorOp(Head(rest))
    ensures ParseExpr(Yield(e) + rest) == MoreTerms(e, rest)
    decreases e, 3
  {
    hide ParseTerm;
    if IsTerm(e) {
      ReadsFactors(e, rest);
    } else {
      var ts := [OpToken(e.op)] + (Yield(e.r) + rest);
      assert Yield(e) + rest == Yield(e.l) + ts;
      ReadsTerms(e.l, ts);
      assert ts[1..] == Yield(e.r) + rest;
      ReadsFactors(e.r, rest);
    }
  }

  lemma {:induction false} ReadsFactors(e: Expr, rest: seq<Token>)
    requires Canonical(e) && IsTerm(e) && !Absorbs(e, Head(rest))
    ensures ParseTerm(Yield(e) + rest) == MoreFactors(e, rest)
    decreases e, 2
  {
    hide ParseFactor;
    if IsFactor(e) {
      ReadsFactor(e, rest);
    } else {
      var ts := [OpToken(e.op)] + (Yield(e.r) + rest);
      assert Yield(e) + rest == Yield(e.l) + ts;
      ReadsFactors(e.l, ts);
      assert ts[1..] == Yield(e.r) + rest;
      ReadsFactor(e.r, rest);
    }
  }

  lemma {:induction false} ReadsFactor(e: Expr, rest: seq<Token>)
    requires Canonical(e) && IsFactor(e) && !Absorbs(e, Head(rest))
    ensures ParseFactor(Yield(e) + rest) == Ok(e, rest)
    decreases e, 1
  {
    hide ParseExpr, ParsePlace;
    var ts := Yield(e) + rest;
    match e
    case Num(_) =>
    case Neg(e1) =>
      assert ts[1..] == Yield(e1) + rest;
      ReadsFactor(e1, rest);
    case Paren(e1) => ReadsParen(e1, rest);
    case AddressOf(p) =>
      assert ts[1..] == YieldPlace(p) + rest;
      ReadsPlace(p, rest);
    case Load(p) =>
      PlaceStarts(p, rest);
      ReadsPlace(p, rest);
    case Assign(p, e1) => ReadsAssign(p, e1, rest);
  }

  lemma {:induction false} ReadsParen(e: Expr, rest: seq<Token>)
    requires Canonical(e)
    ensures ParseFactor(Yield(Paren(e)) + rest) == Ok(Paren(e), rest)
    decreases e, 4
  {
    hide ParseExpr;
    var ts := Yield(Paren(e)) + rest;
    assert ts[1..] == Yield(e) + ([RParen] + rest);
    NothingTaken(e, RParen);
    ReadsTerms(e, [RParen] + rest);
  }

  lemma {:induction false} ReadsAssign(p: Place, e: Expr, rest: seq<Token>)
    requires Canonical(Assign(p, e)) && !Absorbs(Assign(p, e), Head(rest))
    ensures ParseFactor(Yield(Assign(p, e)) + rest) == Ok(Assign(p, e), rest)
    decreases Assign(p, e), 0
  {
    hide ParseExpr, ParsePlace;
    var more := [Equal] + (Yield(e) + rest);
    assert Yield(Assign(p, e)) + rest == YieldPlace(p) + more;
    PlaceStarts(p, more);
    ReadsPlace(p, more);
    assert more[1..] == Yield(e) + rest;
    ReadsTerms(e, rest);
  }

  lemma PlaceStarts(p: Place, rest: seq<Token>)
    ensures var t := Head(YieldPlace(p) + rest); t.BitTok? || t.MemoryTok? || t.MemObjectTok?
    ensures Head(YieldPlace(p) + rest).BitTok? <==> p.NamedBit?
  {
  }

  /** Nothing reaches out for a closing bracket or the end of input. */
  lemma {:induction false} NothingTaken(e: Expr, t: Token)
    requires t == RParen || t == RBracket || t == Eof
    ensures !Absorbs(e, t)
  {
    match e
    case Num(_) =>
    case Paren(_) =>
    case Neg(e1) => NothingTaken(e1, t);
    case Bin(_, _, r) => NothingTaken(r, t);
    case AddressOf(p) => if p.Selected? { NothingTaken(p.e, t); }
    case Load(p) => if p.Selected? { NothingTaken(p.e, t); }
    case Assign(_, e1) => NothingTaken(e1, t);
  }

  lemma {:induction false} ReadsPlace(p: Place, rest: seq<Token>)
    requires CanonicalPlace(p) && !PlaceAbsorbs(p, Head(rest))
    ensures ParsePlace(YieldPlace(p) + rest) == Ok(p, rest)
    decreases p, 1
  {
    hide ParseExpr, ParseMem;
    PlaceStarts(p, rest);
    match p
    case NamedBit(_, _, _, _) =>
    case OfMem(m) => ReadsMem(m, rest);
    case Selected(m, e) =>
      var more := [Dot] + (Yield(e) + rest);
      assert YieldPlace(p) + rest == YieldMem(m) + more;
      ReadsMem(m, more);
      assert more[1..] == Yield(e) + rest;
      ReadsTerms(e, rest);
  }

  lemma {:induction false} ReadsMem(m: Mem, rest: seq<Token>)
    requires CanonicalMem(m)
    ensures ParseMem(YieldMem(m) + rest) == Ok(m, rest)
    decreases m, 0
  {
    hide ParseExpr;
    if m.Indexed? {
      var ts := YieldMem(m) + rest;
      assert ts[2..] == Yield(m.e) + ([RBracket] + rest);
      NothingTaken(m.e, RBracket);
      ReadsTerms(m.e, [RBracket] + rest);
    }
  }

  /** A tree is what its own tokens are read as exactly if it is canonical. */
  lemma {:induction false} ReadBackIffCanonical(e: Expr)
    ensures ParseExpr(Yield(e)) == Ok(e, []) <==> Canonical(e)
  {
    ExprIsGood(Yield(e));
    if Canonical(e) {
      NothingTaken(e, Eof);
      assert Yield(e) + [] == Yield(e);
      ReadsTerms(e, []);
    }
  }

  /** The precedences make the language unambiguous. */
  lemma CanonicalTreesAreUnique(e: Expr, f: Expr)
    requires Canonical(e) && Canonical(f) && Yield(e) == Yield(f)
    ensures e == f
  {
    ReadBackIffCanonical(e);
    ReadBackIffCanonical(f);
  }
}
