/** The LALR tables of the console expression parser, as bison wrote them
    (cmd.src/cmdpars.cc:571-621), and the automaton they encode.

    A table is a function of its index.  The engine of `ParserEngine` reads these
    compressed tables; everything that is proved about parsing is proved of the decoded
    automaton `Act`/`Goto`, and `TablesDecode`/`GotosDecode` show that the two agree on every
    state and every token number. */
module ParserTables {

  const YYFLAG := -32768
  const YYFINAL := 37
  const YYLAST := 46
  const YYNTBASE := 19
  const YYTERROR := 1

  /** Left-hand side of each rule. */
  function YyR1(i: int): int
    requires 0 <= i < 21
  {
    match i
    case 0 => 0 case 1 => 19 case 2 => 20 case 3 => 20 case 4 => 21 case 5 => 21 case 6 => 21
    case 7 => 21 case 8 => 21 case 9 => 21 case 10 => 21 case 11 => 21 case 12 => 21 case 13 => 21
    case 14 => 21 case 15 => 22 case 16 => 22 case 17 => 23 case 18 => 23 case 19 => 24 case _ => 24
  }

  /** Length of the right-hand side of each rule. */
  function YyR2(i: int): int
    requires 0 <= i < 21
  {
    match i
    case 0 => 0 case 1 => 1 case 2 => 3 case 3 => 3 case 4 => 1 case 5 => 3 case 6 => 3 case 7 => 3
    case 8 => 3 case 9 => 2 case 10 => 1 case 11 => 3 case 12 => 1 case 13 => 1 case 14 => 1
    case 15 => 2 case 16 => 2 case 17 => 1 case 18 => 4 case 19 => 1 case _ => 3
  }

  /** Default rule of each state; 0 means error. */
  function YyDefact(i: int): int
    requires 0 <= i < 38
  {
    match i
    case 0 => 0 case 1 => 0 case 2 => 0 case 3 => 0 case 4 => 0 case 5 => 17 case 6 => 12
    case 7 => 19 case 8 => 4 case 9 => 1 case 10 => 10 case 11 => 13 case 12 => 14 case 13 => 9
    case 14 => 0 case 15 => 15 case 16 => 16 case 17 => 0 case 18 => 0 case 19 => 0 case 20 => 0
    case 21 => 0 case 22 => 0 case 23 => 0 case 24 => 0 case 25 => 11 case 26 => 0 case 27 => 5
    case 28 => 6 case 29 => 7 case 30 => 8 case 31 => 2 case 32 => 20 case 33 => 3 case 34 => 18
    case 35 => 0 case 36 => 0 case _ => 0
  }

  /** Default goto of each nonterminal. */
  function YyDefgoto(i: int): int
    requires 0 <= i < 6
  {
    match i
    case 0 => 35 case 1 => 8 case 2 => 9 case 3 => 10 case 4 => 11 case _ => 12
  }

  /** Where the row of each state starts in `YyTable`. */
  function YyPact(i: int): int
    requires 0 <= i < 38
  {
    match i
    case 0 => -2 case 1 => -2 case 2 => -2 case 3 => -10 case 4 => 23 case 5 => YYFLAG
    case 6 => YYFLAG case 7 => YYFLAG case 8 => YYFLAG case 9 => 32 case 10 => YYFLAG case 11 => -4
    case 12 => 33 case 13 => YYFLAG case 14 => 25 case 15 => 27 case 16 => YYFLAG case 17 => -2
    case 18 => -2 case 19 => -2 case 20 => -2 case 21 => -2 case 22 => -2 case 23 => -2
    case 24 => -2 case 25 => YYFLAG case 26 => 21 case 27 => 4 case 28 => 4 case 29 => YYFLAG
    case 30 => YYFLAG case 31 => 32 case 32 => 32 case 33 => 32 case 34 => YYFLAG case 35 => 41
    case 36 => 42 case _ => YYFLAG
  }

  /** Where the column of each nonterminal starts in `YyTable`. */
  function YyPgoto(i: int): int
    requires 0 <= i < 6
  {
    match i
    case 0 => YYFLAG case 1 => YYFLAG case 2 => -1 case 3 => YYFLAG case 4 => 40 case _ => 43
  }

  /** The packed actions and gotos. */
  function YyTable(i: int): int
    requires 0 <= i < 47
  {
    match i
    case 0 => 13 case 1 => 14 case 2 => 1 case 3 => 22 case 4 => 4 case 5 => 5 case 6 => 2
    case 7 => 7 case 8 => 23 case 9 => 20 case 10 => 21 case 11 => 3 case 12 => 4 case 13 => 5
    case 14 => 6 case 15 => 7 case 16 => 26 case 17 => 27 case 18 => 28 case 19 => 29 case 20 => 30
    case 21 => 31 case 22 => 32 case 23 => 33 case 24 => 18 case 25 => 19 case 26 => 20
    case 27 => 21 case 28 => 18 case 29 => 19 case 30 => 20 case 31 => 21 case 32 => 34
    case 33 => 17 case 34 => 25 case 35 => 18 case 36 => 19 case 37 => 20 case 38 => 21
    case 39 => 23 case 40 => 24 case 41 => 36 case 42 => 37 case 43 => 15 case 44 => 0 case 45 => 0
    case _ => 16
  }

  /** Who owns each entry of `YyTable`. */
  function YyCheck(i: int): int
    requires 0 <= i < 47
  {
    match i
    case 0 => 1 case 1 => 2 case 2 => 4 case 3 => 7 case 4 => 14 case 5 => 15 case 6 => 8
    case 7 => 17 case 8 => 12 case 9 => 5 case 10 => 6 case 11 => 13 case 12 => 14 case 13 => 15
    case 14 => 16 case 15 => 17 case 16 => 17 case 17 => 18 case 18 => 19 case 19 => 20
    case 20 => 21 case 21 => 22 case 22 => 23 case 23 => 24 case 24 => 3 case 25 => 4 case 26 => 5
    case 27 => 6 case 28 => 3 case 29 => 4 case 30 => 5 case 31 => 6 case 32 => 11 case 33 => 10
    case 34 => 9 case 35 => 3 case 36 => 4 case 37 => 5 case 38 => 6 case 39 => 12 case 40 => 7
    case 41 => 0 case 42 => 0 case 43 => 3 case 44 => -1 case 45 => -1 case _ => 3
  }

  // ----- reading the packed tables -----

  datatype Action = Shift(state: int) | Reduce(rule: int) | Accept | Error

  /** A parser state (the final state 37 is never pushed). */
  type State = s: int | 0 <= s < 37

  function DefaultAction(s: State): Action {
    if YyDefact(s) == 0 then Error else Reduce(YyDefact(s))
  }

  /** The action of state `s` on token number `tok`, as `yybackup` and `yydefault` read it
      from the packed tables. */
  function PackedAction(s: State, tok: int): Action {
    if YyPact(s) == YYFLAG then DefaultAction(s)
    else
      var n := YyPact(s) + tok;
      if n < 0 || n > YYLAST || YyCheck(n) != tok then DefaultAction(s)
      else if YyTable(n) < 0 then (if YyTable(n) == YYFLAG then Error else Reduce(-YyTable(n)))
      else if YyTable(n) == 0 then Error
      else if YyTable(n) == YYFINAL then Accept
      else Shift(YyTable(n))
  }

  /** The state entered from `s` after a reduction to nonterminal `x`. */
  function PackedGoto(s: State, x: int): int
    requires YYNTBASE <= x <= 24
  {
    var n := YyPgoto(x - YYNTBASE) + s;
    if 0 <= n <= YYLAST && YyCheck(n) == s then YyTable(n) else YyDefgoto(x - YYNTBASE)
  }

  // ----- the automaton behind the tables -----

  /** States in which an expression starts. */
  predicate IsStart(s: int) { 0 <= s <= 2 || 17 <= s <= 24 }

  /** States with a complete expression that every binary operator may extend. */
  predicate IsOpen(s: int) { s == 9 || s == 14 || s == 26 || 31 <= s <= 33 }

  function StartAction(tok: int): Action {
    match tok
    case 4 => Shift(1)
    case 8 => Shift(2)
    case 13 => Shift(3)
    case 14 => Shift(4)
    case 15 => Shift(5)
    case 16 => Shift(6)
    case 17 => Shift(7)
    case _ => Error
  }

  function Act(s: State, tok: int): Action {
    if IsStart(s) then StartAction(tok)
    else if IsOpen(s) && 3 <= tok <= 6 then Shift(tok + 15)
    else if (s == 27 || s == 28) && 5 <= tok <= 6 then Shift(tok + 15)
    else if s == 3 && (tok == 14 || tok == 15) then Shift(tok - 10)
    else if s == 3 && tok == 17 then Shift(7)
    else if s == 4 && tok == 10 then Shift(17)
    else if s == 11 && tok == 7 then Shift(22)
    else if (s == 11 || s == 15) && tok == 12 then Shift(23)
    else if s == 12 && tok == 7 then Shift(24)
    else if s == 14 && tok == 9 then Shift(25)
    else if s == 26 && tok == 11 then Shift(34)
    else if s == 35 && tok == 0 then Shift(36)
    else if s == 36 && tok == 0 then Accept
    else DefaultAction(s)
  }

  function Goto(s: State, x: int): State {
    match x
    case 19 => 35
    case 20 => 8
    case 21 => if s == 1 then 13 else if s == 2 then 14 else if 17 <= s <= 24 then s + 9 else 9
    case 22 => 10
    case 23 => if s == 3 then 15 else 11
    case _ => if s == 3 then 16 else 12
  }

  lemma DecodeStart(s: State, tok: int)
    requires IsStart(s) && 0 <= tok <= 25
    ensures PackedAction(s, tok) == Act(s, tok)
  {
  }

  lemma DecodeOpen(s: State, tok: int)
    requires IsOpen(s) && 0 <= tok <= 25
    ensures PackedAction(s, tok) == Act(s, tok)
  {
  }

  lemma DecodeLow(s: State, tok: int)
    requires !IsStart(s) && s <= 12 && s != 9 && 0 <= tok <= 25
    ensures PackedAction(s, tok) == Act(s, tok)
  {
  }

  lemma DecodeHigh(s: State, tok: int)
    requires !IsStart(s) && !IsOpen(s) && 12 < s && 0 <= tok <= 25
    ensures PackedAction(s, tok) == Act(s, tok)
  {
  }

  /** The packed tables encode exactly the automaton. */
  lemma TablesDecode(s: State, tok: int)
    requires 0 <= tok <= 25
    ensures PackedAction(s, tok) == Act(s, tok)
  {
    if IsStart(s) {
      DecodeStart(s, tok);
    } else if IsOpen(s) {
      DecodeOpen(s, tok);
    } else if s <= 12 {
      DecodeLow(s, tok);
    } else {
      DecodeHigh(s, tok);
    }
  }

  lemma GotosDecode(s: State, x: int)
    requires YYNTBASE <= x <= 24
    ensures PackedGoto(s, x) == Goto(s, x)
  {
  }

  /** No state shifts the error token, so error recovery can only pop. */
  lemma NoErrorShift(s: State)
    ensures var n := YyPact(s) + YYTERROR;
      YyPact(s) == YYFLAG || n < 0 || n > YYLAST || YyCheck(n) != YYTERROR
  {
  }
}
