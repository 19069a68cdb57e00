/** The scanner of the console language (cmd.src/cmdlex.cc): the compressed tables that flex
    wrote, the automaton they encode, and the token patterns of cmd.src/cmdlex.l. */
module ScannerTables {

  /** The rule that a state accepts; 0 means none, 17 the end of the buffer. */
  function YyAccept(i: int): int
    requires 0 <= i < 27
  {
    match i
    case 0 => 0 case 1 => 1 case 2 => 1 case 3 => 17 case 4 => 15 case 5 => 1 case 6 => 16
    case 7 => 12 case 8 => 6 case 9 => 7 case 10 => 4 case 11 => 2 case 12 => 3 case 13 => 11
    case 14 => 5 case 15 => 13 case 16 => 13 case 17 => 10 case 18 => 14 case 19 => 8 case 20 => 9
    case 21 => 1 case 22 => 13 case 23 => 0 case 24 => 14 case 25 => 13 case _ => 0
  }

  /** Classes of character classes, for template states. */
  function YyMeta(i: int): int
    requires 0 <= i < 20
  {
    match i
    case 0 => 0 case 1 => 1 case 2 => 1 case 3 => 1 case 4 => 1 case 5 => 1 case 6 => 1 case 7 => 1
    case 8 => 1 case 9 => 1 case 10 => 1 case 11 => 1 case 12 => 2 case 13 => 2 case 14 => 1
    case 15 => 3 case 16 => 4 case 17 => 1 case 18 => 1 case _ => 5
  }

  /** Where the row of a state starts; 36 marks a state without successors. */
  function YyBase(i: int): int
    requires 0 <= i < 30
  {
    match i
    case 0 => 0 case 1 => 0 case 2 => 0 case 3 => 35 case 4 => 36 case 5 => 32 case 6 => 36
    case 7 => 36 case 8 => 36 case 9 => 36 case 10 => 36 case 11 => 36 case 12 => 36 case 13 => 36
    case 14 => 36 case 15 => 7 case 16 => 8 case 17 => 36 case 18 => 0 case 19 => 36 case 20 => 36
    case 21 => 23 case 22 => 10 case 23 => 0 case 24 => 0 case 25 => 0 case 26 => 36 case 27 => 22
    case 28 => 26 case _ => 30
  }

  /** Where to look when a row has no entry. */
  function YyDef(i: int): int
    requires 0 <= i < 30
  {
    match i
    case 0 => 0 case 1 => 26 case 2 => 1 case 3 => 26 case 4 => 26 case 5 => 26 case 6 => 26
    case 7 => 26 case 8 => 26 case 9 => 26 case 10 => 26 case 11 => 26 case 12 => 26 case 13 => 26
    case 14 => 26 case 15 => 27 case 16 => 26 case 17 => 26 case 18 => 28 case 19 => 26
    case 20 => 26 case 21 => 26 case 22 => 26 case 23 => 29 case 24 => 28 case 25 => 29 case 26 => 0
    case 27 => 26 case 28 => 26 case _ => 26
  }

  /** The packed transitions. */
  function YyNxt(i: int): int
    requires 0 <= i < 56
  {
    match i
    case 0 => 0 case 1 => 4 case 2 => 5 case 3 => 6 case 4 => 7 case 5 => 8 case 6 => 9 case 7 => 10
    case 8 => 11 case 9 => 12 case 10 => 13 case 11 => 14 case 12 => 15 case 13 => 16 case 14 => 17
    case 15 => 18 case 16 => 18 case 17 => 19 case 18 => 20 case 19 => 18 case 20 => 22
    case 21 => 22 case 22 => 22 case 23 => 22 case 24 => 22 case 25 => 21 case 26 => 23
    case 27 => 22 case 28 => 24 case 29 => 24 case 30 => 24 case 31 => 24 case 32 => 25
    case 33 => 25 case 34 => 21 case 35 => 26 case 36 => 3 case 37 => 26 case 38 => 26 case 39 => 26
    case 40 => 26 case 41 => 26 case 42 => 26 case 43 => 26 case 44 => 26 case 45 => 26
    case 46 => 26 case 47 => 26 case 48 => 26 case 49 => 26 case 50 => 26 case 51 => 26
    case 52 => 26 case 53 => 26 case 54 => 26 case _ => 26
  }

  /** Who owns each entry of `YyNxt`. */
  function YyChk(i: int): int
    requires 0 <= i < 56
  {
    match i
    case 0 => 0 case 1 => 1 case 2 => 1 case 3 => 1 case 4 => 1 case 5 => 1 case 6 => 1 case 7 => 1
    case 8 => 1 case 9 => 1 case 10 => 1 case 11 => 1 case 12 => 1 case 13 => 1 case 14 => 1
    case 15 => 1 case 16 => 1 case 17 => 1 case 18 => 1 case 19 => 1 case 20 => 16 case 21 => 16
    case 22 => 22 case 23 => 22 case 24 => 27 case 25 => 21 case 26 => 15 case 27 => 27
    case 28 => 28 case 29 => 28 case 30 => 28 case 31 => 28 case 32 => 29 case 33 => 29 case 34 => 5
    case 35 => 3 case 36 => 26 case 37 => 26 case 38 => 26 case 39 => 26 case 40 => 26 case 41 => 26
    case 42 => 26 case 43 => 26 case 44 => 26 case 45 => 26 case 46 => 26 case 47 => 26
    case 48 => 26 case 49 => 26 case 50 => 26 case 51 => 26 case 52 => 26 case 53 => 26
    case 54 => 26 case _ => 26
  }

  /** The class of a byte (cmd.src/cmdlex.cc:331-361), by ranges. */
  function YyEc(c: int): (r: int)
    requires 0 <= c < 256
    ensures 0 <= r < 20 && (r == 0 <==> c == 0)
  {
    if c == 0 then 0
    else if c == 9 || c == 32 then 2
    else if c == 10 then 3
    else if c == 38 then 4
    else if 40 <= c <= 43 then c - 35
    else if 45 <= c <= 47 then c - 36
    else if c == 48 then 12
    else if 49 <= c <= 57 then 13
    else if c == 61 then 14
    else if 65 <= c <= 70 || 97 <= c <= 102 then 15
    else if c == 91 then 17
    else if c == 93 then 18
    else if c == 120 then 19
    else if 71 <= c <= 90 || 103 <= c <= 122 || c == 95 then 16
    else 1
  }

  /** A state of the scanner; 26 is the jammed state. */
  type ScanState = s: int | 1 <= s <= 26 witness 1

  /** How many defaults a lookup can still follow: the `yy_def` chain is finite. */
  function ChainLeft(s: int): nat {
    if s == 26 then 0 else if s == 2 then 3 else if s < 26 then 2 else 1
  }

  /** The transition of state `s` on class `c`, through the default chain. */
  function PackedNext(s: int, c: int): int
    requires 1 <= s < 30 && 0 <= c < 20
    decreases ChainLeft(s)
  {
    if YyChk(YyBase(s) + c) == s then YyNxt(YyBase(s) + c)
    else
      var d := YyDef(s);
      PackedNext(d, if d >= 27 then YyMeta(c) else c)
  }

  /** The automaton behind the tables. */
  function Delta(s: ScanState, c: int): ScanState
    requires 0 <= c < 20
  {
    if s == 3 then 26
    else if c == 0 then 3
    else
      match s
      case 1 => if c <= 14 then c + 3 else if c == 17 then 19 else if c == 18 then 20 else 18
      case 2 => if c <= 14 then c + 3 else if c == 17 then 19 else if c == 18 then 20 else 18
      case 5 => if c == 2 then 21 else 26
      case 21 => if c == 2 then 21 else 26
      case 15 => if c == 12 || c == 13 then 22 else if c == 19 then 23 else 26
      case 16 => if c == 12 || c == 13 then 22 else 26
      case 22 => if c == 12 || c == 13 then 22 else 26
      case 18 => if c == 12 || c == 13 || c == 15 || c == 16 || c == 19 then 24 else 26
      case 24 => if c == 12 || c == 13 || c == 15 || c == 16 || c == 19 then 24 else 26
      case 23 => if c == 12 || c == 13 || c == 15 then 25 else 26
      case 25 => if c == 12 || c == 13 || c == 15 then 25 else 26
      case _ => 26
  }

  lemma JamRow(c: int)
    requires 0 <= c < 20
    ensures PackedNext(26, c) == Delta(26, c)
  {
  }

  /** The rows shared through `yy_meta`. */
  lemma TemplateRows(s: int, c: int)
    requires 27 <= s <= 29 && 0 <= c < 20
    ensures PackedNext(s, YyMeta(c)) ==
      if c == 0 then 3
      else if c == 12 || c == 13 then (if s == 27 then 22 else s - 4)
      else if c == 15 && s > 27 then s - 4
      else if c == 19 && s == 27 then 22
      else if (c == 16 || c == 19) && s == 28 then 24
      else 26
  {
    JamRow(YyMeta(c));
  }

  predicate IsPlain(s: int) { s == 4 || 6 <= s <= 14 || s == 17 || s == 19 || s == 20 || s == 26 }
  predicate HasTemplate(s: int) { s == 15 || s == 18 || 23 <= s <= 25 }

  lemma PlainRow(s: ScanState)
    requires IsPlain(s)
    ensures YyBase(s) == 36 && (s != 26 ==> YyDef(s) == 26)
  {
  }

  lemma JamOwnsTail(n: int)
    requires 36 <= n < 56
    ensures YyChk(n) == 26
  {
  }

  lemma DecodePlain(s: ScanState, c: int)
    requires IsPlain(s) && 0 <= c < 20
    ensures PackedNext(s, c) == Delta(s, c)
  {
    hide YyBase, YyDef, YyChk, YyNxt;
    PlainRow(s);
    JamOwnsTail(36 + c);
    JamRow(c);
  }

  lemma DecodeTemplate(s: ScanState, c: int)
    requires HasTemplate(s) && 0 <= c < 20
    ensures PackedNext(s, c) == Delta(s, c)
  {
    TemplateRows(YyDef(s), c);
  }

  lemma DecodeRow(s: ScanState, c: int)
    requires !IsPlain(s) && !HasTemplate(s) && s != 2 && 0 <= c < 20
    ensures PackedNext(s, c) == Delta(s, c)
  {
    JamRow(c);
  }

  /** The compressed tables encode exactly the automaton. */
  lemma TablesDecode(s: ScanState, c: int)
    requires 0 <= c < 20
    ensures PackedNext(s, c) == Delta(s, c)
  {
    if IsPlain(s) {
      DecodePlain(s, c);
    } else if HasTemplate(s) {
      DecodeTemplate(s, c);
    } else {
      DecodeRow(if s == 2 then 1 else s, c);
    }
  }
}
