/** From text to value: the scanner in front of the parser. */
module ConsoleText {
  import opened Scanner
  import opened ParserSemantics
  import opened ParserEngine
  import opened ConsoleGrammar
  import opened ConsoleReading
  import opened ConsoleParser

  // ----- from lexemes to tokens (cmd.src/cmdlex.cc:604-690) -----

  function DigitValue(c: int): int {
    if IsDigit(c) then c - 48 else if 97 <= c then c - 87 else c - 55
  }

  function Radix(base: int, w: Text): int {
    if w == [] then 0 else base * Radix(base, w[..|w| - 1]) + DigitValue(w[|w| - 1])
  }

  /** The digits up to the first that is not octal. */
  function OctalPart(w: Text): Text {
    if w == [] || !(48 <= w[0] < 56) then [] else [w[0]] + OctalPart(w[1..])
  }

  /** `strtol(yytext, 0, 0)`: the base is read off the prefix. */
  function Strtol(w: Text): int {
    if HexLiteral(w) then Radix(16, w[2..])
    else if w != [] && w[0] == 48 then Radix(8, OctalPart(w))
    else Radix(10, w)
  }

  /** The names of memories, registers and bits; `check_id` returns 0 for any other name. */
  type Names = map<Text, Token>

  /** What an action returns to the parser; blanks and strange characters return nothing. */
  function TokenOf(l: Lexeme, names: Names): seq<Token> {
    match l.rule
    case 2 => [Plus] case 3 => [Minus] case 4 => [Star] case 5 => [Slash]
    case 6 => [LParen] case 7 => [RParen] case 8 => [LBracket] case 9 => [RBracket]
    case 10 => [Equal] case 11 => [Dot] case 12 => [Amp]
    case 13 => [NumberTok(Strtol(l.text))]
    case 14 => [if l.text in names then names[l.text] else Eof]
    case _ => []
  }

  function Tokens(ls: seq<Lexeme>, names: Names): seq<Token> {
    if ls == [] then [] else Tokens(ls[..|ls| - 1], names) + TokenOf(ls[|ls| - 1], names)
  }

  // ----- writing tokens down -----

  function Decimal(n: nat): (w: Text)
    ensures Digits(w) && Radix(10, w) == n && (w[0] == 48 <==> n == 0)
  {
    if n < 10 then
      var w: Text := [n + 48];
      assert w[..0] == [];
      w
    else
      var w: Text := Decimal(n / 10) + [n % 10 + 48];
      assert w[..|w| - 1] == Decimal(n / 10);
      w
  }

  /** A hex digit, in lower or upper case. */
  function HexChar(d: int, upper: bool): (c: Byte)
    requires 0 <= d < 16
    ensures IsHexDigit(c)
  {
    if d < 10 then 48 + d else if upper then 55 + d else 87 + d
  }

  /** A number in base 16; bit k of `cases` is the case of digit k. */
  function HexDigits(n: nat, cases: nat): (w: Text)
    ensures w != [] && forall i :: 0 <= i < |w| ==> IsHexDigit(w[i])
  {
    var last := [HexChar(n % 16, cases % 2 == 1)];
    if n < 16 then last else HexDigits(n / 16, cases / 2) + last
  }

  function Zeros(k: nat): (w: Text)
    ensures |w| == k && forall i :: 0 <= i < k ==> w[i] == 48
  {
    if k == 0 then [] else [48] + Zeros(k - 1)
  }

  /** `0x`, any zeros, and the number in base 16. */
  function Hex(n: nat, zeros: nat, cases: nat): Text { [48, 120] + Zeros(zeros) + HexDigits(n, cases) }

  /** A number in base 8; nothing for 0. */
  function OctalDigits(n: nat): (w: Text)
    ensures forall i :: 0 <= i < |w| ==> 48 <= w[i] < 56
    ensures w != [] ==> w[0] != 48
  {
    if n == 0 then [] else OctalDigits(n / 8) + [48 + n % 8]
  }

  /** `0`, any zeros, the number in base 8, and digits behind it of which the first is 8 or 9. */
  function Octal(n: nat, zeros: nat, tail: Text): Text { [48] + Zeros(zeros) + OctalDigits(n) + tail }

  predicate IsTail(tail: Text) { tail == [] || (Digits(tail) && tail[0] >= 56) }

  ghost predicate Literal(w: Text, n: int) {
    || (n >= 0 && w == Decimal(n))
    || (exists zeros: nat, cases: nat :: n >= 0 && w == Hex(n, zeros, cases))
    || (exists zeros: nat, tail: Text :: n >= 0 && IsTail(tail) && w == Octal(n, zeros, tail))
  }

  /** `w` is a way to write token `t`. */
  ghost predicate Spells(w: Text, t: Token, names: Names) {
    match t
    case Plus => w == [43] case Minus => w == [45] case Star => w == [42] case Slash => w == [47]
    case LParen => w == [40] case RParen => w == [41] case LBracket => w == [91]
    case RBracket => w == [93] case Equal => w == [61] case Dot => w == [46] case Amp => w == [38]
    case NumberTok(n) => Literal(w, n)
    case MemObjectTok(_) => Name(w) && w in names && names[w] == t
    case MemoryTok(_, _) => Name(w) && w in names && names[w] == t
    case BitTok(_, _, _, _) => Name(w) && w in names && names[w] == t
    case Eof => false
    case Illegal(_) => false
  }

  function RuleOf(t: Token): int {
    match t
    case Plus => 2 case Minus => 3 case Star => 4 case Slash => 5 case LParen => 6 case RParen => 7
    case LBracket => 8 case RBracket => 9 case Equal => 10 case Dot => 11 case Amp => 12
    case NumberTok(_) => 13
    case _ => 14
  }

  lemma DecimalReadsBack(n: nat)
    ensures Strtol(Decimal(n)) == n && Digits(Decimal(n))
  {
    var w := Decimal(n);
    if n == 0 {
      assert OctalPart(w) == [48] by { assert w == [48]; assert w[1..] == []; }
    } else {
      assert !HexLiteral(w);
    }
  }

  lemma {:induction false} HexReadsBack(n: nat, zeros: nat, cases: nat)
    ensures Radix(16, Zeros(zeros) + HexDigits(n, cases)) == n
    decreases n
  {
    var ws, ds := Zeros(zeros), HexDigits(n, cases);
    var all := ws + ds;
    assert all[|all| - 1] == HexChar(n % 16, cases % 2 == 1);
    if n < 16 {
      assert all[..|all| - 1] == ws;
      ZerosAreZero(16, zeros);
    } else {
      assert all[..|all| - 1] == ws + HexDigits(n / 16, cases / 2);
      HexReadsBack(n / 16, zeros, cases / 2);
    }
  }

  lemma {:induction false} ZerosAreZero(base: int, k: nat)
    ensures Radix(base, Zeros(k)) == 0
  {
    if k > 0 {
      ZerosAreZero(base, k - 1);
      assert Zeros(k)[..k - 1] == Zeros(k - 1);
    }
  }

  lemma {:induction false} OctalReadsBack(n: nat, zeros: nat)
    ensures Radix(8, [48] + Zeros(zeros) + OctalDigits(n)) == n
    decreases n
  {
    var ws := [48] + Zeros(zeros);
    var all := ws + OctalDigits(n);
    if n == 0 {
      assert all == Zeros(zeros + 1);
      ZerosAreZero(8, zeros + 1);
    } else {
      assert all[|all| - 1] == 48 + n % 8 && all[..|all| - 1] == ws + OctalDigits(n / 8);
      OctalReadsBack(n / 8, zeros);
    }
  }

  lemma {:induction false} OctalPartIs(w: Text, tail: Text)
    requires (forall i :: 0 <= i < |w| ==> 48 <= w[i] < 56) && IsTail(tail)
    ensures OctalPart(w + tail) == w
  {
    if w != [] {
      assert (w + tail)[1..] == w[1..] + tail;
      OctalPartIs(w[1..], tail);
    } else {
      assert w + tail == tail;
    }
  }

  /** Every way to write a number is read back as that number: in hex with letters of either case and
      leading zeros, in octal, where digits from the first 8 or 9 on do not count, and in decimal. */
  lemma LiteralReadsBack(w: Text, n: int)
    requires Literal(w, n)
    ensures (Digits(w) || HexLiteral(w)) && Strtol(w) == n
  {
    hide Radix, OctalPart;
    if n >= 0 && w == Decimal(n) {
      DecimalReadsBack(n);
    } else if zeros: nat, cases: nat :| n >= 0 && w == Hex(n, zeros, cases) {
      assert w[2..] == Zeros(zeros) + HexDigits(n, cases);
      HexReadsBack(n, zeros, cases);
    } else {
      var zeros: nat, tail: Text :| n >= 0 && IsTail(tail) && w == Octal(n, zeros, tail);
      OctalPartIs([48] + Zeros(zeros) + OctalDigits(n), tail);
      OctalReadsBack(n, zeros);
      assert Digits(w);
    }
  }

  // ----- and there are no other ways -----

  lemma HexCharIs(c: Byte) returns (upper: bool)
    requires IsHexDigit(c)
    ensures 0 <= DigitValue(c) < 16 && c == HexChar(DigitValue(c), upper)
  {
    upper := 65 <= c <= 70;
  }

  lemma {:induction false} HexShape(w: Text) returns (zeros: nat, cases: nat)
    requires w != [] && forall i :: 0 <= i < |w| ==> IsHexDigit(w[i])
    ensures Radix(16, w) >= 0 && w == Zeros(zeros) + HexDigits(Radix(16, w), cases)
  {
    hide Radix, HexDigits, HexChar, DigitValue, Zeros;
    var n := |w| - 1;
    var upper := HexCharIs(w[n]);
    var d, u := DigitValue(w[n]), if upper then 1 else 0;
    assert w == w[..n] + [w[n]];
    RadixLast(16, w);
    OneHexDigit(d, u);
    if n == 0 {
      ZerosAreZero(16, 0);
      NoZeros();
      zeros, cases := 0, u;
    } else {
      zeros, cases := HexShape(w[..n]);
      var m := Radix(16, w[..n]);
      if m == 0 {
        OneHexDigit(0, cases);
        ZerosEnd(zeros);
        zeros, cases := zeros + 1, u;
      } else {
        MoreHexDigits(m, cases, d, u);
        cases := 2 * cases + u;
      }
    }
  }

  lemma RadixLast(base: int, w: Text)
    requires w != []
    ensures Radix(base, w) == base * Radix(base, w[..|w| - 1]) + DigitValue(w[|w| - 1])
  {
  }

  lemma NoZeros()
    ensures Zeros(0) == []
  {
  }

  lemma OneHexDigit(d: int, cases: nat)
    requires 0 <= d < 16
    ensures HexDigits(d, cases) == [HexChar(d, cases % 2 == 1)] && HexChar(0, cases % 2 == 1) == 48
  {
  }

  lemma MoreHexDigits(m: int, cases: nat, d: int, u: int)
    requires m > 0 && 0 <= d < 16 && 0 <= u <= 1
    ensures HexDigits(16 * m + d, 2 * cases + u) == HexDigits(m, cases) + [HexChar(d, u == 1)]
  {
    var n, c := 16 * m + d, 2 * cases + u;
    assert n / 16 == m && n % 16 == d && c / 2 == cases && c % 2 == u;
  }

  lemma ZerosEnd(k: nat)
    ensures Zeros(k) + [48] == Zeros(k + 1)
  {
  }

  lemma {:induction false} OctalShape(w: Text) returns (zeros: nat)
    requires forall i :: 0 <= i < |w| ==> 48 <= w[i] < 56
    ensures Radix(8, w) >= 0 && w == Zeros(zeros) + OctalDigits(Radix(8, w))
  {
    zeros := 0;
    if w != [] {
      var n := |w| - 1;
      var d := DigitValue(w[n]);
      zeros := OctalShape(w[..n]);
      var m := Radix(8, w[..n]);
      assert w == w[..n] + [w[n]];
      if 8 * m + d == 0 {
        ZerosEnd(zeros);
        zeros := zeros + 1;
      } else {
        assert (8 * m + d) / 8 == m && (8 * m + d) % 8 == d;
      }
    }
  }

  lemma {:induction false} DecimalShape(w: Text)
    requires Digits(w) && w[0] != 48
    ensures Radix(10, w) >= 1 && w == Decimal(Radix(10, w))
  {
    var n := |w| - 1;
    var d := DigitValue(w[n]);
    assert w == w[..n] + [w[n]];
    if n == 0 {
      assert Radix(10, w) == d by { assert Radix(10, w[..0]) == 0; }
    } else {
      DecimalShape(w[..n]);
      var m := Radix(10, w[..n]);
      assert (10 * m + d) / 10 == m && (10 * m + d) % 10 == d;
    }
  }

  lemma {:induction false} SplitTail(w: Text) returns (tail: Text)
    requires forall i :: 0 <= i < |w| ==> IsDigit(w[i])
    ensures w == OctalPart(w) + tail && IsTail(tail)
    ensures forall i :: 0 <= i < |OctalPart(w)| ==> 48 <= OctalPart(w)[i] < 56
  {
    if w == [] || w[0] >= 56 {
      tail := w;
    } else {
      tail := SplitTail(w[1..]);
    }
  }

  /** Whatever the scanner takes for a number is one of these ways to write the value it gets. */
  lemma EveryNumberIsLiteral(w: Text)
    requires Digits(w) || HexLiteral(w)
    ensures Literal(w, Strtol(w))
  {
    hide Radix;
    if HexLiteral(w) {
      var zeros, cases := HexShape(w[2..]);
      assert w == Hex(Strtol(w), zeros, cases);
    } else if w[0] == 48 {
      var tail := SplitTail(w);
      var part := OctalPart(w);
      assert part == [48] + OctalPart(w[1..]);
      var zeros := OctalShape(part);
      LeadingZero(zeros, OctalDigits(Radix(8, part)), part);
      assert w == Octal(Radix(8, part), zeros - 1, tail);
    } else {
      DecimalShape(w);
    }
  }

  lemma LeadingZero(zeros: nat, ds: Text, part: Text)
    requires part == Zeros(zeros) + ds && part != [] && part[0] == 48 && (ds != [] ==> ds[0] != 48)
    ensures zeros > 0 && part == [48] + Zeros(zeros - 1) + ds
  {
  }

  // ----- where words end -----

  /** The word does not go on into the text behind it.  Only `0` can be continued by two characters
      at once, as in `0x1`. */
  predicate Separated(w: Text, rest: Text) {
    rest == [] || (
      && (Digits(w) ==>
            !IsDigit(rest[0])
            && !(w == [48] && |rest| >= 2 && rest[0] == 120 && IsHexDigit(rest[1])))
      && (HexLiteral(w) ==> !IsHexDigit(rest[0]))
      && (Name(w) ==> !IsNameChar(rest[0])))
  }

  /** A written token is a lexeme, and read back, if and only if it is separated from what follows. */
  lemma WordIsLexeme(w: Text, t: Token, names: Names, rest: Text)
    requires Spells(w, t, names)
    ensures |w| >= 1 && !IsBlank(w[0])
    ensures IsLongest(w + rest, RuleOf(t), |w|) <==> Separated(w, rest)
    ensures TokenOf(Lexeme(RuleOf(t), w), names) == [t]
  {
    if t.NumberTok? {
      LiteralReadsBack(w, t.n);
    }
    var text: Text := w + rest;
    assert text[..|w|] == w;
    if Separated(w, rest) {
      forall m, r | |w| < m <= |text|
        ensures !Matches(r, text[..m])
      {
        NothingLonger(w, t, names, rest, text[..m], r);
      }
    } else {
      Continued(w, rest);
    }
  }

  lemma NothingLonger(w: Text, t: Token, names: Names, rest: Text, v: Text, r: int)
    requires Spells(w, t, names) && Separated(w, rest)
    requires |w| < |v| <= |w + rest| && v == (w + rest)[..|v|]
    ensures !Matches(r, v)
  {
    if t.NumberTok? {
      LiteralReadsBack(w, t.n);
    }
    assert v[..|w|] == w && v[|w|] == rest[0];
    assert v[0] == w[0];
    assert |v| > |w| + 1 ==> v[|w| + 1] == rest[1];
  }

  /** Otherwise one or two more characters make a longer match. */
  lemma Continued(w: Text, rest: Text)
    requires |w| >= 1 && !Separated(w, rest)
    ensures exists m, r :: |w| < m <= |w + rest| && Matches(r, (w + rest)[..m])
  {
    var text: Text := w + rest;
    var one, two := text[..|w| + 1], if |rest| >= 2 then text[..|w| + 2] else [];
    assert one == w + [rest[0]];
    if (Digits(w) && IsDigit(rest[0])) || (HexLiteral(w) && IsHexDigit(rest[0])) {
      assert Matches(13, one);
    } else if Name(w) && IsNameChar(rest[0]) {
      assert Matches(14, one);
    } else {
      assert two == [48, 120, rest[1]];
      assert Matches(13, two);
    }
  }

  /** A run of blanks before a word or the end is one lexeme. */
  lemma GapIsLexeme(gap: Text, more: Text)
    requires gap != [] && Blanks(gap) && (more != [] ==> !IsBlank(more[0]))
    ensures IsLongest(gap + more, 1, |gap|)
  {
    var text: Text := gap + more;
    assert text[..|gap|] == gap;
    forall m, r | |gap| < m <= |text|
      ensures !Matches(r, text[..m])
    {
      assert text[..m][0] == gap[0] && text[..m][|gap|] == more[0];
    }
  }

  // ----- a whole line -----

  /** A token, how it is written, and the blanks and tabs behind it, which may be none. */
  datatype Piece = Piece(t: Token, w: Text, gap: Text)

  function Join(ps: seq<Piece>): Text {
    if ps == [] then [] else ps[0].w + (ps[0].gap + Join(ps[1..]))
  }

  function TokensOf(ps: seq<Piece>): seq<Token> {
    if ps == [] then [] else [ps[0].t] + TokensOf(ps[1..])
  }

  /** Every piece spells its token, and where there is no gap the word ends by itself. */
  ghost predicate Written(ps: seq<Piece>, names: Names) {
    ps != [] ==>
      && Spells(ps[0].w, ps[0].t, names) && Blanks(ps[0].gap)
      && (ps[0].gap == [] ==> Separated(ps[0].w, Join(ps[1..])))
      && Written(ps[1..], names)
  }

  function GapLexemes(g: Text): seq<Lexeme> { if g == [] then [] else [Lexeme(1, g)] }

  function Lexemes(ps: seq<Piece>): seq<Lexeme> {
    if ps == [] then []
    else [Lexeme(RuleOf(ps[0].t), ps[0].w)] + (GapLexemes(ps[0].gap) + Lexemes(ps[1..]))
  }

  lemma FirstChar(ps: seq<Piece>, names: Names)
    requires Written(ps, names)
    ensures Join(ps) != [] ==> !IsBlank(Join(ps)[0])
  {
    if ps != [] {
      WordIsLexeme(ps[0].w, ps[0].t, names, []);
    }
  }

  lemma ExtendBy(text: Text, start: nat, ls: seq<Lexeme>, w: Text, rest: Text, rule: int)
    requires Munched(text, start, ls) && start <= |text| && text[start..] == w + rest
    requires IsLongest(w + rest, rule, |w|)
    ensures start + |w| <= |text| && text[start + |w|..] == rest
    ensures Munched(text, start + |w|, ls + [Lexeme(rule, w)])
  {
    hide IsLongest;
    var l, mid := Lexeme(rule, w), start + |w|;
    assert text[start..mid] == text[start..][..|w|] == w;
    assert text[mid..] == text[start..][|w|..] == rest;
    assert (ls + [l])[..|ls|] == ls;
  }

  lemma ExtendByGap(text: Text, start: nat, ls: seq<Lexeme>, gap: Text, rest: Text)
    requires Munched(text, start, ls) && start <= |text| && text[start..] == gap + rest
    requires Blanks(gap) && (rest != [] ==> !IsBlank(rest[0]))
    ensures start + |gap| <= |text| && text[start + |gap|..] == rest
    ensures Munched(text, start + |gap|, ls + GapLexemes(gap))
  {
    hide IsLongest, Munched;
    if gap == [] {
      assert ls + GapLexemes(gap) == ls && gap + rest == rest;
    } else {
      GapIsLexeme(gap, rest);
      ExtendBy(text, start, ls, gap, rest, 1);
    }
  }

  /** The scanner splits the rest of the line exactly into its words and gaps. */
  lemma {:induction false} LexemesAreMunched(
      text: Text, start: nat, ls: seq<Lexeme>, ps: seq<Piece>, names: Names)
    requires Munched(text, start, ls) && start <= |text| && text[start..] == Join(ps) && Written(ps, names)
    ensures Munched(text, |text|, ls + Lexemes(ps))
    decreases |ps|
  {
    hide IsLongest, Spells, Munched, RuleOf, TokenOf, Separated, Blanks;
    if ps == [] {
      assert ls + Lexemes(ps) == ls;
    } else {
      var p, more := ps[0], Join(ps[1..]);
      WordIsLexeme(p.w, p.t, names, p.gap + more);
      GapSeparates(p.w, p.t, names, p.gap, more);
      ExtendBy(text, start, ls, p.w, p.gap + more, RuleOf(p.t));
      var l := Lexeme(RuleOf(p.t), p.w);
      FirstChar(ps[1..], names);
      ExtendByGap(text, start + |p.w|, ls + [l], p.gap, more);
      LexemesAreMunched(text, start + |p.w| + |p.gap|, ls + [l] + GapLexemes(p.gap), ps[1..], names);
      assert ls + [l] + GapLexemes(p.gap) + Lexemes(ps[1..]) == ls + Lexemes(ps);
    }
  }

  lemma GapSeparates(w: Text, t: Token, names: Names, gap: Text, more: Text)
    requires Spells(w, t, names) && Blanks(gap) && (gap == [] ==> Separated(w, more))
    ensures Separated(w, gap + more)
  {
    if gap == [] {
      assert gap + more == more;
    }
  }

  lemma {:induction false} LexemesGiveTokens(ps: seq<Piece>, names: Names)
    requires Written(ps, names)
    ensures Tokens(Lexemes(ps), names) == TokensOf(ps)
  {
    hide IsLongest, Spells, RuleOf, TokenOf, Separated, Blanks, Tokens;
    if ps == [] {
      NoTokens(names);
    } else {
      LexemesGiveTokens(ps[1..], names);
      PieceGivesToken(ps[0], Lexemes(ps[1..]), names);
    }
  }

  lemma PieceGivesToken(p: Piece, more: seq<Lexeme>, names: Names)
    requires Spells(p.w, p.t, names)
    ensures var ls := [Lexeme(RuleOf(p.t), p.w)] + (GapLexemes(p.gap) + more);
      Tokens(ls, names) == [p.t] + Tokens(more, names)
  {
    hide IsLongest, Spells, RuleOf, TokenOf, Separated, Tokens, GapLexemes;
    var l, gap := Lexeme(RuleOf(p.t), p.w), GapLexemes(p.gap);
    WordIsLexeme(p.w, p.t, names, []);
    TokensConcat([l], gap + more, names);
    TokensConcat(gap, more, names);
    OneLexeme(l, names);
    GapGivesNothing(p.gap, names);
  }

  lemma GapGivesNothing(g: Text, names: Names)
    ensures Tokens(GapLexemes(g), names) == []
  {
    OneLexeme(Lexeme(1, g), names);
  }

  lemma NoTokens(names: Names)
    ensures Tokens([], names) == []
  {
  }

  lemma OneLexeme(l: Lexeme, names: Names)
    ensures Tokens([l], names) == TokenOf(l, names) && (l.rule == 1 ==> TokenOf(l, names) == [])
  {
    assert [l][..0] == [];
  }

  lemma {:induction false} TokensConcat(ks: seq<Lexeme>, ls: seq<Lexeme>, names: Names)
    ensures Tokens(ks + ls, names) == Tokens(ks, names) + Tokens(ls, names)
    decreases |ls|
  {
    hide TokenOf;
    if ls == [] {
      assert ks + ls == ks;
    } else {
      var n := |ls| - 1;
      TokensConcat(ks, ls[..n], names);
      assert (ks + ls)[..|ks| + n] == ks + ls[..n];
    }
  }

  /** However a canonical expression is written down, with any literals and names that stand for its
      tokens and any blanks, or none where words end by themselves, the scanner and the parser
      together answer with its value. */
  lemma TextRoundTrip(e: Expr, lead: Text, ps: seq<Piece>, names: Names, ls: seq<Lexeme>, st: Store)
    requires Canonical(e) && Written(ps, names) && TokensOf(ps) == Yield(e) && Blanks(lead)
    requires Munched(lead + Join(ps), |lead + Join(ps)|, ls)
    ensures Tokens(ls, names) == Yield(e)
    ensures var o := Parse(Yield(e), st);
      o == Outcome(0, Answered(e, st)) || (o.code == 2 && !Short(Yield(e)))
  {
    ReadBackIffCanonical(e);
    EngineReadsGrammar(Yield(e), st);
    LineGivesTokens(lead, ps, names, ls);
  }

  lemma LineGivesTokens(lead: Text, ps: seq<Piece>, names: Names, ls: seq<Lexeme>)
    requires Written(ps, names) && Blanks(lead)
    requires Munched(lead + Join(ps), |lead + Join(ps)|, ls)
    ensures Tokens(ls, names) == TokensOf(ps)
  {
    hide IsLongest, Spells, Separated, Tokens, TokenOf, Lexemes, Join, TokensOf;
    var text, ks := lead + Join(ps), GapLexemes(lead) + Lexemes(ps);
    FirstChar(ps, names);
    NothingYet(text);
    ExtendByGap(text, 0, [], lead, Join(ps));
    assert [] + GapLexemes(lead) == GapLexemes(lead);
    LexemesAreMunched(text, |lead|, GapLexemes(lead), ps, names);
    if |ls| <= |ks| {
      MunchedIsUnique(text, |text|, ls, |text|, ks);
    } else {
      MunchedIsUnique(text, |text|, ks, |text|, ls);
    }
    assert ls == ks;
    LexemesGiveTokens(ps, names);
    TokensConcat(GapLexemes(lead), Lexemes(ps), names);
    GapGivesNothing(lead, names);
  }

  lemma NothingYet(text: Text)
    ensures Munched(text, 0, []) && text[0..] == text
  {
  }
}
