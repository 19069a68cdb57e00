/** Maximal munch: the match loop of `yylex` (cmd.src/cmdlex.cc:555-593) over the compressed
    tables finds, at every position of every NUL-free text, the longest prefix that a pattern of
    cmd.src/cmdlex.l matches, and the first pattern that matches it. */
module Scanner {
  import opened ScannerTables

  /** A byte of text.  NUL marks the end of flex's buffer and does not occur in console input. */
  type Byte = c: int | 0 < c < 256 witness 32
  type Text = seq<Byte>

  // ----- the patterns -----

  predicate IsBlank(c: int) { c == 9 || c == 32 }
  predicate IsDigit(c: int) { 48 <= c <= 57 }
  predicate IsHexDigit(c: int) { IsDigit(c) || 65 <= c <= 70 || 97 <= c <= 102 }
  predicate IsNameStart(c: int) { 65 <= c <= 90 || 97 <= c <= 122 || c == 95 }
  predicate IsNameChar(c: int) { IsNameStart(c) || IsDigit(c) }

  predicate Blanks(w: Text) { forall i :: 0 <= i < |w| ==> IsBlank(w[i]) }
  predicate Digits(w: Text) { |w| >= 1 && forall i :: 0 <= i < |w| ==> IsDigit(w[i]) }
  predicate HexLiteral(w: Text) {
    |w| >= 3 && w[0] == 48 && w[1] == 120 && forall i :: 2 <= i < |w| ==> IsHexDigit(w[i])
  }
  predicate Name(w: Text) {
    |w| >= 1 && IsNameStart(w[0]) && forall i :: 0 <= i < |w| ==> IsNameChar(w[i])
  }

  /** The character of the one-character patterns, rules 2 to 12. */
  function Punctuation(rule: int): int {
    match rule
    case 2 => 43 case 3 => 45 case 4 => 42 case 5 => 47 case 6 => 40 case 7 => 41
    case 8 => 91 case 9 => 93 case 10 => 61 case 11 => 46 case _ => 38
  }

  /** Pattern `rule` matches all of `w` (cmd.src/cmdlex.l:16-37; 16 is flex's default rule). */
  predicate Matches(rule: int, w: Text) {
    if rule == 1 then Blanks(w)
    else if 2 <= rule <= 12 then |w| == 1 && w[0] == Punctuation(rule)
    else if rule == 13 then Digits(w) || HexLiteral(w)
    else if rule == 14 then Name(w)
    else if rule == 15 then |w| == 1 && w[0] != 10
    else rule == 16 && |w| == 1
  }

  // ----- the states of the automaton, in terms of the text read -----

  function StateOf(w: Text): (s: ScanState)
    requires |w| >= 1
    ensures s != 3
  {
    if Blanks(w) then (if |w| == 1 then 5 else 21)
    else if |w| == 1 then Delta(1, YyEc(w[0]))
    else if Digits(w) then 22
    else if |w| == 2 && w[0] == 48 && w[1] == 120 then 23
    else if HexLiteral(w) then 25
    else if Name(w) then 24
    else 26
  }

  /** Reading one more byte follows the automaton. */
  lemma StateStep(w: Text, c: Byte)
    requires |w| >= 1
    ensures StateOf(w + [c]) == Delta(StateOf(w), YyEc(c))
  {
    var v := w + [c];
    assert v[|w|] == c && forall i :: 0 <= i < |w| ==> v[i] == w[i];
    assert Blanks(v) <==> Blanks(w) && IsBlank(c);
    assert Digits(v) <==> Digits(w) && IsDigit(c);
    assert Name(v) <==> Name(w) && IsNameChar(c);
    assert |w| >= 3 ==> (HexLiteral(v) <==> HexLiteral(w) && IsHexDigit(c));
  }

  /** The rule that a state accepts is the first one that matches the text read. */
  lemma AcceptIsFirstRule(w: Text)
    requires |w| >= 1
    ensures var a := YyAccept(StateOf(w));
      && 0 <= a <= 16
      && (a != 0 ==> Matches(a, w))
      && (forall r :: Matches(r, w) ==> 0 < a <= r)
  {
  }

  /** A state without successors stays without a match, whatever follows. */
  lemma {:induction false} DeadForever(w: Text, v: Text)
    requires |w| >= 1 && |v| >= 1 && YyBase(StateOf(w)) == 36
    ensures StateOf(w + v) == 26
    decreases |v|
  {
    var n := |v| - 1;
    assert w + v == (w + v[..n]) + [v[n]];
    StateStep(w + v[..n], v[n]);
    if n == 0 {
      assert w + v[..n] == w;
      DeadRows(StateOf(w));
    } else {
      DeadForever(w, v[..n]);
    }
  }

  lemma DeadRows(s: ScanState)
    ensures YyBase(s) == 36 <==> IsPlain(s)
  {
  }

  // ----- longest match -----

  /** `rule` with the first `n` bytes of `text` is what a flex scanner must report. */
  ghost predicate IsLongest(text: Text, rule: int, n: int) {
    && 1 <= n <= |text|
    && Matches(rule, text[..n])
    && (forall r :: Matches(r, text[..n]) ==> rule <= r)
    && (forall m, r :: n < m <= |text| ==> !Matches(r, text[..m]))
  }

  lemma LongestIsUnique(text: Text, r1: int, n1: int, r2: int, n2: int)
    requires IsLongest(text, r1, n1) && IsLongest(text, r2, n2)
    ensures r1 == r2 && n1 == n2
  {
  }

  /** The state after the first `m` bytes. */
  function StateAt(text: Text, m: int): (s: ScanState)
    requires 0 <= m <= |text|
    ensures s != 3
  {
    if m == 0 then 1 else StateOf(text[..m])
  }

  lemma StateAtStep(text: Text, m: int)
    requires 0 <= m < |text|
    ensures StateAt(text, m + 1) == Delta(StateAt(text, m), YyEc(text[m]))
  {
    if m > 0 {
      assert text[..m + 1] == text[..m] + [text[m]];
      StateStep(text[..m], text[m]);
    }
  }

  /** `(state, pos)` is the last accepting point before `limit`. */
  ghost predicate LastAccepting(text: Text, limit: int, state: ScanState, pos: int) {
    && 0 <= pos < limit && pos <= |text|
    && state == StateAt(text, pos) && YyAccept(state) != 0
    && forall m :: pos < m < limit && m <= |text| ==> YyAccept(StateAt(text, m)) == 0
  }

  /** Taking the current state if it accepts, and else the last one that did, is the longest
      match, provided nothing matches further on. */
  lemma BackUpIsLongest(text: Text, cp: int, state: ScanState, pos: int, n: int)
    requires 1 <= cp <= |text| && LastAccepting(text, cp, state, pos)
    requires forall m :: cp < m <= |text| ==> StateAt(text, m) == 26
    requires n == if YyAccept(StateAt(text, cp)) != 0 then cp else pos
    ensures IsLongest(text, YyAccept(StateAt(text, n)), n)
  {
    AcceptIsFirstRule(text[..1]);
    assert Matches(16, text[..1]);
    assert YyAccept(StateAt(text, 1)) != 0;
    forall m | 1 <= m <= |text|
      ensures var a := YyAccept(StateAt(text, m));
        (a != 0 ==> Matches(a, text[..m])) && (forall r :: Matches(r, text[..m]) ==> 0 < a <= r)
    {
      AcceptIsFirstRule(text[..m]);
    }
  }

  // ----- the scanner -----

  /** Lookups stay inside the tables, and each default is nearer to the jammed state. */
  lemma ChainStep(s: int, c: int)
    requires 1 <= s < 30 && 0 <= c < 20
    ensures 0 <= YyBase(s) <= 36 && 0 <= YyMeta(c) < 20
    ensures YyChk(YyBase(s) + c) != s ==> 1 <= YyDef(s) < 30 && ChainLeft(YyDef(s)) < ChainLeft(s)
  {
  }

  /** A transition through the default chain (cmd.src/cmdlex.cc:573-579). */
  method Transition(s: ScanState, c: int) returns (t: ScanState)
    requires 0 <= c < 20
    ensures t == Delta(s, c)
  {
    hide Delta, ChainLeft, YyBase, YyMeta, YyChk, YyNxt, YyDef;
    var state: int, yyc := s, c;
    ChainStep(state, yyc);
    while YyChk(YyBase(state) + yyc) != state
      invariant 1 <= state < 30 && 0 <= yyc < 20 && 0 <= YyBase(state) <= 36
      invariant PackedNext(state, yyc) == PackedNext(s, c)
      decreases ChainLeft(state)
    {
      ChainStep(state, yyc);
      state := YyDef(state);
      if state >= 27 {
        yyc := YyMeta(yyc);
      }
      ChainStep(state, yyc);
    }
    TablesDecode(s, c);
    t := YyNxt(YyBase(state) + yyc);
  }

  /** The buffer: the text and flex's two end-of-buffer bytes. */
  function ByteAt(text: Text, i: int): int
    requires 0 <= i <= |text| + 1
  {
    if i < |text| then text[i] else 0
  }

  /** What the match loop knows at position `cp`. */
  ghost predicate Matching(text: Text, cp: int, state: ScanState, lastState: ScanState, lastPos: int) {
    if cp <= |text| then
      && 0 <= cp && state == StateAt(text, cp)
      && (cp > 0 ==> LastAccepting(text, cp, lastState, lastPos))
    else if cp == |text| + 1 then state == 3
    else cp == |text| + 2 && state == 26 && lastState == 3 && lastPos == |text| + 1
  }

  /** The match loop: follow the automaton, remembering the last accepting state, until a state
      without successors. */
  method MatchLoop(text: Text) returns (cp: int, state: ScanState, lastState: ScanState, lastPos: int)
    requires text != []
    ensures cp > 0 && YyBase(state) == 36 && Matching(text, cp, state, lastState, lastPos)
  {
    hide StateOf;
    state, cp, lastState, lastPos := 1, 0, 1, 0;
    while true
      invariant 0 <= cp <= |text| + 1 && Matching(text, cp, state, lastState, lastPos)
      decreases |text| + 2 - cp
    {
      if YyAccept(state) != 0 {
        lastState, lastPos := state, cp;
      }
      if cp < |text| {
        StateAtStep(text, cp);
      }
      state := Transition(state, YyEc(ByteAt(text, cp)));
      cp := cp + 1;
      if YyBase(state) == 36 {
        return;
      }
    }
  }

  /** After a dead state, nothing longer matches. */
  lemma NothingFurther(text: Text, cp: int)
    requires 1 <= cp <= |text| && YyBase(StateAt(text, cp)) == 36
    ensures forall m :: cp < m <= |text| ==> StateAt(text, m) == 26
  {
    forall m | cp < m <= |text|
      ensures StateAt(text, m) == 26
    {
      assert text[..m] == text[..cp] + text[cp..m];
      DeadForever(text[..cp], text[cp..m]);
    }
  }

  lemma NoEndOfBufferRule(text: Text, m: int)
    requires 0 <= m <= |text|
    ensures YyAccept(StateAt(text, m)) != 17
  {
    if m > 0 {
      AcceptIsFirstRule(text[..m]);
    }
  }

  /** One token at the start of `text` (cmd.src/cmdlex.cc:555-603, and 804-812 at the end of
      the text). */
  method NextLexeme(text: Text) returns (rule: int, n: int)
    requires text != []
    ensures IsLongest(text, rule, n)
  {
    hide StateOf, Matches, YyBase, Delta;
    var cp, state, lastState, lastPos := MatchLoop(text);
    if cp <= |text| {
      NothingFurther(text, cp);
      NoEndOfBufferRule(text, cp);
      NoEndOfBufferRule(text, lastPos);
      BackUpIsLongest(text, cp, lastState, lastPos, if YyAccept(state) != 0 then cp else lastPos);
    }
    rule := YyAccept(state);
    if rule == 0 {
      state, cp := lastState, lastPos;
      rule := YyAccept(state);
    }
    if rule == 17 {
      // the end of the text was reached: match again up to it
      cp := |text|;
      state, lastState, lastPos := PreviousState(text);
      BackUpIsLongest(text, cp, lastState, lastPos, if YyAccept(state) != 0 then cp else lastPos);
      rule := YyAccept(state);
      if rule == 0 {
        state, cp := lastState, lastPos;
        rule := YyAccept(state);
      }
    }
    n := cp;
  }

  /** `yy_get_previous_state`: the state just before the end of the text, and the last accepting
      one (cmd.src/cmdlex.cc:1039-1064). */
  method PreviousState(text: Text) returns (state: ScanState, lastState: ScanState, lastPos: int)
    requires text != []
    ensures state == StateAt(text, |text|) && LastAccepting(text, |text|, lastState, lastPos)
  {
    hide StateOf, Delta;
    state, lastState, lastPos := 1, 1, 0;
    for cp := 0 to |text|
      invariant state == StateAt(text, cp)
      invariant cp > 0 ==> LastAccepting(text, cp, lastState, lastPos)
    {
      if YyAccept(state) != 0 {
        lastState, lastPos := state, cp;
      }
      StateAtStep(text, cp);
      state := Transition(state, YyEc(text[cp]));
    }
  }

  // ----- a whole text -----

  datatype Lexeme = Lexeme(rule: int, text: Text)

  /** `ls` covers `text[..pos]`, each lexeme being the longest match where the one before ended. */
  ghost predicate Munched(text: Text, pos: int, ls: seq<Lexeme>) {
    if ls == [] then pos == 0
    else
      var l := ls[|ls| - 1];
      var start := pos - |l.text|;
      && 0 <= start <= pos <= |text|
      && l.text == text[start..pos]
      && IsLongest(text[start..], l.rule, |l.text|)
      && Munched(text, start, ls[..|ls| - 1])
  }

  function Concat(ls: seq<Lexeme>): Text {
    if ls == [] then [] else Concat(ls[..|ls| - 1]) + ls[|ls| - 1].text
  }

  /** The scanner splits every text into longest matches, losing nothing. */
  method Scan(text: Text) returns (ls: seq<Lexeme>)
    ensures Munched(text, |text|, ls) && Concat(ls) == text
  {
    ls := [];
    var pos := 0;
    while pos < |text|
      invariant 0 <= pos <= |text| && Munched(text, pos, ls)
    {
      var rule, n := NextLexeme(text[pos..]);
      var l := Lexeme(rule, text[pos..pos + n]);
      assert (ls + [l])[..|ls|] == ls;
      ls, pos := ls + [l], pos + n;
    }
    MunchedConcat(text, pos, ls);
  }

  lemma {:induction false} MunchedConcat(text: Text, pos: int, ls: seq<Lexeme>)
    requires Munched(text, pos, ls)
    ensures 0 <= pos <= |text| && Concat(ls) == text[..pos]
    decreases |ls|
  {
    hide IsLongest;
    if ls != [] {
      var start := pos - |ls[|ls| - 1].text|;
      MunchedConcat(text, start, ls[..|ls| - 1]);
      assert text[..pos] == text[..start] + text[start..pos];
    }
  }

  lemma LexemeIsNotEmpty(text: Text, pos: int, ls: seq<Lexeme>)
    requires Munched(text, pos, ls) && ls != []
    ensures |ls[|ls| - 1].text| >= 1
  {
  }

  /** There is only one such split: a shorter one is a prefix of a longer one. */
  lemma {:induction false} MunchedIsUnique(text: Text, p: int, ls: seq<Lexeme>, q: int, ks: seq<Lexeme>)
    requires Munched(text, p, ls) && Munched(text, q, ks) && |ls| <= |ks|
    ensures ls == ks[..|ls|] && (if |ls| == |ks| then p == q else p < q)
    decreases |ks| + |ls|
  {
    hide IsLongest;
    if ks != [] {
      var k := ks[|ks| - 1];
      if |ls| < |ks| {
        assert |k.text| >= 1 by { LexemeIsNotEmpty(text, q, ks); }
        MunchedIsUnique(text, p, ls, q - |k.text|, ks[..|ks| - 1]);
      } else {
        var l := ls[|ls| - 1];
        MunchedIsUnique(text, p - |l.text|, ls[..|ls| - 1], q - |k.text|, ks[..|ks| - 1]);
        LongestIsUnique(text[p - |l.text|..], l.rule, |l.text|, k.rule, |k.text|);
        assert ls == ls[..|ls| - 1] + [l] && ks == ks[..|ks| - 1] + [k];
      }
    }
  }
}
