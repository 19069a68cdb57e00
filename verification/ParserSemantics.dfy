/** Tokens, semantic values and the simulated memory that the console expression language works
    on (cmd.src/cmdpars.cc:109-121 for the value union, 1114-1227 for the actions). */
module ParserSemantics {
  import Bits
  import Quotients

  /** A number that the scanner may return but that is no token of the grammar. */
  type IllegalCode = c: int | 0 < c && !(258 <= c <= 272) witness 1

  /** What the scanner hands over: the token code and, where there is one, its value.
      `Eof` is any code that is not positive; the scanner returns 0 for an unknown name too. */
  datatype Token =
    | Plus | Minus | Star | Slash | Equal | LParen | RParen | LBracket | RBracket | Dot | Amp
    | MemObjectTok(mem: int)
    | MemoryTok(mem: int, addr: int)
    | NumberTok(n: int)
    | BitTok(mem: int, addr: int, bitAddr: int, mask: int)
    | Eof
    | Illegal(code: IllegalCode)

  /** The external code of a token (cmd.src/cmdpars.cc:266-281). */
  function ExternalCode(t: Token): int {
    match t
    case Plus => 258 case Minus => 259 case Star => 260 case Slash => 261 case Equal => 262
    case LParen => 263 case RParen => 264 case LBracket => 265 case RBracket => 266 case Dot => 267
    case Amp => 268 case MemObjectTok(_) => 269 case MemoryTok(_, _) => 270 case NumberTok(_) => 271
    case BitTok(_, _, _, _) => 272 case Eof => 0 case Illegal(c) => c
  }

  /** `yychar1`: 0 for the end of input, else `YYTRANSLATE` (cmd.src/cmdpars.cc:505-538). */
  function Translate(code: int): (r: int)
    ensures 0 <= r <= 25
  {
    if code <= 0 then 0
    else if code > 273 then 25
    else if code == 256 then 1
    else if code < 258 then 2
    else code - 255
  }

  function TokenNumber(t: Token): (r: int)
    ensures 0 <= r <= 25
  {
    Translate(ExternalCode(t))
  }

  /** The semantic value union. */
  datatype Value =
    | Number(n: int)
    | MemObject(mem: int)
    | Cell(mem: int, addr: int)
    | BitRef(mem: int, addr: int, bitAddr: int, mask: int)
    | NoValue

  function TokenValue(t: Token): Value {
    match t
    case MemObjectTok(m) => MemObject(m)
    case MemoryTok(m, a) => Cell(m, a)
    case NumberTok(n) => Number(n)
    case BitTok(m, a, b, k) => BitRef(m, a, b, k)
    case _ => NoValue
  }

  /** What the console shows. */
  datatype Event = Printed(n: int) | DivideByZero | NoBitAddress | SyntaxError | StackOverflow

  /** The simulated memories (16-bit cells, absent means 0), the table behind
      `uc->bit_address` (absent means -1) and everything shown so far. */
  datatype Store = Store(cells: map<(int, int), int>, bitAddress: map<(int, int, int), int>,
                         shown: seq<Event>)

  function Read(st: Store, mem: int, addr: int): int {
    if (mem, addr) in st.cells then st.cells[(mem, addr)] else 0
  }

  function Write(st: Store, mem: int, addr: int, v: int): Store {
    st.(cells := st.cells[(mem, addr) := v])
  }

  function Show(st: Store, e: Event): Store { st.(shown := st.shown + [e]) }

  /** A number stored into a 16-bit cell. */
  function Truncate(n: int): int { n % 0x1_0000 }

  /** The low 16 bits of `1 << n`. */
  function Mask(n: int): int { if 0 <= n < 16 then Bits.TwoTo(n) else 0 }

  /** A bitwise operation on two 16-bit words. */
  function OnWords(op: Bits.BitOp, x: int, y: int): int { Bits.Bitwise(op, x, y, WordSize()) }

  function WordSize(): nat { 16 }

  /** Division of C: the quotient is cut off toward zero. */
  function Quotient(a: int, b: int): int
    requires b != 0
  {
    var q: int := Quotients.Quo(if a < 0 then -a else a, if b < 0 then -b else b);
    if (a < 0) != (b < 0) then -q else q
  }

  // ----- the primitive steps that the actions are made of -----

  /** x / 0 is reported and leaves x (the default value of the action) as the result. */
  function Divide(st: Store, a: int, b: int): (int, Store) {
    if b == 0 then (a, Show(st, DivideByZero)) else (Quotient(a, b), st)
  }

  function LoadCell(st: Store, mem: int, addr: int): int { Read(st, mem, addr) }

  function LoadBit(st: Store, mem: int, addr: int, mask: int): int {
    if OnWords(Bits.BitAnd, Read(st, mem, addr), mask) != 0 then 1 else 0
  }

  function StoreCell(st: Store, mem: int, addr: int, n: int): (int, Store) {
    (n, Write(st, mem, addr, Truncate(n)))
  }

  function StoreBit(st: Store, mem: int, addr: int, mask: int, n: int): (int, Store) {
    if n != 0 then (1, Write(st, mem, addr, OnWords(Bits.BitOr, Read(st, mem, addr), mask)))
    else (0, Write(st, mem, addr, OnWords(Bits.BitAndNot, Read(st, mem, addr), mask)))
  }

  function BitAddressOf(st: Store, bitAddr: int): (int, Store) {
    if bitAddr < 0 then (0, Show(st, NoBitAddress)) else (bitAddr, st)
  }

  function SelectBit(st: Store, mem: int, addr: int, n: int): Value {
    BitRef(mem, addr,
           if (mem, addr, n) in st.bitAddress then st.bitAddress[(mem, addr, n)] else -1, Mask(n))
  }
}
