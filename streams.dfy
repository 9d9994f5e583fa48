/**
 * The binary save streams (Writes / Reads) at the level of the primitives they carry.
 * A writer appends one word per primitive; a reader takes the next word and fails when
 * the stream is exhausted or holds a word of another kind (a corrupt save).
 */
module Streams {
  import opened Wrappers

  type Bits8 = b: int | 0 <= b < 0x100
  type Bits16 = s: int | 0 <= s < 0x1_0000
  type Bits32 = i: int | 0 <= i < 0x1_0000_0000

  /** A 64-bit floating-point value, kept as the bit pattern the writer emits for it. */
  datatype Cell = Cell(bits: bv64)

  /** One primitive as stored: the bit pattern of a byte, a short or an int, or a double. */
  datatype Word = Byte(b: Bits8) | Short(s: Bits16) | Int(i: Bits32) | Double(d: Cell)

  predicate IsShort(v: int) { -0x8000 <= v < 0x8000 }

  predicate IsInt(v: int) { -0x8000_0000 <= v < 0x8000_0000 }

  /** Writes.b: only the low 8 bits of the value reach the stream. */
  function WriteB(v: int): Word { Byte(v % 0x100) }

  /** Writes.s: only the low 16 bits of the value reach the stream. */
  function WriteS(v: int): Word { Short(v % 0x1_0000) }

  /** Writes.i: only the low 32 bits of the value reach the stream. */
  function WriteI(v: int): Word { Int(v % 0x1_0000_0000) }

  /** Writes.d. */
  function WriteD(c: Cell): Word { Double(c) }

  /** Two's-complement reading of a 16-bit pattern. */
  function Signed16(p: Bits16): (v: int)
    ensures IsShort(v) && v % 0x1_0000 == p
  {
    if p < 0x8000 then p else p - 0x1_0000
  }

  /** Two's-complement reading of a 32-bit pattern. */
  function Signed32(p: Bits32): (v: int)
    ensures IsInt(v) && v % 0x1_0000_0000 == p
  {
    if p < 0x8000_0000 then p else p - 0x1_0000_0000
  }

  /** Reads.ub: the next byte as a value in 0..255, and the rest of the stream. */
  function ReadUB(ws: seq<Word>): (r: Option<(int, seq<Word>)>)
    ensures r.Some? <==> |ws| > 0 && ws[0].Byte?
    ensures r.Some? ==> 0 <= r.value.0 < 0x100 && r.value.1 == ws[1..]
  {
    if |ws| > 0 && ws[0].Byte? then Some((ws[0].b, ws[1..])) else None
  }

  /** Reads.s: the next short, sign-extended. */
  function ReadS(ws: seq<Word>): (r: Option<(int, seq<Word>)>)
    ensures r.Some? <==> |ws| > 0 && ws[0].Short?
    ensures r.Some? ==> IsShort(r.value.0) && r.value.1 == ws[1..]
  {
    if |ws| > 0 && ws[0].Short? then Some((Signed16(ws[0].s), ws[1..])) else None
  }

  /** Reads.i: the next int, sign-extended. */
  function ReadI(ws: seq<Word>): (r: Option<(int, seq<Word>)>)
    ensures r.Some? <==> |ws| > 0 && ws[0].Int?
    ensures r.Some? ==> IsInt(r.value.0) && r.value.1 == ws[1..]
  {
    if |ws| > 0 && ws[0].Int? then Some((Signed32(ws[0].i), ws[1..])) else None
  }

  /** Reads.d. */
  function ReadD(ws: seq<Word>): (r: Option<(Cell, seq<Word>)>)
    ensures r.Some? <==> |ws| > 0 && ws[0].Double?
    ensures r.Some? ==> r.value.1 == ws[1..]
  {
    if |ws| > 0 && ws[0].Double? then Some((ws[0].d, ws[1..])) else None
  }

  /** A short written and read back is the same value exactly when it fits in 16 bits. */
  lemma ShortRoundTrip(v: int, rest: seq<Word>)
    ensures ReadS([WriteS(v)] + rest).Some?
    ensures ReadS([WriteS(v)] + rest).value.1 == rest
    ensures ReadS([WriteS(v)] + rest).value.0 == v <==> IsShort(v)
  {
    var ws := [WriteS(v)] + rest;
    assert ws[0] == WriteS(v) && ws[1..] == rest;
    var p := v % 0x1_0000;
    if IsShort(v) {
      if v < 0 { assert p == v + 0x1_0000; } else { assert p == v; }
    }
  }

  /** An unsigned byte written and read back is the same value exactly when it lies in 0..255. */
  lemma ByteRoundTrip(v: int, rest: seq<Word>)
    ensures ReadUB([WriteB(v)] + rest).Some?
    ensures ReadUB([WriteB(v)] + rest).value.1 == rest
    ensures ReadUB([WriteB(v)] + rest).value.0 == v <==> 0 <= v < 0x100
  {
    var ws := [WriteB(v)] + rest;
    assert ws[0] == WriteB(v) && ws[1..] == rest;
  }

  /** An int written and read back is the same value exactly when it fits in 32 bits. */
  lemma IntRoundTrip(v: int, rest: seq<Word>)
    ensures ReadI([WriteI(v)] + rest).Some?
    ensures ReadI([WriteI(v)] + rest).value.1 == rest
    ensures ReadI([WriteI(v)] + rest).value.0 == v <==> IsInt(v)
  {
    var ws := [WriteI(v)] + rest;
    assert ws[0] == WriteI(v) && ws[1..] == rest;
    var p := v % 0x1_0000_0000;
    if IsInt(v) {
      if v < 0 { assert p == v + 0x1_0000_0000; } else { assert p == v; }
    }
  }
}
