/**
 The OGG checksum: table-driven CRC-32 over polynomial 0x04C11DB7, most significant
 bit first, no reflection (internal/calling/recorder.go).

 The reference is schoolbook polynomial long division over GF(2): append 32 zero bits
 to the message and divide by the generator. `OggCrc32` is proved to return exactly
 that remainder for every byte string.
 */
module Crc {

  const GENERATOR: bv32 := 0x04C11DB7

  // ----- Arithmetic of the 32-bit remainder register -----

  /** Addition of polynomials over GF(2). */
  function Xor(a: bv32, b: bv32): bv32 { a ^ b }

  /** Multiplication by x, before reduction. */
  function Shl(a: bv32): bv32 { a << 1 }

  /** Is the coefficient of x^31 set? */
  predicate Top(r: bv32) { r & 0x80000000 != 0 }

  function Reduce(carry: bool): bv32 { if carry then GENERATOR else 0 }

  /** Multiplication by x modulo the generator. */
  function Shift(r: bv32): bv32 { Xor(Shl(r), Reduce(Top(r))) }

  function ShiftN(r: bv32, n: nat): bv32 { if n == 0 then r else Shift(ShiftN(r, n - 1)) }

  lemma XorCommutes(a: bv32, b: bv32)
    ensures Xor(a, b) == Xor(b, a)
  {}

  lemma XorZero(a: bv32)
    ensures Xor(a, 0) == a && Xor(0, a) == a && Xor(a, a) == 0
  {}

  lemma BareXorAssociates(a: bv32, b: bv32, c: bv32)
    ensures (a ^ b) ^ c == a ^ (b ^ c)
  {}

  lemma XorIs(a: bv32, b: bv32)
    ensures Xor(a, b) == a ^ b
  {}

  lemma XorAssociates(a: bv32, b: bv32, c: bv32)
    ensures Xor(Xor(a, b), c) == Xor(a, Xor(b, c))
  {
    hide Xor;
    XorIs(a, b);
    XorIs(b, c);
    XorIs(a ^ b, c);
    XorIs(a, b ^ c);
    BareXorAssociates(a, b, c);
  }

  lemma XorSwap(x: bv32, y: bv32, p: bv32, q: bv32)
    ensures Xor(Xor(x, p), Xor(y, q)) == Xor(Xor(x, y), Xor(p, q))
  {
    hide Xor;
    XorAssociates(x, p, Xor(y, q));
    XorAssociates(p, y, q);
    XorCommutes(p, y);
    XorAssociates(y, p, q);
    XorAssociates(x, y, Xor(p, q));
  }

  lemma TopXor(a: bv32, b: bv32)
    ensures Top(Xor(a, b)) == (Top(a) != Top(b))
  {}

  lemma ShlXor(a: bv32, b: bv32)
    ensures Shl(Xor(a, b)) == Xor(Shl(a), Shl(b))
  {}

  lemma ReduceXor(s: bool, t: bool)
    ensures Reduce(s != t) == Xor(Reduce(s), Reduce(t))
  {}

  /** Multiplication by x is linear. */
  lemma ShiftXor(a: bv32, b: bv32)
    ensures Shift(Xor(a, b)) == Xor(Shift(a), Shift(b))
  {
    hide Xor, Shl, Top, Reduce;
    TopXor(a, b);
    ShlXor(a, b);
    ReduceXor(Top(a), Top(b));
    XorSwap(Shl(a), Shl(b), Reduce(Top(a)), Reduce(Top(b)));
  }

  lemma {:induction false} ShiftNXor(a: bv32, b: bv32, n: nat)
    ensures ShiftN(Xor(a, b), n) == Xor(ShiftN(a, n), ShiftN(b, n))
  {
    if n > 0 {
      ShiftNXor(a, b, n - 1);
      ShiftXor(ShiftN(a, n - 1), ShiftN(b, n - 1));
    }
  }

  lemma {:induction false} ShiftNAdd(r: bv32, m: nat, n: nat)
    ensures ShiftN(ShiftN(r, m), n) == ShiftN(r, m + n)
  {
    if n > 0 { ShiftNAdd(r, m, n - 1); }
  }

  // ----- The reference: long division -----

  /** One step of long division: bring down the next bit, subtract the generator if needed. */
  function BringDown(r: bv32, bit: bool): bv32 { Xor(Shift(r), if bit then 1 else 0) }

  /** The remainder left after dividing register `r` followed by `bits`. */
  function LongDivide(r: bv32, bits: seq<bool>): bv32
    decreases |bits|
  {
    if bits == [] then r else LongDivide(BringDown(r, bits[0]), bits[1..])
  }

  function ByteBits(b: bv8): seq<bool> {
    [b & 0x80 != 0, b & 0x40 != 0, b & 0x20 != 0, b & 0x10 != 0,
     b & 0x08 != 0, b & 0x04 != 0, b & 0x02 != 0, b & 0x01 != 0]
  }

  function Bits(data: seq<bv8>): seq<bool> {
    if data == [] then [] else Bits(data[..|data| - 1]) + ByteBits(data[|data| - 1])
  }

  function Zeros(n: nat): seq<bool> { seq(n, _ => false) }

  /** The polynomial of `data` times x^32, modulo the generator. */
  function Remainder(data: seq<bv8>): bv32 { LongDivide(0, Bits(data) + Zeros(32)) }

  // ----- From long division to feeding bits in at the top -----

  /** Feed one message bit in at the top of the register. */
  function Feed(c: bv32, bit: bool): bv32 { Shift(Xor(c, if bit then 0x80000000 else 0)) }

  function FeedAll(c: bv32, bits: seq<bool>): bv32
    decreases |bits|
  {
    if bits == [] then c else FeedAll(Feed(c, bits[0]), bits[1..])
  }

  lemma {:induction false} FeedAllConcat(c: bv32, x: seq<bool>, y: seq<bool>)
    ensures FeedAll(c, x + y) == FeedAll(FeedAll(c, x), y)
    decreases |x|
  {
    if x == [] {
      assert x + y == y;
    } else {
      assert (x + y)[1..] == x[1..] + y;
      FeedAllConcat(Feed(c, x[0]), x[1..], y);
    }
  }

  lemma {:induction false} DivideZeros(r: bv32, n: nat)
    ensures LongDivide(r, Zeros(n)) == ShiftN(r, n)
    decreases n
  {
    if n > 0 {
      assert Zeros(n)[1..] == Zeros(n - 1);
      XorZero(Shift(r));
      DivideZeros(Shift(r), n - 1);
      ShiftNAdd(r, 1, n - 1);
      assert ShiftN(r, 1) == Shift(ShiftN(r, 0));
    }
  }

  /** x^32 is congruent to the generator without its leading term. */
  lemma PowerThirtyTwo()
    ensures ShiftN(1, 32) == GENERATOR
    ensures Shift(0x80000000) == GENERATOR
  {
    assert ShiftN(1, 4) == 0x10;
    ShiftNAdd(1, 4, 4);
    assert ShiftN(0x10, 4) == 0x100;
    ShiftNAdd(1, 8, 4);
    assert ShiftN(0x100, 4) == 0x1000;
    ShiftNAdd(1, 12, 4);
    assert ShiftN(0x1000, 4) == 0x10000;
    ShiftNAdd(1, 16, 4);
    assert ShiftN(0x10000, 4) == 0x100000;
    ShiftNAdd(1, 20, 4);
    assert ShiftN(0x100000, 4) == 0x1000000;
    ShiftNAdd(1, 24, 4);
    assert ShiftN(0x1000000, 4) == 0x10000000;
    ShiftNAdd(1, 28, 4);
    assert ShiftN(0x10000000, 4) == GENERATOR;
  }

  lemma ShiftNZero(n: nat)
    ensures ShiftN(0, n) == 0
  {
    if n > 0 { ShiftNZero(n - 1); }
  }

  lemma FeedCommutes(r: bv32, bit: bool)
    ensures Feed(ShiftN(r, 32), bit) == ShiftN(BringDown(r, bit), 32)
  {
    var low: bv32 := if bit then 1 else 0;
    var high: bv32 := if bit then 0x80000000 else 0;
    assert Shift(high) == ShiftN(low, 32) by { PowerThirtyTwo(); ShiftNZero(32); }
    ShiftNXor(Shift(r), low, 32);
    ShiftXor(ShiftN(r, 32), high);
    assert ShiftN(Shift(r), 32) == Shift(ShiftN(r, 32)) by {
      ShiftNAdd(r, 1, 32);
      assert ShiftN(r, 1) == Shift(ShiftN(r, 0));
      assert ShiftN(r, 33) == Shift(ShiftN(r, 32));
    }
  }

  lemma {:induction false} FeedIsDivision(r: bv32, bits: seq<bool>)
    ensures FeedAll(ShiftN(r, 32), bits) == LongDivide(r, bits + Zeros(32))
    decreases |bits|
  {
    if bits == [] {
      assert bits + Zeros(32) == Zeros(32);
      DivideZeros(r, 32);
    } else {
      assert (bits + Zeros(32))[1..] == bits[1..] + Zeros(32);
      FeedCommutes(r, bits[0]);
      FeedIsDivision(BringDown(r, bits[0]), bits[1..]);
    }
  }

  /** Feeding the message in at the top computes the long-division remainder. */
  lemma FeedIsRemainder(data: seq<bv8>)
    ensures FeedAll(0, Bits(data)) == Remainder(data)
  {
    ShiftNZero(32);
    FeedIsDivision(0, Bits(data));
  }

  // ----- From one bit at a time to one byte at a time -----

  lemma SplitTop(y: bv32)
    ensures y == Xor(if Top(y) then 0x80000000 else 0, y & 0x7FFFFFFF)
    ensures Shift(y & 0x7FFFFFFF) == Shl(y)
  {}

  /** A pending value `y` waiting at the top gives up its leading bit. */
  lemma FeedPending(c: bv32, y: bv32)
    ensures Shift(Xor(c, y)) == Xor(Feed(c, Top(y)), Shl(y))
  {
    var t: bv32 := if Top(y) then 0x80000000 else 0;
    SplitTop(y);
    XorAssociates(c, t, y & 0x7FFFFFFF);
    ShiftXor(Xor(c, t), y & 0x7FFFFFFF);
  }

  function Pending(w: bv32, n: nat): bv32 { if n == 0 then w else Shl(Pending(w, n - 1)) }

  function TopBits(w: bv32, n: nat): seq<bool> { seq(n, k requires 0 <= k < n => Top(Pending(w, k))) }

  lemma {:induction false} FeedTopBits(c: bv32, w: bv32, n: nat)
    ensures Xor(FeedAll(c, TopBits(w, n)), Pending(w, n)) == ShiftN(Xor(c, w), n)
  {
    if n > 0 {
      FeedTopBits(c, w, n - 1);
      var d := FeedAll(c, TopBits(w, n - 1));
      assert TopBits(w, n) == TopBits(w, n - 1) + [Top(Pending(w, n - 1))];
      FeedPending(d, Pending(w, n - 1));
      FeedAllConcat(c, TopBits(w, n - 1), [Top(Pending(w, n - 1))]);
      assert FeedAll(d, [Top(Pending(w, n - 1))]) == Feed(d, Top(Pending(w, n - 1)));
    }
  }

  function Wide(b: bv8): bv32 { b as bv32 }

  function Up24(x: bv32): bv32 { x << 24 }

  /** The byte placed in the top eight coefficients. */
  function AtTop(b: bv8): bv32 { Up24(Wide(b)) }

  lemma PendingShl4(w: bv32)
    ensures Pending(w, 0) == w && Pending(w, 1) == w << 1 && Pending(w, 2) == w << 2
    ensures Pending(w, 3) == w << 3 && Pending(w, 4) == w << 4
  {}

  lemma ShlAgain(w: bv32)
    ensures Shl(w << 4) == w << 5 && Shl(w << 5) == w << 6 && Shl(w << 6) == w << 7 && Shl(w << 7) == w << 8
  {}

  lemma PendingShl(w: bv32)
    ensures Pending(w, 5) == w << 5 && Pending(w, 6) == w << 6
    ensures Pending(w, 7) == w << 7 && Pending(w, 8) == w << 8
  {
    PendingShl4(w);
    ShlAgain(w);
    assert Pending(w, 6) == Shl(Pending(w, 5));
    assert Pending(w, 8) == Shl(Pending(w, 7));
  }

  lemma ByteTops(b: bv8)
    ensures var w := AtTop(b);
            [Top(Pending(w, 0)), Top(Pending(w, 1)), Top(Pending(w, 2)), Top(Pending(w, 3)),
             Top(Pending(w, 4)), Top(Pending(w, 5)), Top(Pending(w, 6)), Top(Pending(w, 7))] == ByteBits(b)
    ensures Pending(AtTop(b), 8) == 0
  {
    PendingShl4(AtTop(b));
    PendingShl(AtTop(b));
  }

  lemma TopBitsEight(w: bv32)
    ensures TopBits(w, 8) ==
            [Top(Pending(w, 0)), Top(Pending(w, 1)), Top(Pending(w, 2)), Top(Pending(w, 3)),
             Top(Pending(w, 4)), Top(Pending(w, 5)), Top(Pending(w, 6)), Top(Pending(w, 7))]
  {}

  /** Feeding eight bits is one table lookup's worth of work. */
  lemma FeedByte(c: bv32, b: bv8)
    ensures FeedAll(c, ByteBits(b)) == ShiftN(Xor(c, AtTop(b)), 8)
  {
    ByteTops(b);
    TopBitsEight(AtTop(b));
    FeedTopBits(c, AtTop(b), 8);
    XorZero(FeedAll(c, ByteBits(b)));
  }

  function TableEntry(i: bv32): bv32 { ShiftN(Up24(i), 8) }

  /** The index used for the lookup: the register's top byte plus the message byte. */
  function Index(c: bv32, b: bv8): bv32 { Xor(High(c), Wide(b)) }

  function High(c: bv32): bv32 { c >> 24 }

  function Low(c: bv32): bv32 { c & 0xFFFFFF }

  function Up8(c: bv32): bv32 { c << 8 }

  lemma IndexInTable(c: bv32, b: bv8)
    ensures 0 <= Index(c, b) as int < 256
    ensures (Index(c, b) as int) as bv32 == Index(c, b)
  {}

  lemma ShiftClear(r: bv32)
    requires !Top(r)
    ensures Shift(r) == Shl(r)
  {
    XorZero(Shl(r));
  }

  lemma LowBits(l: bv32)
    requires l & 0xFF000000 == 0
    ensures !Top(l) && !Top(Pending(l, 1)) && !Top(Pending(l, 2)) && !Top(Pending(l, 3))
    ensures !Top(Pending(l, 4)) && !Top(Pending(l, 5)) && !Top(Pending(l, 6)) && !Top(Pending(l, 7))
    ensures Pending(l, 8) == l << 8
  {
    assert Pending(l, 1) == l << 1 && Pending(l, 2) == l << 2 && Pending(l, 3) == l << 3 && Pending(l, 4) == l << 4;
    assert Pending(l, 5) == l << 5 && Pending(l, 6) == l << 6 && Pending(l, 7) == l << 7;
  }

  lemma {:induction false} ShiftNClear(r: bv32, n: nat)
    requires forall k :: 0 <= k < n ==> !Top(Pending(r, k))
    ensures ShiftN(r, n) == Pending(r, n)
  {
    if n > 0 {
      ShiftNClear(r, n - 1);
      ShiftClear(Pending(r, n - 1));
    }
  }

  lemma LowUp(c: bv32)
    ensures Low(c) & 0xFF000000 == 0
    ensures Low(c) << 8 == Up8(c)
  {}

  lemma LowBytesShiftOut(c: bv32)
    ensures ShiftN(Low(c), 8) == Up8(c)
  {
    LowUp(c);
    LowBits(Low(c));
    ShiftNClear(Low(c), 8);
  }

  lemma Up24Xor(x: bv32, y: bv32)
    ensures Up24(Xor(x, y)) == Xor(Up24(x), Up24(y))
  {}

  lemma SplitLow(c: bv32)
    ensures c == Xor(Low(c), Up24(High(c)))
  {}

  lemma SplitRegister(c: bv32, b: bv8)
    ensures Xor(c, AtTop(b)) == Xor(Low(c), Up24(Index(c, b)))
  {
    Up24Xor(High(c), Wide(b));
    SplitLow(c);
    XorAssociates(Low(c), Up24(High(c)), AtTop(b));
  }

  lemma TableStep(c: bv32, b: bv8)
    ensures Xor(Up8(c), TableEntry(Index(c, b))) == FeedAll(c, ByteBits(b))
  {
    FeedByte(c, b);
    SplitRegister(c, b);
    ShiftNXor(Low(c), Up24(Index(c, b)), 8);
    LowBytesShiftOut(c);
  }

  // ----- The code -----

  function TableAt(i: int): bv32
    requires 0 <= i < 256
  {
    TableEntry(i as bv32)
  }

  predicate IsTable(t: seq<bv32>) {
    |t| == 256 && forall i :: 0 <= i < 256 ==> t[i] == TableAt(i)
  }

  lemma ShiftCases(r: bv32)
    ensures Shift(r) == if r & 0x80000000 != 0 then (r << 1) ^ 0x04C11DB7 else r << 1
  {
    XorZero(Shl(r));
  }

  /** recorder.go, init: the eight shifts behind one table entry. */
  method ComputeEntry(i: int) returns (r: bv32)
    requires 0 <= i < 256
    ensures r == TableAt(i)
  {
    r := Up24(i as bv32);
    for j := 0 to 8
      invariant r == ShiftN(Up24(i as bv32), j)
    {
      ShiftCases(r);
      if r & 0x80000000 != 0 {
        r := (r << 1) ^ 0x04C11DB7;
      } else {
        r := r << 1;
      }
    }
  }

  /** recorder.go, init: fills the lookup table in place. */
  method BuildTable() returns (table: array<bv32>)
    ensures fresh(table) && IsTable(table[..])
  {
    table := new bv32[256];
    for i := 0 to 256
      invariant forall k :: 0 <= k < i ==> table[k] == TableAt(k)
    {
      table[i] := ComputeEntry(i);
    }
  }

  /** recorder.go, oggCRC32: one lookup per byte. */
  method OggCrc32(data: seq<bv8>, table: seq<bv32>) returns (crc: bv32)
    requires IsTable(table)
    ensures crc == Remainder(data)
  {
    crc := 0;
    for i := 0 to |data|
      invariant crc == FeedAll(0, Bits(data[..i]))
    {
      var b := data[i];
      assert data[..i + 1][..i] == data[..i];
      FeedAllConcat(0, Bits(data[..i]), ByteBits(b));
      TableStep(crc, b);
      IndexInTable(crc, b);
      crc := Xor(Up8(crc), table[Index(crc, b) as int]);
    }
    assert data[..|data|] == data;
    FeedIsRemainder(data);
  }
}
