/** Finding the first non-empty ready queue from a bit mask (kernel/TaskQueue.c). */
module ReadyMask {

  const DE_BRUIJN: bv32 := 0x077CB531

  /** MultiplyDeBruijnBitPosition[i] */
  function PositionAt(i: bv5): nat
  {
    match i
    case 0 => 0 case 1 => 1 case 2 => 28 case 3 => 2
    case 4 => 29 case 5 => 14 case 6 => 24 case 7 => 3
    case 8 => 30 case 9 => 22 case 10 => 20 case 11 => 15
    case 12 => 25 case 13 => 17 case 14 => 4 case 15 => 8
    case 16 => 31 case 17 => 27 case 18 => 13 case 19 => 23
    case 20 => 21 case 21 => 19 case 22 => 16 case 23 => 7
    case 24 => 26 case 25 => 12 case 26 => 18 case 27 => 6
    case 28 => 11 case 29 => 5 case 30 => 10 case _ => 9
  }

  /** 1 << p */
  function Bit(p: nat): bv32
    requires p < 32
  {
    if p == 0 then 1 else Bit(p - 1) << 1
  }

  predicate Meets(mask: bv32, bits: bv32)
  {
    mask & bits != 0
  }

  predicate IsSet(mask: bv32, p: nat)
    requires p < 32
  {
    Meets(mask, Bit(p))
  }

  /** (bit * 0x077CB531U) >> 27 */
  function Hash(bit: bv32): bv5
  {
    ((bit * DE_BRUIJN) >> 27) as bv5
  }

  function PositionOf(bit: bv32): nat
  {
    PositionAt(Hash(bit))
  }

  /** MultiplyDeBruijnBitPosition[((mask & -mask) * 0x077CB531U) >> 27] */
  function Position(mask: bv32): nat
  {
    PositionOf(mask & (0 - mask))
  }

  // ---- single bits ----

  lemma BitValues()
    ensures Bit(0) == 0x1
    ensures Bit(1) == 0x2
    ensures Bit(2) == 0x4
    ensures Bit(3) == 0x8
    ensures Bit(4) == 0x10
    ensures Bit(5) == 0x20
    ensures Bit(6) == 0x40
    ensures Bit(7) == 0x80
    ensures Bit(8) == 0x100
    ensures Bit(9) == 0x200
    ensures Bit(10) == 0x400
    ensures Bit(11) == 0x800
    ensures Bit(12) == 0x1000
    ensures Bit(13) == 0x2000
    ensures Bit(14) == 0x4000
    ensures Bit(15) == 0x8000
    ensures Bit(16) == 0x10000
    ensures Bit(17) == 0x20000
    ensures Bit(18) == 0x40000
    ensures Bit(19) == 0x80000
    ensures Bit(20) == 0x100000
    ensures Bit(21) == 0x200000
    ensures Bit(22) == 0x400000
    ensures Bit(23) == 0x800000
    ensures Bit(24) == 0x1000000
    ensures Bit(25) == 0x2000000
    ensures Bit(26) == 0x4000000
    ensures Bit(27) == 0x8000000
    ensures Bit(28) == 0x10000000
    ensures Bit(29) == 0x20000000
    ensures Bit(30) == 0x40000000
    ensures Bit(31) == 0x80000000
  {
    assert Bit(0) == 0x1;
    assert Bit(1) == 0x2;
    assert Bit(2) == 0x4;
    assert Bit(3) == 0x8;
    assert Bit(4) == 0x10;
    assert Bit(5) == 0x20;
    assert Bit(6) == 0x40;
    assert Bit(7) == 0x80;
    assert Bit(8) == 0x100;
    assert Bit(9) == 0x200;
    assert Bit(10) == 0x400;
    assert Bit(11) == 0x800;
    assert Bit(12) == 0x1000;
    assert Bit(13) == 0x2000;
    assert Bit(14) == 0x4000;
    assert Bit(15) == 0x8000;
    assert Bit(16) == 0x10000;
    assert Bit(17) == 0x20000;
    assert Bit(18) == 0x40000;
    assert Bit(19) == 0x80000;
    assert Bit(20) == 0x100000;
    assert Bit(21) == 0x200000;
    assert Bit(22) == 0x400000;
    assert Bit(23) == 0x800000;
    assert Bit(24) == 0x1000000;
    assert Bit(25) == 0x2000000;
    assert Bit(26) == 0x4000000;
    assert Bit(27) == 0x8000000;
    assert Bit(28) == 0x10000000;
    assert Bit(29) == 0x20000000;
    assert Bit(30) == 0x40000000;
    assert Bit(31) == 0x80000000;
  }

  lemma ShiftPast(x: bv32, m: bv32)
    requires m & (m + 1) == 0 && x & m == 0
    ensures (x << 1) & m == 0
  {
  }

  /** Bit p has all its lower bits below it. */
  lemma SingleBit(p: nat)
    requires p < 32
    ensures Bit(p) != 0 && Bit(p) & (Bit(p) - 1) == 0
  {
    BitValues();
  }

  lemma Above(b: bv32)
    requires b != 0 && b & (b - 1) == 0
    ensures (b << 1) & (b | (b - 1)) == 0
  {
  }

  lemma Within(x: bv32, b: bv32)
    requires x & (b | (b - 1)) == 0
    ensures x & b == 0 && b & x == 0
  {
  }

  /** A higher bit is none of the bits up to a lower one. */
  lemma {:induction false} HigherApart(p: nat, q: nat)
    requires p < q < 32
    ensures Bit(q) & (Bit(p) | (Bit(p) - 1)) == 0
    decreases q
  {
    SingleBit(p);
    if q == p + 1 {
      Above(Bit(p));
    } else {
      HigherApart(p, q - 1);
      ShiftPast(Bit(q - 1), Bit(p) | (Bit(p) - 1));
    }
  }

  /** Different bits have nothing in common. */
  lemma Apart(p: nat, q: nat)
    requires p < 32 && q < 32 && p != q
    ensures Bit(p) & Bit(q) == 0
  {
    if p < q {
      HigherApart(p, q);
      Within(Bit(q), Bit(p));
    } else {
      HigherApart(q, p);
      Within(Bit(p), Bit(q));
    }
  }

  /** p and q name the same bit, or their bits have nothing in common. */
  lemma SameOrApart(p: nat, q: nat)
    requires p < 32 && q < 32
    ensures Bit(p) != 0 && (p == q || Bit(p) & Bit(q) == 0)
  {
    SingleBit(p);
    if p != q {
      Apart(p, q);
    }
  }

  lemma OrSame(m: bv32, b: bv32)
    requires b != 0
    ensures Meets(m | b, b)
  {
  }

  lemma OrApart(m: bv32, b: bv32, c: bv32)
    requires b & c == 0
    ensures Meets(m | b, c) <==> Meets(m, c)
  {
    assert (m | b) & c == m & c;
  }

  lemma AndNotSame(m: bv32, b: bv32)
    ensures !Meets(m & !b, b)
  {
  }

  lemma AndNotApart(m: bv32, b: bv32, c: bv32)
    requires b & c == 0
    ensures Meets(m & !b, c) <==> Meets(m, c)
  {
    assert (m & !b) & c == m & c;
  }

  // In these two, b and c stand for bits p and q.

  /** queueFullMask |= 1 << p */
  lemma SetOne(mask: bv32, p: nat, q: nat, b: bv32, c: bv32)
    requires p < 32 && q < 32 && b == Bit(p) && c == Bit(q) && b != 0 && (p == q || b & c == 0)
    ensures IsSet(mask | b, q) <==> p == q || IsSet(mask, q)
  {
    if p == q {
      OrSame(mask, b);
    } else {
      OrApart(mask, b, c);
    }
  }

  /** queueFullMask &= ~(1 << p) */
  lemma ClearOne(mask: bv32, p: nat, q: nat, b: bv32, c: bv32)
    requires p < 32 && q < 32 && b == Bit(p) && c == Bit(q) && (p == q || b & c == 0)
    ensures IsSet(mask & !b, q) <==> p != q && IsSet(mask, q)
  {
    if p == q {
      AndNotSame(mask, b);
    } else {
      AndNotApart(mask, b, c);
    }
  }

  // ---- the lowest bit ----

  /** One more bit below; b stands for bit p - 1 and c for bit p. */
  lemma OneMoreClear(mask: bv32, p: nat, b: bv32, c: bv32)
    requires 0 < p < 32 && b == Bit(p - 1) && c == Bit(p) && b != 0 && b & (b - 1) == 0
    requires !IsSet(mask, p - 1) && mask & (b - 1) == 0
    ensures mask & (c - 1) == 0
  {
    ShiftBelow(mask, b);
  }

  lemma {:induction false} BelowIsClear(mask: bv32, p: nat, c: bv32)
    requires p < 32 && c == Bit(p) && forall q :: 0 <= q < p ==> !IsSet(mask, q)
    ensures mask & (c - 1) == 0
  {
    if p > 0 {
      var b := Bit(p - 1);
      BelowIsClear(mask, p - 1, b);
      SingleBit(p - 1);
      OneMoreClear(mask, p, b, c);
    }
  }

  lemma ShiftBelow(m: bv32, b: bv32)
    requires b & (b - 1) == 0 && b != 0 && m & (b - 1) == 0 && m & b == 0
    ensures m & ((b << 1) - 1) == 0
  {
  }

  lemma Isolated(m: bv32, b: bv32)
    requires b != 0 && b & (b - 1) == 0 && m & b != 0 && m & (b - 1) == 0
    ensures m & (0 - m) == b
  {
  }

  lemma Positions0To7()
    ensures PositionOf(0x1) == 0
    ensures PositionOf(0x2) == 1
    ensures PositionOf(0x4) == 2
    ensures PositionOf(0x8) == 3
    ensures PositionOf(0x10) == 4
    ensures PositionOf(0x20) == 5
    ensures PositionOf(0x40) == 6
    ensures PositionOf(0x80) == 7
  {
  }

  lemma Positions8To15()
    ensures PositionOf(0x100) == 8
    ensures PositionOf(0x200) == 9
    ensures PositionOf(0x400) == 10
    ensures PositionOf(0x800) == 11
    ensures PositionOf(0x1000) == 12
    ensures PositionOf(0x2000) == 13
    ensures PositionOf(0x4000) == 14
    ensures PositionOf(0x8000) == 15
  {
  }

  lemma Positions16To23()
    ensures PositionOf(0x10000) == 16
    ensures PositionOf(0x20000) == 17
    ensures PositionOf(0x40000) == 18
    ensures PositionOf(0x80000) == 19
    ensures PositionOf(0x100000) == 20
    ensures PositionOf(0x200000) == 21
    ensures PositionOf(0x400000) == 22
    ensures PositionOf(0x800000) == 23
  {
  }

  lemma Positions24To31()
    ensures PositionOf(0x1000000) == 24
    ensures PositionOf(0x2000000) == 25
    ensures PositionOf(0x4000000) == 26
    ensures PositionOf(0x8000000) == 27
    ensures PositionOf(0x10000000) == 28
    ensures PositionOf(0x20000000) == 29
    ensures PositionOf(0x40000000) == 30
    ensures PositionOf(0x80000000) == 31
  {
  }

  /** The table undoes the hash of every single bit. */
  lemma PositionOfBit(p: nat, b: bv32)
    requires p < 32 && b == Bit(p)
    ensures PositionOf(b) == p
  {
    BitValues();
    if p < 8 {
      Positions0To7();
    } else if p < 16 {
      Positions8To15();
    } else if p < 24 {
      Positions16To23();
    } else {
      Positions24To31();
    }
  }

  lemma Lowest(mask: bv32, p: nat, b: bv32)
    requires p < 32 && b == Bit(p) && mask & b != 0 && mask & (b - 1) == 0 && b != 0 && b & (b - 1) == 0
    ensures Position(mask) == p
  {
    Isolated(mask, b);
    PositionOfBit(p, b);
  }

  lemma LowestBitIs(mask: bv32, p: nat, b: bv32)
    requires p < 32 && b == Bit(p) && IsSet(mask, p) && forall q :: 0 <= q < p ==> !IsSet(mask, q)
    ensures Position(mask) == p
  {
    BelowIsClear(mask, p, b);
    SingleBit(p);
    Lowest(mask, p, b);
  }

  /** The lowest set bit of the mask. */
  lemma LowestBit(mask: bv32, p: nat)
    requires p < 32 && IsSet(mask, p) && forall q :: 0 <= q < p ==> !IsSet(mask, q)
    ensures Position(mask) == p
  {
    LowestBitIs(mask, p, Bit(p));
  }

  lemma NoneSet(p: nat)
    requires p < 32
    ensures !IsSet(0, p)
  {
  }

  lemma AllClear(mask: bv32)
    requires forall q :: 0 <= q < 32 ==> !IsSet(mask, q)
    ensures mask == 0
  {
    BelowIsClear(mask, 31, Bit(31));
    BitValues();
    assert !IsSet(mask, 31);
    NothingLeft(mask, Bit(31));
  }

  lemma NothingLeft(m: bv32, b: bv32)
    requires b == 0x8000_0000 && m & (b - 1) == 0 && !Meets(m, b)
    ensures m == 0
  {
  }

  /** Without any bit set, the answer is queue 0. */
  lemma NoBit()
    ensures Position(0) == 0
  {
    assert (0 as bv32) & (0 - (0 as bv32)) == 0;
    assert Hash(0) == 0;
  }
}
