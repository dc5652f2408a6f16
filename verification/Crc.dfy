/**
 CRC-32 as both the wire protocol and the state file use it. The reference definition feeds
 one bit at a time through the reflected polynomial; the program's method is table driven.
 */
module Crc {
  import opened Words

  const POLYNOMIAL: nat := 0xEDB8_8320
  const ALL_ONES: nat := 0xFFFF_FFFF

  /** One shift of the register, as in `(c & 1) ? (0xEDB88320 ^ (c >> 1)) : (c >> 1)`. */
  function BitStep(c: nat): nat {
    if c % 2 == 1 then Xor(POLYNOMIAL, c / 2) else c / 2
  }

  function BitSteps(c: nat, k: nat): nat
    decreases k
  {
    if k == 0 then c else BitSteps(BitStep(c), k - 1)
  }

  /** The register after absorbing `data`, bit by bit. */
  function Absorb(crc: nat, data: Bytes): nat
    decreases |data|
  {
    if data == [] then crc else Absorb(BitSteps(Xor(crc, data[0]), 8), data[1..])
  }

  function Checksum(data: Bytes): nat {
    Xor(Absorb(ALL_ONES, data), ALL_ONES)
  }

  // ---- Algebra of one step ----

  lemma Pow2Values()
    ensures Pow2(8) == 256 && Pow2(31) == 0x8000_0000 && Pow2(32) == U32_SPAN
  {
    assert Pow2(4) == 16 && Pow2(8) == 256;
    Pow2Doubles(8);
    Pow2Doubles(16);
    assert Pow2(32) == 2 * Pow2(31);
  }

  lemma {:induction false} Pow2Doubles(k: nat)
    ensures Pow2(2 * k) == Pow2(k) * Pow2(k)
  {
    if k > 0 {
      Pow2Doubles(k - 1);
      assert Pow2(2 * k) == 2 * Pow2(2 * k - 1) == 4 * Pow2(2 * k - 2);
      assert Pow2(2 * (k - 1)) == Pow2(2 * k - 2);
      assert Pow2(k) * Pow2(k) == 4 * (Pow2(k - 1) * Pow2(k - 1));
    }
  }

  function Feedback(polynomial: nat, c: nat): nat { if c % 2 == 1 then polynomial else 0 }

  lemma FeedbackLinear(polynomial: nat, a: nat, b: nat)
    ensures Feedback(polynomial, Xor(a, b)) == Xor(Feedback(polynomial, a), Feedback(polynomial, b))
  {
    assert Xor(a, b) % 2 == if a % 2 == b % 2 then 0 else 1 by {
      XorUnfold(a, b);
      OddSum(a, b);
    }
    XorZero(polynomial);
    XorSelf(polynomial);
  }

  lemma OddSum(a: nat, b: nat)
    ensures (a + b) % 2 == if a % 2 == b % 2 then 0 else 1
  {
  }

  function BitStepWith(polynomial: nat, c: nat): nat {
    if c % 2 == 1 then Xor(polynomial, c / 2) else c / 2
  }

  lemma BitStepWithLinear(polynomial: nat, a: nat, b: nat)
    ensures BitStepWith(polynomial, Xor(a, b)) == Xor(BitStepWith(polynomial, a), BitStepWith(polynomial, b))
  {
    XorZero(a / 2);
    XorZero(b / 2);
    XorZero(Xor(a, b) / 2);
    XorUnfold(a, b);
    FeedbackLinear(polynomial, a, b);
    XorExchange(Feedback(polynomial, a), a / 2, Feedback(polynomial, b), b / 2);
  }

  lemma BitStepLinear(a: nat, b: nat)
    ensures BitStep(Xor(a, b)) == Xor(BitStep(a), BitStep(b))
  {
    BitStepWithLinear(POLYNOMIAL, a, b);
  }

  lemma {:induction false} BitStepsLinear(a: nat, b: nat, k: nat)
    ensures BitSteps(Xor(a, b), k) == Xor(BitSteps(a, k), BitSteps(b, k))
    decreases k
  {
    if k > 0 {
      BitStepLinear(a, b);
      BitStepsLinear(BitStep(a), BitStep(b), k - 1);
    }
  }

  lemma Doubled(q: nat, p: nat)
    ensures q * (2 * p) == 2 * (q * p)
  {
  }

  lemma EvenStep(h: nat)
    ensures BitStep(2 * h) == h
  {
  }

  /** Bits above the low k reach the bottom of the register after k steps, unchanged. */
  lemma {:induction false} HighBitsFall(q: nat, k: nat)
    ensures BitSteps(q * Pow2(k), k) == q
  {
    if k > 0 {
      hide BitStep;
      HighBitsFall(q, k - 1);
      Doubled(q, Pow2(k - 1));
      EvenStep(q * Pow2(k - 1));
    }
  }

  lemma XorHighByte(a: nat, b: nat)
    ensures Xor(a, b) / 16 == Xor(a / 16, b / 16)
  {
    XorUnfold(a, b);
    XorUnfold(a / 2, b / 2);
    XorUnfold(a / 4, b / 4);
    XorUnfold(a / 8, b / 8);
    Halves(a);
    Halves(b);
    Halves(Xor(a, b));
  }

  lemma Halves(x: nat)
    ensures x / 2 / 2 == x / 4 && x / 4 / 2 == x / 8 && x / 8 / 2 == x / 16 && x / 16 / 16 == x / 256
  {
  }

  /** What one table lookup computes. */
  function TableStep(crc: nat, b: U8): nat {
    Xor(BitSteps(Xor(crc, b) % 256, 8), crc / 256)
  }

  /** The table form advances the register exactly as eight single-bit steps do. */
  lemma TableStepIsEightBitSteps(crc: nat, b: U8)
    ensures TableStep(crc, b) == BitSteps(Xor(crc, b), 8)
  {
    var x := Xor(crc, b);
    assert x / 256 == crc / 256 by { HighByteKept(crc, b); }
    SplitRegister(x);
  }

  lemma HighByteKept(crc: nat, b: U8)
    ensures Xor(crc, b) / 256 == crc / 256
  {
    XorHighByte(crc, b);
    XorHighByte(crc / 16, b / 16);
    Halves(crc);
    Halves(Xor(crc, b));
    assert b / 16 / 16 == 0;
    XorZero(crc / 256);
  }

  lemma SplitRegister(x: nat)
    ensures BitSteps(x, 8) == Xor(BitSteps(x % 256, 8), x / 256)
  {
    var q, r := x / 256, x % 256;
    Pow2Values();
    XorOfParts(q, r, 8);
    assert x == Xor(q * Pow2(8), r);
    BitStepsLinear(q * Pow2(8), r, 8);
    HighBitsFall(q, 8);
    XorCommutes(q, BitSteps(r, 8));
  }

  // ---- Error detection ----

  lemma XorBound32(a: nat, b: nat)
    requires a < U32_SPAN && b < U32_SPAN
    ensures Xor(a, b) < U32_SPAN
  {
    Pow2Values();
    XorBound(a, b, 32);
  }

  /** A set low bit shows as a set top bit after the step. */
  lemma TopBit(h: nat)
    requires h < 0x8000_0000
    ensures 0x8000_0000 <= Xor(POLYNOMIAL, h) < U32_SPAN
  {
    var m := POLYNOMIAL - 0x8000_0000;
    Pow2Values();
    XorOfParts(1, m, 31);
    XorBound(m, h, 31);
    XorAssociates(0x8000_0000, m, h);
    XorOfParts(1, Xor(m, h), 31);
  }

  lemma BitStepBound(c: nat)
    requires c < U32_SPAN
    ensures BitStep(c) < U32_SPAN
  {
    TopBit(c / 2);
  }

  lemma BitStepInjective(a: nat, b: nat)
    requires a < U32_SPAN && b < U32_SPAN && a != b
    ensures BitStep(a) != BitStep(b)
  {
    TopBit(a / 2);
    TopBit(b / 2);
    if a % 2 == 1 && b % 2 == 1 && BitStep(a) == BitStep(b) {
      XorCancel(POLYNOMIAL, a / 2, b / 2);
      SameHalves(a, b);
    }
  }

  lemma {:induction false} BitStepsInjective(a: nat, b: nat, k: nat)
    requires a < U32_SPAN && b < U32_SPAN && a != b
    ensures BitSteps(a, k) != BitSteps(b, k)
    decreases k
  {
    if k > 0 {
      BitStepInjective(a, b);
      BitStepBound(a);
      BitStepBound(b);
      BitStepsInjective(BitStep(a), BitStep(b), k - 1);
    }
  }

  lemma {:induction false} BitStepsBound(c: nat, k: nat)
    requires c < U32_SPAN
    ensures BitSteps(c, k) < U32_SPAN
    decreases k
  {
    if k > 0 {
      BitStepBound(c);
      BitStepsBound(BitStep(c), k - 1);
    }
  }

  lemma {:induction false} AbsorbBound(crc: nat, data: Bytes)
    requires crc < U32_SPAN
    ensures Absorb(crc, data) < U32_SPAN
    decreases |data|
  {
    if data != [] {
      XorBound32(crc, data[0]);
      BitStepsBound(Xor(crc, data[0]), 8);
      AbsorbBound(BitSteps(Xor(crc, data[0]), 8), data[1..]);
    }
  }

  lemma ChecksumBound(data: Bytes)
    ensures Checksum(data) < U32_SPAN
  {
    AbsorbBound(ALL_ONES, data);
    XorBound32(Absorb(ALL_ONES, data), ALL_ONES);
  }

  /** Two different registers stay different however much common data follows. */
  lemma {:induction false} AbsorbInjective(x: nat, y: nat, data: Bytes)
    requires x < U32_SPAN && y < U32_SPAN && x != y
    ensures Absorb(x, data) != Absorb(y, data)
    decreases |data|
  {
    if data != [] {
      var b := data[0];
      if Xor(x, b) == Xor(y, b) {
        XorCommutes(x, b);
        XorCommutes(y, b);
        XorCancel(b, x, y);
      }
      XorBound32(x, b);
      XorBound32(y, b);
      BitStepsInjective(Xor(x, b), Xor(y, b), 8);
      BitStepsBound(Xor(x, b), 8);
      BitStepsBound(Xor(y, b), 8);
      AbsorbInjective(BitSteps(Xor(x, b), 8), BitSteps(Xor(y, b), 8), data[1..]);
    }
  }

  lemma {:induction false} AbsorbDetects(crc: nat, x: Bytes, y: Bytes, i: nat)
    requires crc < U32_SPAN && DifferOnlyAt(x, y, i)
    ensures Absorb(crc, x) != Absorb(crc, y)
    decreases i
  {
    var cx, cy := Xor(crc, x[0]), Xor(crc, y[0]);
    XorBound32(crc, x[0]);
    XorBound32(crc, y[0]);
    BitStepsBound(cx, 8);
    BitStepsBound(cy, 8);
    if i == 0 {
      if cx == cy { XorCancel(crc, x[0], y[0]); }
      BitStepsInjective(cx, cy, 8);
      assert x[1..] == y[1..];
      AbsorbInjective(BitSteps(cx, 8), BitSteps(cy, 8), x[1..]);
    } else {
      assert x[0] == y[0];
      AbsorbDetects(BitSteps(cx, 8), x[1..], y[1..], i - 1);
    }
  }

  ghost predicate DifferOnlyAt(x: Bytes, y: Bytes, i: nat) {
    && |x| == |y| && i < |x| && x[i] != y[i]
    && forall j :: 0 <= j < |x| && j != i ==> x[j] == y[j]
  }

  /** Every error confined to one byte changes the checksum. */
  lemma ChecksumDetectsOneByte(x: Bytes, y: Bytes, i: nat)
    requires DifferOnlyAt(x, y, i)
    ensures Checksum(x) != Checksum(y)
  {
    AbsorbDetects(ALL_ONES, x, y, i);
    if Checksum(x) == Checksum(y) {
      XorCommutes(Absorb(ALL_ONES, x), ALL_ONES);
      XorCommutes(Absorb(ALL_ONES, y), ALL_ONES);
      XorCancel(ALL_ONES, Absorb(ALL_ONES, x), Absorb(ALL_ONES, y));
    }
  }

  // ---- The table-driven computation ----

  lemma {:induction false} AbsorbSnoc(crc: nat, data: Bytes, b: U8)
    ensures Absorb(crc, data + [b]) == BitSteps(Xor(Absorb(crc, data), b), 8)
    decreases |data|
  {
    if data == [] {
      assert data + [b] == [b] && [b][1..] == [];
    } else {
      assert (data + [b])[1..] == data[1..] + [b];
      AbsorbSnoc(BitSteps(Xor(crc, data[0]), 8), data[1..], b);
    }
  }

  lemma {:induction false} BitStepsSnoc(c: nat, k: nat)
    ensures BitSteps(c, k + 1) == BitStep(BitSteps(c, k))
    decreases k
  {
    if k > 0 {
      BitStepsSnoc(BitStep(c), k - 1);
    }
  }

  /** The 256-entry table: eight shifts of every byte. */
  method MakeTable() returns (table: array<nat>)
    ensures fresh(table) && table.Length == 256 && forall j :: 0 <= j < 256 ==> table[j] == BitSteps(j, 8)
  {
    table := new nat[256];
    for i := 0 to 256
      invariant forall j :: 0 <= j < i ==> table[j] == BitSteps(j, 8)
    {
      var c := i;
      for k := 0 to 8
        invariant c == BitSteps(i, k)
        invariant forall j :: 0 <= j < i ==> table[j] == BitSteps(j, 8)
      {
        BitStepsSnoc(i, k);
        c := if c % 2 == 1 then Xor(POLYNOMIAL, c / 2) else c / 2;
      }
      table[i] := c;
    }
  }

  /** Fold the table over the data: equal to the bit-by-bit checksum. */
  method Crc32(data: Bytes) returns (crc: nat)
    ensures crc == Checksum(data)
  {
    var table := MakeTable();
    hide BitSteps, Xor;
    crc := ALL_ONES;
    for i := 0 to |data|
      invariant crc == Absorb(ALL_ONES, data[..i])
      invariant forall j :: 0 <= j < 256 ==> table[j] == BitSteps(j, 8)
    {
      TableStepIsEightBitSteps(crc, data[i]);
      AbsorbSnoc(ALL_ONES, data[..i], data[i]);
      assert data[..i] + [data[i]] == data[..i + 1];
      crc := Xor(table[Xor(crc, data[i]) % 256], crc / 256);
    }
    assert data[..|data|] == data;
    crc := Xor(crc, ALL_ONES);
  }
}
