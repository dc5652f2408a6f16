/**
 Damage of up to 32 consecutive bits. Feeding a message into the register is shifting it, as one
 number, past the low end; so a burst moves through the register as a single 32-bit word.
 */
module Bursts {
  import opened Words
  import opened Crc

  // ---- A message is one shift ----

  lemma {:induction false} BitStepsAdd(c: nat, j: nat, k: nat)
    ensures BitSteps(c, j + k) == BitSteps(BitSteps(c, j), k)
    decreases j
  {
    if j > 0 { BitStepsAdd(BitStep(c), j - 1, k); }
  }

  lemma ByteThenRest(b: U8, n: nat)
    ensures Xor(b, n * 256) == b + 256 * n
  {
    Pow2Values();
    XorOfParts(n, b, 8);
    XorCommutes(b, n * 256);
  }

  lemma ByteFalls(n: nat)
    ensures BitSteps(n * 256, 8) == n
  {
    Pow2Values();
    HighBitsFall(n, 8);
    hide BitSteps, Pow2;
  }

  lemma ShiftOneByte(crc: nat, b: U8, n: nat)
    ensures BitSteps(Xor(crc, b + 256 * n), 8) == Xor(BitSteps(Xor(crc, b), 8), n)
  {
    hide BitSteps, Xor;
    ByteFalls(n);
    ByteThenRest(b, n);
    XorAssociates(crc, b, n * 256);
    BitStepsLinear(Xor(crc, b), n * 256, 8);
  }

  lemma FirstByte(data: Bytes)
    requires data != []
    ensures FromLittleEndian(data) == data[0] + 256 * FromLittleEndian(data[1..])
  {
  }

  /** Absorbing bytes one by one is absorbing their little-endian number in one go. */
  lemma {:induction false} AbsorbIsShift(crc: nat, data: Bytes)
    ensures Absorb(crc, data) == BitSteps(Xor(crc, FromLittleEndian(data)), 8 * |data|)
    decreases |data|
  {
    if data == [] {
      XorZero(crc);
    } else {
      hide BitSteps, Xor, FromLittleEndian, Span;
      AbsorbIsShift(BitSteps(Xor(crc, data[0]), 8), data[1..]);
      FirstByte(data);
      ShiftOneByte(crc, data[0], FromLittleEndian(data[1..]));
      BitStepsAdd(Xor(crc, FromLittleEndian(data)), 8, 8 * |data[1..]|);
      assert 8 + 8 * |data[1..]| == 8 * |data|;
    }
  }

  lemma {:induction false} BitStepsZero(k: nat)
    ensures BitSteps(0, k) == 0
  {
    if k > 0 { BitStepsZero(k - 1); }
  }

  // ---- Bursts ----

  /** The messages differ in the bits of `w`, which starts at bit `at`, low bit of the first byte first. */
  predicate Burst(x: Bytes, y: Bytes, at: nat, w: nat) {
    |x| == |y| && 0 < w < U32_SPAN && Xor(FromLittleEndian(x), FromLittleEndian(y)) == w * Pow2(at)
  }

  lemma {:induction false} SpanIsPow2(n: nat)
    ensures Span(n) == Pow2(8 * n)
  {
    if n > 0 {
      SpanIsPow2(n - 1);
      Pow2Sum(8, 8 * (n - 1));
      Pow2Values();
    }
  }

  lemma {:induction false} Pow2Sum(j: nat, k: nat)
    ensures Pow2(j + k) == Pow2(j) * Pow2(k)
    decreases j
  {
    if j > 0 {
      Pow2Sum(j - 1, k);
      assert Pow2(j + k) == 2 * (Pow2(j - 1) * Pow2(k));
    }
  }

  lemma {:induction false} Pow2Monotone(j: nat, k: nat)
    requires j <= k
    ensures Pow2(j) <= Pow2(k)
    decreases k
  {
    if j < k { Pow2Monotone(j, k - 1); }
  }

  lemma AtLeast(w: nat, p: nat)
    requires w > 0
    ensures w * p >= p
  {
  }

  lemma BurstWithin(x: Bytes, y: Bytes, at: nat, w: nat)
    requires Burst(x, y, at, w)
    ensures at < 8 * |x|
  {
    SpanIsPow2(|x|);
    XorBound(FromLittleEndian(x), FromLittleEndian(y), 8 * |x|);
    AtLeast(w, Pow2(at));
    if 8 * |x| <= at { Pow2Monotone(8 * |x|, at); }
  }

  /** However many steps follow, a word shifted in from above the register's low end does not vanish. */
  lemma WordSurvives(w: nat, at: nat, k: nat)
    requires 0 < w < U32_SPAN && at <= k
    ensures BitSteps(w * Pow2(at), k) != 0
  {
    BitStepsAdd(w * Pow2(at), at, k - at);
    HighBitsFall(w, at);
    BitStepsInjective(w, 0, k - at);
    BitStepsZero(k - at);
  }

  /** Every error confined to 32 consecutive bits changes the checksum. */
  lemma ChecksumDetectsBurst(x: Bytes, y: Bytes, at: nat, w: nat)
    requires Burst(x, y, at, w)
    ensures Checksum(x) != Checksum(y)
  {
    var m, n, k := FromLittleEndian(x), FromLittleEndian(y), 8 * |x|;
    BurstWithin(x, y, at, w);
    WordSurvives(w, at, k);
    AbsorbIsShift(ALL_ONES, x);
    AbsorbIsShift(ALL_ONES, y);
    hide BitSteps, Absorb, Xor, FromLittleEndian;
    XorExchange(ALL_ONES, m, ALL_ONES, n);
    XorSelf(ALL_ONES);
    XorZero(Xor(m, n));
    BitStepsLinear(Xor(ALL_ONES, m), Xor(ALL_ONES, n), k);
    if Checksum(x) == Checksum(y) {
      XorCommutes(Absorb(ALL_ONES, x), ALL_ONES);
      XorCommutes(Absorb(ALL_ONES, y), ALL_ONES);
      XorCancel(ALL_ONES, Absorb(ALL_ONES, x), Absorb(ALL_ONES, y));
      XorSelf(Absorb(ALL_ONES, x));
    }
  }

  // ---- Bytes ----

  /** The messages differ, and only within the `n` bytes from `i` on. */
  predicate DifferWithin(x: Bytes, y: Bytes, i: nat, n: nat) {
    |x| == |y| && i + n <= |x| && x != y && x[..i] == y[..i] && x[i + n..] == y[i + n..]
  }


  lemma XorTwice(c: nat, d: nat)
    ensures Xor(2 * c, 2 * d) == 2 * Xor(c, d)
  {
    XorDoubled(c, 2 * d);
  }

  lemma ScaledTwice(a: nat, b: nat, x: nat, p: nat)
    requires Xor(a * p, b * p) == x * p
    ensures Xor(a * (2 * p), b * (2 * p)) == x * (2 * p)
  {
    hide Xor;
    Doubled(a, p);
    Doubled(b, p);
    Doubled(x, p);
    XorTwice(a * p, b * p);
  }

  lemma {:induction false} XorScaled(a: nat, b: nat, k: nat)
    ensures Xor(a * Pow2(k), b * Pow2(k)) == Xor(a, b) * Pow2(k)
    decreases k
  {
    if k > 0 {
      hide Xor;
      XorScaled(a, b, k - 1);
      ScaledTwice(a, b, Xor(a, b), Pow2(k - 1));
    }
  }

  lemma ConcatLittleEndian(a: Bytes, b: Bytes)
    ensures FromLittleEndian(a + b) == Xor(FromLittleEndian(b) * Pow2(8 * |a|), FromLittleEndian(a))
  {
    SpanIsPow2(|a|);
    hide Pow2, Xor, Span;
    ConcatSum(a, b);
    XorOfParts(FromLittleEndian(b), FromLittleEndian(a), 8 * |a|);
  }

  lemma Regroup(m: nat, p: nat, r: nat)
    ensures 256 * (m * p + r) == m * (256 * p) + 256 * r
  {
  }

  lemma {:induction false} ConcatSum(a: Bytes, b: Bytes)
    ensures FromLittleEndian(a + b) == FromLittleEndian(b) * Span(|a|) + FromLittleEndian(a)
    decreases |a|
  {
    if a == [] {
      assert a + b == b;
    } else {
      ConcatSum(a[1..], b);
      assert (a + b)[1..] == a[1..] + b;
      Regroup(FromLittleEndian(b), Span(|a| - 1), FromLittleEndian(a[1..]));
    }
  }

  lemma XorCommon(a: nat, b: nat, c: nat)
    ensures Xor(Xor(a, c), Xor(b, c)) == Xor(a, b) == Xor(Xor(c, a), Xor(c, b))
  {
    XorExchange(a, c, b, c);
    XorExchange(c, a, c, b);
    XorSelf(c);
    XorZero(Xor(a, b));
  }

  /** A common start only shifts the difference up, and a common end does not touch it. */
  lemma CommonStart(a: Bytes, x: Bytes, y: Bytes)
    ensures Xor(FromLittleEndian(a + x), FromLittleEndian(a + y)) == Xor(FromLittleEndian(x), FromLittleEndian(y)) * Pow2(8 * |a|)
  {
    hide Xor, FromLittleEndian, Pow2;
    var m, n, p := FromLittleEndian(x), FromLittleEndian(y), Pow2(8 * |a|);
    ConcatLittleEndian(a, x);
    ConcatLittleEndian(a, y);
    XorCommon(m * p, n * p, FromLittleEndian(a));
    XorScaled(m, n, 8 * |a|);
  }

  lemma CommonEnd(x: Bytes, y: Bytes, b: Bytes)
    requires |x| == |y|
    ensures Xor(FromLittleEndian(x + b), FromLittleEndian(y + b)) == Xor(FromLittleEndian(x), FromLittleEndian(y))
  {
    hide Xor, FromLittleEndian, Pow2;
    ConcatLittleEndian(x, b);
    ConcatLittleEndian(y, b);
    XorCommon(FromLittleEndian(x), FromLittleEndian(y), FromLittleEndian(b) * Pow2(8 * |x|));
  }

  lemma DifferentWords(x: Bytes, y: Bytes)
    requires |x| == |y| <= 4 && x != y
    ensures 0 < Xor(FromLittleEndian(x), FromLittleEndian(y)) < U32_SPAN
  {
    WordsDiffer(x, y);
    var m, n := FromLittleEndian(x), FromLittleEndian(y);
    SpanIsPow2(|x|);
    Pow2Monotone(8 * |x|, 32);
    Pow2Values();
    XorBound(m, n, 32);
    XorSelf(m);
    if Xor(m, n) == 0 { XorCancel(m, m, n); }
  }

  /** Damage behind a common header is damage to what follows the header. */
  lemma BehindHeader(h: Bytes, x: Bytes, b: Bytes, i: nat, n: nat)
    requires DifferWithin(h + x, b, i, n) && |h| <= i
    ensures |h| <= |b| && b[..|h|] == h && DifferWithin(x, b[|h|..], i - |h|, n)
  {
    var whole, y, j := h + x, b[|h|..], i - |h|;
    assert b[..|h|] == b[..i][..|h|] && h == whole[..i][..|h|];
    assert x[..j] == whole[..i][|h|..] && y[..j] == b[..i][|h|..];
    assert x[j + n..] == whole[i + n..] && y[j + n..] == b[i + n..];
    assert b == b[..|h|] + y;
  }

  /** Four damaged bytes in a row are one burst. */
  lemma FourBytesAreABurst(x: Bytes, y: Bytes, i: nat, n: nat)
    requires DifferWithin(x, y, i, n) && n <= 4
    ensures Burst(x, y, 8 * i, Xor(FromLittleEndian(x[i..i + n]), FromLittleEndian(y[i..i + n])))
  {
    var a, m, m', b := x[..i], x[i..i + n], y[i..i + n], x[i + n..];
    assert x == a + (m + b) && y == a + (m' + b);
    CommonStart(a, m + b, m' + b);
    CommonEnd(m, m', b);
    DifferentWords(m, m');
  }

  /** Damage confined to four consecutive bytes always changes the checksum. */
  lemma ChecksumDetectsFourBytes(x: Bytes, y: Bytes, i: nat, n: nat)
    requires DifferWithin(x, y, i, n) && n <= 4
    ensures Checksum(x) != Checksum(y)
  {
    FourBytesAreABurst(x, y, i, n);
    hide Burst;
    ChecksumDetectsBurst(x, y, 8 * i, Xor(FromLittleEndian(x[i..i + n]), FromLittleEndian(y[i..i + n])));
  }
}
