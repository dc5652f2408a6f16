/**
 The checksum as arithmetic on polynomials over the two-element field, as section 3.2.9 of IEEE Std 802.3
 defines it. A number stands for a polynomial: bit e is the coefficient of x^e, so that exclusive-or adds
 and doubling multiplies by x.
 */
module Polynomials {
  import opened Words
  import opened Crc

  /** x^32 + x^26 + x^23 + x^22 + x^16 + x^12 + x^11 + x^10 + x^8 + x^7 + x^5 + x^4 + x^2 + x + 1 */
  function Generator(): nat {
    Pow2(32) + Pow2(26) + Pow2(23) + Pow2(22) + Pow2(16) + Pow2(12) + Pow2(11) + Pow2(10)
    + Pow2(8) + Pow2(7) + Pow2(5) + Pow2(4) + Pow2(2) + Pow2(1) + Pow2(0)
  }

  /** The product with x^k. */
  function Raised(p: nat, k: nat): nat { if k == 0 then p else 2 * Raised(p, k - 1) }

  /** The product of two polynomials. */
  function Times(p: nat, q: nat): nat
    decreases q
  {
    if q == 0 then 0 else Xor(Feedback(p, q), 2 * Times(p, q / 2))
  }

  /** The polynomials differ by a multiple of the generator. */
  ghost predicate Congruent(p: nat, r: nat) { exists q: nat :: p == Xor(r, Times(Generator(), q)) }

  /** The low k bits in reverse order. */
  function Mirror(c: nat, k: nat): nat
    decreases k
  {
    if k == 0 then 0 else Feedback(Pow2(k - 1), c) + Mirror(c / 2, k - 1)
  }

  /** The message as sent: bytes in order, each lowest bit first, the first bit with the highest power. */
  function Message(data: Bytes): nat {
    if data == [] then 0 else
      var n := |data| - 1;
      Raised(Message(data[..n]), 8) + Mirror(data[n], 8)
  }

  // ---- Products ----

  lemma {:induction false} TimesXor(p: nat, a: nat, b: nat)
    ensures Times(p, Xor(a, b)) == Xor(Times(p, a), Times(p, b))
    decreases a + b
  {
    if a == 0 || b == 0 {
      XorZero(a);
      XorZero(b);
      XorZero(Times(p, a));
      XorZero(Times(p, b));
    } else {
      hide Xor, Times, Feedback;
      TimesXor(p, a / 2, b / 2);
      XorUnfold(a, b);
      FeedbackLinear(p, a, b);
      TwiceXor(Times(p, a / 2), Times(p, b / 2));
      XorExchange(Feedback(p, a), 2 * Times(p, a / 2), Feedback(p, b), 2 * Times(p, b / 2));
      TimesUnfold(p, a);
      TimesUnfold(p, b);
      TimesUnfold(p, Xor(a, b));
    }
  }

  lemma TwiceXor(a: nat, b: nat)
    ensures Xor(2 * a, 2 * b) == 2 * Xor(a, b)
  {
    XorDoubled(a, 2 * b);
  }

  lemma TimesUnfold(p: nat, q: nat)
    ensures Times(p, q) == Xor(Feedback(p, q), 2 * Times(p, q / 2))
  {
    if q == 0 { XorZero(0); }
  }

  lemma {:induction false} RaisedXor(a: nat, b: nat, k: nat)
    ensures Raised(Xor(a, b), k) == Xor(Raised(a, k), Raised(b, k))
  {
    if k > 0 {
      hide Xor;
      RaisedXor(a, b, k - 1);
      TwiceXor(Raised(a, k - 1), Raised(b, k - 1));
    }
  }

  lemma {:induction false} TimesRaised(p: nat, q: nat, k: nat)
    ensures Times(p, Raised(q, k)) == Raised(Times(p, q), k)
  {
    if k > 0 {
      hide Xor;
      var h := Raised(q, k - 1);
      TimesRaised(p, q, k - 1);
      TimesUnfold(p, 2 * h);
      assert (2 * h) % 2 == 0 && (2 * h) / 2 == h;
      XorZero(2 * Times(p, h));
    }
  }

  // ---- Congruence ----

  lemma CongruentBy(p: nat, r: nat, q: nat)
    requires p == Xor(r, Times(Generator(), q))
    ensures Congruent(p, r)
  {
  }

  lemma CongruentSelf(p: nat)
    ensures Congruent(p, p)
  {
    XorZero(p);
    CongruentBy(p, p, 0);
  }

  lemma CongruentTransitive(p: nat, q: nat, r: nat)
    requires Congruent(p, q) && Congruent(q, r)
    ensures Congruent(p, r)
  {
    hide Xor, Times, Generator;
    var a: nat :| p == Xor(q, Times(Generator(), a));
    var b: nat :| q == Xor(r, Times(Generator(), b));
    TimesXor(Generator(), b, a);
    XorAssociates(r, Times(Generator(), b), Times(Generator(), a));
    CongruentBy(p, r, Xor(b, a));
  }

  lemma CongruentPlus(p: nat, q: nat, r: nat)
    requires Congruent(p, q)
    ensures Congruent(Xor(p, r), Xor(q, r))
  {
    hide Xor, Times, Generator;
    var a: nat :| p == Xor(q, Times(Generator(), a));
    XorAssociates(q, Times(Generator(), a), r);
    XorCommutes(Times(Generator(), a), r);
    XorAssociates(q, r, Times(Generator(), a));
    CongruentBy(Xor(p, r), Xor(q, r), a);
  }

  lemma CongruentRaised(p: nat, q: nat, k: nat)
    requires Congruent(p, q)
    ensures Congruent(Raised(p, k), Raised(q, k))
  {
    hide Xor, Times, Generator, Raised;
    var a: nat :| p == Xor(q, Times(Generator(), a));
    TimesRaised(Generator(), a, k);
    RaisedXor(q, Times(Generator(), a), k);
    CongruentBy(Raised(p, k), Raised(q, k), Raised(a, k));
  }

  lemma XorLarge(low: nat, high: nat, k: nat)
    requires low < Pow2(k) <= high
    ensures Xor(low, high) >= Pow2(k)
  {
    XorAssociates(low, low, high);
    XorSelf(low);
    XorZero(high);
    if Xor(low, high) < Pow2(k) { XorBound(low, Xor(low, high), k); }
  }

  /** A non-zero multiple of a polynomial is at least of its degree. */
  lemma {:induction false} MultipleIsHigh(p: nat, q: nat, k: nat)
    requires Pow2(k) <= p < Pow2(k + 1) && q > 0
    ensures Times(p, q) >= Pow2(k)
    decreases q
  {
    XorZero(p);
    XorZero(2 * Times(p, q / 2));
    if q / 2 > 0 {
      MultipleIsHigh(p, q / 2, k);
      XorLarge(p, 2 * Times(p, q / 2), k + 1);
    }
  }

  // ---- Mirrors ----

  lemma {:induction false} MirrorBound(c: nat, k: nat)
    ensures Mirror(c, k) < Pow2(k)
    decreases k
  {
    if k > 0 { MirrorBound(c / 2, k - 1); }
  }

  lemma MirrorUnfold(c: nat, k: nat)
    requires k > 0
    ensures Mirror(c, k) == Xor(Feedback(Pow2(k - 1), c), Mirror(c / 2, k - 1))
  {
    var low := Mirror(c / 2, k - 1);
    MirrorBound(c / 2, k - 1);
    XorOfParts(1, low, k - 1);
    XorZero(low);
  }

  lemma {:induction false} MirrorXor(a: nat, b: nat, k: nat)
    ensures Mirror(Xor(a, b), k) == Xor(Mirror(a, k), Mirror(b, k))
    decreases k
  {
    if k == 0 {
      XorZero(0);
    } else {
      hide Xor, Mirror, Feedback;
      MirrorUnfold(a, k);
      MirrorUnfold(b, k);
      MirrorUnfold(Xor(a, b), k);
      XorUnfold(a, b);
      MirrorXor(a / 2, b / 2, k - 1);
      FeedbackLinear(Pow2(k - 1), a, b);
      XorExchange(Feedback(Pow2(k - 1), a), Mirror(a / 2, k - 1), Feedback(Pow2(k - 1), b), Mirror(b / 2, k - 1));
    }
  }

  /** A further bit that is zero comes out lowest. */
  lemma {:induction false} MirrorPadded(c: nat, k: nat)
    requires c < Pow2(k)
    ensures Mirror(c, k + 1) == 2 * Mirror(c, k)
    decreases k
  {
    if k > 0 { MirrorPadded(c / 2, k - 1); }
  }

  lemma {:induction false} MirrorInjective(a: nat, b: nat, k: nat)
    requires a < Pow2(k) && b < Pow2(k) && Mirror(a, k) == Mirror(b, k)
    ensures a == b
    decreases k
  {
    if k > 0 {
      MirrorBound(a / 2, k - 1);
      MirrorBound(b / 2, k - 1);
      assert Mirror(a / 2, k - 1) == Mirror(b / 2, k - 1) && a % 2 == b % 2;
      MirrorInjective(a / 2, b / 2, k - 1);
      Words.SameHalves(a, b);
    }
  }

  // ---- The register ----

  lemma NextPower(k: nat)
    ensures Pow2(k + 1) == 2 * Pow2(k)
  {
  }

  /** One more hexadecimal digit at the low end, in the mirror and in the power. */
  lemma MirrorDigit(h: nat, d: nat, k: nat, p: nat)
    requires d < 16 && Pow2(k) == p
    ensures Pow2(k + 4) == 16 * p
    ensures Mirror(16 * h + d, k + 4) == Mirror(h, k)
              + (if d % 2 == 1 then 8 * p else 0) + (if d / 2 % 2 == 1 then 4 * p else 0)
              + (if d / 4 % 2 == 1 then 2 * p else 0) + (if d / 8 == 1 then p else 0)
  {
    var c := 16 * h + d;
    assert c / 2 == 8 * h + d / 2 && c / 2 / 2 == 4 * h + d / 4 && c / 2 / 2 / 2 == 2 * h + d / 8;
    assert c / 2 / 2 / 2 / 2 == h && c % 2 == d % 2 && c / 2 % 2 == d / 2 % 2 && c / 2 / 2 % 2 == d / 4 % 2;
    assert Pow2(k + 1) == 2 * p && Pow2(k + 2) == 4 * p && Pow2(k + 3) == 8 * p;
    assert Mirror(c, k + 4) == Feedback(8 * p, c) + Mirror(c / 2, k + 3);
    assert Mirror(c / 2, k + 3) == Feedback(4 * p, c / 2) + Mirror(c / 2 / 2, k + 2);
    assert Mirror(c / 2 / 2, k + 2) == Feedback(2 * p, c / 2 / 2) + Mirror(c / 2 / 2 / 2, k + 1);
    assert Mirror(c / 2 / 2 / 2, k + 1) == Feedback(p, c / 2 / 2 / 2) + Mirror(h, k);
  }

  /** The constant read digit by digit, from the highest on: `h` so far, in `k` bits. */
  lemma MirroredConstant(h0: nat, k0: nat, p0: nat) returns (h: nat, k: nat, p: nat)
    requires h0 == 0 && k0 == 0 && p0 == 1 && Mirror(h0, k0) == 0 && Pow2(k0) == p0
    ensures h == POLYNOMIAL && k == 32 && Mirror(h, k) == 0x04C1_1DB7
  {
    hide Mirror, Pow2;
    h, k, p := h0, k0, p0;
    MirrorDigit(h, 0xE, k, p);
    h, k, p := 16 * h + 0xE, k + 4, 16 * p;
    MirrorDigit(h, 0xD, k, p);
    h, k, p := 16 * h + 0xD, k + 4, 16 * p;
    MirrorDigit(h, 0xB, k, p);
    h, k, p := 16 * h + 0xB, k + 4, 16 * p;
    MirrorDigit(h, 0x8, k, p);
    h, k, p := 16 * h + 0x8, k + 4, 16 * p;
    MirrorDigit(h, 0x8, k, p);
    h, k, p := 16 * h + 0x8, k + 4, 16 * p;
    MirrorDigit(h, 0x3, k, p);
    h, k, p := 16 * h + 0x3, k + 4, 16 * p;
    MirrorDigit(h, 0x2, k, p);
    h, k, p := 16 * h + 0x2, k + 4, 16 * p;
    MirrorDigit(h, 0x0, k, p);
    h, k, p := 16 * h + 0x0, k + 4, 16 * p;
  }

  lemma GeneratorValue()
    ensures Generator() == Pow2(32) + 0x04C1_1DB7
  {
    assert Pow2(8) == 256 && Pow2(16) == 0x1_0000;
    assert Pow2(26) == 0x400_0000;
  }

  /** The constant in the code is the generator without its leading term, written backwards. */
  lemma GeneratorMirrored()
    ensures Generator() == Xor(Pow2(32), Mirror(POLYNOMIAL, 32))
    ensures Pow2(32) <= Generator() < Pow2(33)
  {
    var h, k, p := MirroredConstant(0, 0, 1);
    GeneratorValue();
    hide Generator, Mirror, Xor, Pow2;
    Pow2Values();
    assert Pow2(33) == 2 * Pow2(32) by { NextPower(32); }
    XorOfParts(1, 0x04C1_1DB7, 32);
  }

  lemma HalvedMirror(c: nat)
    requires c < U32_SPAN
    ensures Raised(Mirror(c, 32), 1) == if c % 2 == 1 then Pow2(32) + Mirror(c / 2, 32) else Mirror(c / 2, 32)
  {
    hide Pow2;
    Pow2Values();
    NextPower(31);
    MirrorPadded(c / 2, 31);
    assert Mirror(c, 32) == Feedback(Pow2(31), c) + Mirror(c / 2, 31);
    assert Raised(Mirror(c, 32), 0) == Mirror(c, 32);
  }

  /** One shift of the register multiplies its polynomial by x and reduces it. */
  lemma BitStepRaises(c: nat)
    requires c < U32_SPAN
    ensures Congruent(Raised(Mirror(c, 32), 1), Mirror(BitStep(c), 32))
  {
    hide Xor, Mirror, Generator, Raised, Pow2;
    var h := Mirror(c / 2, 32);
    HalvedMirror(c);
    if c % 2 == 1 {
      MirrorXor(POLYNOMIAL, c / 2, 32);
      GeneratorMirrored();
      MirrorBound(c / 2, 32);
      XorOfParts(1, h, 32);
      ReducedByGenerator(h, Mirror(POLYNOMIAL, 32));
    } else {
      CongruentSelf(h);
    }
  }

  lemma ReducedByGenerator(h: nat, tail: nat)
    requires Generator() == Xor(Pow2(32), tail)
    ensures Congruent(Xor(Pow2(32), h), Xor(tail, h))
  {
    assert Times(Generator(), 1) == Generator() by {
      hide Generator;
      XorZero(Generator());
    }
    hide Xor, Generator, Times, Pow2;
    XorCommutes(Pow2(32), tail);
    XorCommutes(h, tail);
    XorExchange(h, tail, Pow2(32), tail);
    XorCommutes(h, Pow2(32));
    XorSelf(tail);
    XorZero(Xor(Pow2(32), h));
    CongruentBy(Xor(Pow2(32), h), Xor(tail, h), 1);
  }

  lemma {:induction false} BitStepsRaise(c: nat, k: nat)
    requires c < U32_SPAN
    ensures Congruent(Raised(Mirror(c, 32), k), Mirror(BitSteps(c, k), 32))
    decreases k
  {
    hide Mirror, BitStep, Congruent;
    if k == 0 {
      CongruentSelf(Mirror(c, 32));
    } else {
      BitStepBound(c);
      BitStepRaises(c);
      CongruentRaised(Raised(Mirror(c, 32), 1), Mirror(BitStep(c), 32), k - 1);
      RaisedTwice(Mirror(c, 32), 1, k - 1);
      BitStepsRaise(BitStep(c), k - 1);
      CongruentTransitive(Raised(Mirror(c, 32), k), Raised(Mirror(BitStep(c), 32), k - 1), Mirror(BitSteps(c, k), 32));
    }
  }

  lemma {:induction false} RaisedTwice(p: nat, j: nat, k: nat)
    ensures Raised(Raised(p, j), k) == Raised(p, j + k)
  {
    if k > 0 { RaisedTwice(p, j, k - 1); }
  }

  // ---- The message ----

  lemma {:induction false} MirrorOfByte(b: nat, k: nat)
    requires b < Pow2(8) && k >= 8
    ensures Mirror(b, k) == Raised(Mirror(b, 8), k - 8)
  {
    if k > 8 {
      Pow2Grows(8, k - 1);
      MirrorPadded(b, k - 1);
      MirrorOfByte(b, k - 1);
    }
  }

  lemma {:induction false} Pow2Grows(j: nat, k: nat)
    requires j <= k
    ensures Pow2(j) <= Pow2(k)
  {
    if j < k { Pow2Grows(j, k - 1); }
  }

  lemma MessageSnoc(data: Bytes, b: U8)
    ensures Message(data + [b]) == Xor(Raised(Message(data), 8), Mirror(b, 8))
  {
    assert (data + [b])[..|data|] == data;
    MirrorBound(b, 8);
    RaisedIsScaled(Message(data), 8);
    XorOfParts(Message(data), Mirror(b, 8), 8);
  }

  lemma {:induction false} RaisedIsScaled(p: nat, k: nat)
    ensures Raised(p, k) == p * Pow2(k)
  {
    if k > 0 {
      RaisedIsScaled(p, k - 1);
      Doubled(p, Pow2(k - 1));
    }
  }

  /** The message followed by 32 zeros, with the initial register added to its first 32 bits. */
  function Dividend(initial: nat, data: Bytes): nat {
    Xor(Raised(Message(data), 32), Raised(initial, 8 * |data|))
  }

  lemma DividendSnoc(initial: nat, data: Bytes, b: U8)
    ensures Dividend(initial, data + [b]) == Raised(Xor(Dividend(initial, data), Mirror(b, 32)), 8)
  {
    hide Xor, Mirror, Raised, Message, Pow2;
    Pow2Values();
    MessageSnoc(data, b);
    MirrorOfByte(b, 32);
    assert 8 * |data + [b]| == 8 * |data| + 8;
    SnocLaw(Message(data), initial, 8 * |data|, Mirror(b, 8));
  }

  lemma SnocLaw(m: nat, i: nat, n: nat, t: nat)
    ensures Xor(Raised(Xor(Raised(m, 8), t), 32), Raised(i, n + 8))
         == Raised(Xor(Xor(Raised(m, 32), Raised(i, n)), Raised(t, 24)), 8)
  {
    var x, y, z := Raised(m, 40), Raised(i, n + 8), Raised(t, 32);
    assert Raised(Xor(Raised(m, 8), t), 32) == Xor(x, z) by {
      RaisedXor(Raised(m, 8), t, 32);
      RaisedTwice(m, 8, 32);
    }
    assert Raised(Xor(Xor(Raised(m, 32), Raised(i, n)), Raised(t, 24)), 8) == Xor(Xor(x, y), z) by {
      hide Xor, Raised;
      RaisedXor(Xor(Raised(m, 32), Raised(i, n)), Raised(t, 24), 8);
      RaisedXor(Raised(m, 32), Raised(i, n), 8);
      RaisedTwice(m, 32, 8);
      RaisedTwice(i, n, 8);
      RaisedTwice(t, 24, 8);
    }
    hide Xor, Raised;
    XorAssociates(x, z, y);
    XorCommutes(z, y);
    XorAssociates(x, y, z);
  }

  /** The register after any message is the remainder of its dividend. */
  lemma {:induction false} AbsorbIsRemainder(crc: nat, data: Bytes)
    requires crc < U32_SPAN
    ensures Congruent(Dividend(Mirror(crc, 32), data), Mirror(Absorb(crc, data), 32))
    decreases |data|
  {
    var i := Mirror(crc, 32);
    if data == [] {
      XorZero(i);
      assert Raised(0, 32) == 0 by { RaisedIsScaled(0, 32); }
      CongruentSelf(i);
    } else {
      var n := |data| - 1;
      var before, b := data[..n], data[n];
      assert data == before + [b];
      AbsorbIsRemainder(crc, before);
      AbsorbSnoc(crc, before, b);
      AbsorbBound(crc, before);
      var a := Absorb(crc, before);
      XorBound32(a, b);
      BitStepsRaise(Xor(a, b), 8);
      DividendSnoc(i, before, b);
      hide Xor, Mirror, Raised, Dividend, Congruent, Absorb, BitSteps;
      MirrorXor(a, b, 32);
      CongruentPlus(Dividend(i, before), Mirror(a, 32), Mirror(b, 32));
      CongruentRaised(Xor(Dividend(i, before), Mirror(b, 32)), Mirror(Xor(a, b), 32), 8);
      CongruentTransitive(Dividend(i, data), Raised(Mirror(Xor(a, b), 32), 8), Mirror(Absorb(crc, data), 32));
    }
  }

  // ---- The checksum ----

  /** A polynomial has at most one remainder below x^32. */
  lemma RemainderUnique(p: nat, r: nat, r': nat)
    requires Congruent(p, r) && Congruent(p, r') && r < U32_SPAN && r' < U32_SPAN
    ensures r == r'
  {
    hide Xor, Times, Generator, Pow2;
    var a: nat :| p == Xor(r, Times(Generator(), a));
    var b: nat :| p == Xor(r', Times(Generator(), b));
    SameSum(r, Times(Generator(), a), r', Times(Generator(), b));
    TimesXor(Generator(), a, b);
    XorBound32(r, r');
    LowMultiple(Xor(a, b));
    XorEqual(r, r');
  }

  lemma SameSum(r: nat, g: nat, r': nat, g': nat)
    requires Xor(r, g) == Xor(r', g')
    ensures Xor(r, r') == Xor(g, g')
  {
    hide Xor;
    XorExchange(r, g, r', g');
    XorSelf(Xor(r, g));
    XorEqual(Xor(r, r'), Xor(g, g'));
  }

  lemma LowMultiple(q: nat)
    requires Times(Generator(), q) < U32_SPAN
    ensures Times(Generator(), q) == 0
  {
    GeneratorMirrored();
    hide Xor, Times, Generator, Mirror, Pow2;
    Pow2Values();
    NoMultiple(Generator());
    if q > 0 { MultipleIsHigh(Generator(), q, 32); }
  }

  lemma NoMultiple(p: nat)
    ensures Times(p, 0) == 0
  {
  }

  lemma XorEqual(a: nat, b: nat)
    requires Xor(a, b) == 0
    ensures a == b
  {
    XorSelf(a);
    XorCancel(a, b, a);
  }

  lemma {:induction false} MirrorOfOnes(k: nat)
    ensures Mirror(Pow2(k) - 1, k) == Pow2(k) - 1
  {
    if k > 0 {
      MirrorOfOnes(k - 1);
      assert (Pow2(k) - 1) / 2 == Pow2(k - 1) - 1 && (Pow2(k) - 1) % 2 == 1;
    }
  }

  /**
   CRC-32 as the standard defines it: a number is the checksum of a message if and only if it has 32 bits
   and, complemented and read lowest bit first, is the remainder of the message, followed by 32 zeros and
   with its first 32 bits complemented, modulo the generator.
   */
  lemma ChecksumIsRemainder(data: Bytes, c: nat)
    ensures c == Checksum(data)
       <==> c < U32_SPAN && Congruent(Dividend(0xFFFF_FFFF, data), Mirror(Xor(c, 0xFFFF_FFFF), 32))
  {
    hide Xor, Mirror, Congruent, Dividend, Absorb, Pow2;
    var a := Absorb(ALL_ONES, data);
    AbsorbIsRemainder(ALL_ONES, data);
    AbsorbBound(ALL_ONES, data);
    ChecksumBound(data);
    Pow2Values();
    MirrorOfOnes(32);
    Complemented(a);
    Complemented(c);
    if c < U32_SPAN && Congruent(Dividend(ALL_ONES, data), Mirror(Xor(c, ALL_ONES), 32)) {
      MirrorBound(a, 32);
      MirrorBound(Xor(c, ALL_ONES), 32);
      RemainderUnique(Dividend(ALL_ONES, data), Mirror(Xor(c, ALL_ONES), 32), Mirror(a, 32));
      XorBound32(c, ALL_ONES);
      MirrorInjective(Xor(c, ALL_ONES), a, 32);
    }
  }

  lemma Complemented(c: nat)
    ensures Xor(Xor(c, ALL_ONES), ALL_ONES) == c
  {
    XorAssociates(c, ALL_ONES, ALL_ONES);
    XorSelf(ALL_ONES);
    XorZero(c);
  }
}
