/** Fixed-width unsigned integers, their little-endian byte form, exclusive-or on naturals, and remainders. */
module Words {

  const U64_MAX: int := 0xFFFF_FFFF_FFFF_FFFF
  const U32_SPAN: int := 0x1_0000_0000

  type U8 = x: int | 0 <= x < 256
  type U64 = x: int | 0 <= x <= U64_MAX
  type Bytes = seq<U8>

  datatype Option<+T> = None | Some(value: T) {
    predicate IsFailure() { None? }
    function PropagateFailure<U>(): Option<U> requires None? { None }
    function Extract(): T requires Some? { value }
  }

  /** 256 to the power of `width`: the number of values a word of that many bytes can hold. */
  function Span(width: nat): (n: nat)
    ensures n > 0
  {
    if width == 0 then 1 else 256 * Span(width - 1)
  }

  /** The low `width` bytes of `n`, least significant first (an over-wide value is truncated). */
  function LittleEndian(n: nat, width: nat): (bs: Bytes)
    ensures |bs| == width
  {
    if width == 0 then [] else [n % 256] + LittleEndian(n / 256, width - 1)
  }

  function FromLittleEndian(bs: Bytes): (n: nat)
    ensures n < Span(|bs|)
  {
    if bs == [] then 0 else bs[0] + 256 * FromLittleEndian(bs[1..])
  }

  lemma {:induction false} ReadBack(n: nat, width: nat)
    requires n < Span(width)
    ensures FromLittleEndian(LittleEndian(n, width)) == n
  {
    if width > 0 {
      ReadBack(n / 256, width - 1);
      assert LittleEndian(n, width)[1..] == LittleEndian(n / 256, width - 1);
    }
  }

  lemma {:induction false} WriteBack(bs: Bytes)
    ensures LittleEndian(FromLittleEndian(bs), |bs|) == bs
  {
    if bs != [] {
      WriteBack(bs[1..]);
      var n := FromLittleEndian(bs);
      assert n % 256 == bs[0] && n / 256 == FromLittleEndian(bs[1..]);
    }
  }

  lemma Spans()
    ensures Span(1) == 256 && Span(2) == 0x1_0000 && Span(4) == U32_SPAN && Span(8) == U64_MAX + 1
  {
    assert Span(3) == 256 * Span(2) && Span(4) == 256 * Span(3);
    assert Span(5) == 256 * Span(4) && Span(6) == 256 * Span(5);
    assert Span(7) == 256 * Span(6) && Span(8) == 256 * Span(7);
  }

  /** Distinct little-endian words of equal width denote distinct numbers. */
  lemma WordsDiffer(x: Bytes, y: Bytes)
    requires |x| == |y| && x != y
    ensures FromLittleEndian(x) != FromLittleEndian(y)
  {
    WriteBack(x);
    WriteBack(y);
  }

  /** Bitwise exclusive or. */
  function Xor(a: nat, b: nat): nat
    decreases a + b
  {
    if a == 0 && b == 0 then 0 else (a + b) % 2 + 2 * Xor(a / 2, b / 2)
  }

  lemma {:induction false} XorUnfold(a: nat, b: nat)
    ensures Xor(a, b) % 2 == (a + b) % 2 && Xor(a, b) / 2 == Xor(a / 2, b / 2)
  {
    var h := Xor(a / 2, b / 2);
    assert ((a + b) % 2 + 2 * h) / 2 == h;
  }

  lemma {:induction false} XorZero(a: nat)
    ensures Xor(0, a) == a == Xor(a, 0)
  {
    if a != 0 {
      XorZero(a / 2);
    }
  }

  lemma {:induction false} XorCommutes(a: nat, b: nat)
    ensures Xor(a, b) == Xor(b, a)
    decreases a + b
  {
    if a != 0 || b != 0 {
      XorCommutes(a / 2, b / 2);
    }
  }

  lemma {:induction false} XorAssociates(a: nat, b: nat, c: nat)
    ensures Xor(Xor(a, b), c) == Xor(a, Xor(b, c))
    decreases a + b + c
  {
    if a != 0 || b != 0 || c != 0 {
      XorAssociates(a / 2, b / 2, c / 2);
      var left, right := Xor(a, b), Xor(b, c);
      XorUnfold(a, b);
      XorUnfold(b, c);
      XorUnfold(left, c);
      XorUnfold(a, right);
      Parity(Xor(a, b), a + b, c);
      Parity(Xor(b, c), b + c, a);
      SameHalves(Xor(Xor(a, b), c), Xor(a, Xor(b, c)));
    }
  }

  lemma Parity(x: nat, y: nat, z: nat)
    requires x % 2 == y % 2
    ensures (x + z) % 2 == (y + z) % 2
  {
  }

  lemma SameHalves(x: nat, y: nat)
    requires x % 2 == y % 2 && x / 2 == y / 2
    ensures x == y
  {
  }

  lemma {:induction false} XorSelf(a: nat)
    ensures Xor(a, a) == 0
  {
    if a != 0 {
      XorSelf(a / 2);
    }
  }

  /** Combining with the same mask is injective. */
  lemma XorCancel(m: nat, a: nat, b: nat)
    requires Xor(m, a) == Xor(m, b)
    ensures a == b
  {
    XorAssociates(m, m, a);
    XorAssociates(m, m, b);
    XorSelf(m);
    XorZero(a);
    XorZero(b);
  }

  /** The exchange law used by every linearity argument below. */
  lemma XorExchange(a: nat, b: nat, c: nat, d: nat)
    ensures Xor(Xor(a, b), Xor(c, d)) == Xor(Xor(a, c), Xor(b, d))
  {
    XorAssociates(a, b, Xor(c, d));
    XorAssociates(b, c, d);
    XorCommutes(b, c);
    XorAssociates(c, b, d);
    XorAssociates(a, c, Xor(b, d));
  }

  function Pow2(k: nat): (p: nat)
    ensures p > 0
  {
    if k == 0 then 1 else 2 * Pow2(k - 1)
  }

  lemma {:induction false} XorBound(a: nat, b: nat, k: nat)
    requires a < Pow2(k) && b < Pow2(k)
    ensures Xor(a, b) < Pow2(k)
  {
    if k > 0 {
      XorBound(a / 2, b / 2, k - 1);
      XorUnfold(a, b);
    }
  }

  lemma {:induction false} XorDoubled(h: nat, low: nat)
    ensures Xor(2 * h, low) == low % 2 + 2 * Xor(h, low / 2)
  {
    assert (2 * h) / 2 == h && (2 * h + low) % 2 == low % 2;
  }

  /** High bits and low bits do not interact: below 2^k the sum is the exclusive or. */
  lemma {:induction false} XorOfParts(high: nat, low: nat, k: nat)
    requires low < Pow2(k)
    ensures Xor(high * Pow2(k), low) == high * Pow2(k) + low
  {
    if k > 0 {
      var half := high * Pow2(k - 1);
      assert high * Pow2(k) == 2 * half;
      XorOfParts(high, low / 2, k - 1);
      XorDoubled(half, low);
    } else {
      XorZero(high);
    }
  }

  /** What is left of a size after taking out whole units. */
  function Remainder(size: nat, unit: nat): nat
    requires unit > 0
    decreases size
  {
    if size < unit then size else Remainder(size - unit, unit)
  }

  lemma {:induction false} RemainderIsModulo(size: nat, unit: nat)
    requires unit > 0
    ensures Remainder(size, unit) == size % unit
    decreases size
  {
    if size >= unit {
      RemainderIsModulo(size - unit, unit);
      OneUnitLess(size, unit);
    }
  }

  lemma AtLeastOnce(k: int, unit: nat)
    requires k >= 1
    ensures k * unit >= unit
  {
  }

  lemma Distribute(a: int, b: int, unit: int)
    ensures (a - b) * unit == a * unit - b * unit
  {
  }

  lemma Quotients(q: nat, r: nat, q': nat, r': nat, unit: nat)
    requires q * unit + r == q' * unit + r' && r < unit && r' < unit
    ensures r == r'
  {
    Distribute(q, q', unit);
    Distribute(q', q, unit);
    if q > q' { AtLeastOnce(q - q', unit); }
    if q' > q { AtLeastOnce(q' - q, unit); }
  }

  lemma OneUnitLess(size: nat, unit: nat)
    requires 0 < unit <= size
    ensures (size - unit) % unit == size % unit
  {
    var q, r := (size - unit) / unit, (size - unit) % unit;
    Distribute(q, -1, unit);
    Quotients(q + 1, r, size / unit, size % unit, unit);
  }
}
