/** The squared amplitudes of the segments of one window. The table's
    amplitudes are products of sines, cosines and squared half-angle
    functions, and they do not split the magnetisation into parts whose
    squares sum to one: the sum is 1 after the first pulse and exceeds 1
    after the second whenever sin a1 and sin a2 are both non-zero (both flip
    angles strictly between 0° and 180°). */
module Energy {
  import opened Model
  import opened Splitting
  import opened PhaseGraph

  function Square(x: real): real {
    x * x
  }

  /** The sum of the squared amplitudes of segments lo .. hi - 1. */
  function Power(segs: seq<Segment>, lo: nat, hi: nat): (p: real)
    requires lo <= hi <= |segs|
    ensures p >= 0.0
    decreases hi - lo
  {
    if lo == hi then 0.0 else Square(segs[lo].amplitude) + Power(segs, lo + 1, hi)
  }

  /** After the first pulse the FID and the remaining longitudinal
      magnetisation carry sin² + cos² = 1. */
  lemma FirstWindowPower(tfrac: real, r1: Rotation, r2: Rotation, r3: Rotation)
    requires r1.Consistent()
    ensures Power(Build(tfrac, r1, r2, r3), 0, 2) == 1.0
  {
    var segs := Build(tfrac, r1, r2, r3);
    assert segs[0].amplitude == r1.sin && segs[1].amplitude == r1.cos;
    assert Power(segs, 0, 2) == Square(segs[0].amplitude) + Square(segs[1].amplitude);
  }

  /** After the second pulse the five segments carry
      1 + sin² a1 sin² a2 / 2, which is more than 1 whenever sin a1 and
      sin a2 are both non-zero (both flip angles strictly between 0° and
      180°). */
  lemma SecondWindowPower(tfrac: real, r1: Rotation, r2: Rotation, r3: Rotation)
    requires r1.Consistent() && r2.Consistent()
    ensures Power(Build(tfrac, r1, r2, r3), 2, 7) == 1.0 + Square(r1.sin) * Square(r2.sin) / 2.0
    ensures r1.sin != 0.0 && r2.sin != 0.0 ==> Power(Build(tfrac, r1, r2, r3), 2, 7) > 1.0
  {
    var segs := Build(tfrac, r1, r2, r3);
    SecondWindowAmplitudes(tfrac, r1, r2, r3);
    SquaresSumToOne(r1);
    SquaresSumToOne(r2);
    HalfAngleSquares(r2);
    SecondWindowFromFactors(segs, r1, r2);
    if r1.sin != 0.0 && r2.sin != 0.0 {
      PositiveSquare(r1.sin);
      PositiveSquare(r2.sin);
      PositiveProduct(Square(r1.sin), Square(r2.sin));
    }
  }

  lemma SecondWindowAmplitudes(tfrac: real, r1: Rotation, r2: Rotation, r3: Rotation)
    ensures var segs := Build(tfrac, r1, r2, r3);
      && segs[2].amplitude == r1.sin * r2.cosHalfSq
      && segs[3].amplitude == r1.sin * r2.sin
      && segs[4].amplitude == r1.cos * r2.sin
      && segs[5].amplitude == r1.cos * r2.cos
      && segs[6].amplitude == r1.sin * r2.sinHalfSq
  {
  }

  lemma SecondWindowFromFactors(segs: seq<Segment>, r1: Rotation, r2: Rotation)
    requires Square(r1.sin) + Square(r1.cos) == 1.0 && Square(r2.sin) + Square(r2.cos) == 1.0
    requires Square(r2.cosHalfSq) + Square(r2.sin) + Square(r2.sinHalfSq) == 1.0 + Square(r2.sin) / 2.0
    requires |segs| >= 7
    requires segs[2].amplitude == r1.sin * r2.cosHalfSq
    requires segs[3].amplitude == r1.sin * r2.sin
    requires segs[4].amplitude == r1.cos * r2.sin
    requires segs[5].amplitude == r1.cos * r2.cos
    requires segs[6].amplitude == r1.sin * r2.sinHalfSq
    ensures Power(segs, 2, 7) == 1.0 + Square(r1.sin) * Square(r2.sin) / 2.0
  {
    PowerOfFive(segs, 2);
    SecondWindowSquares(r1, r2);
  }

  /** The squared amplitudes of the second window, summed. */
  lemma SecondWindowSquares(r1: Rotation, r2: Rotation)
    requires Square(r1.sin) + Square(r1.cos) == 1.0 && Square(r2.sin) + Square(r2.cos) == 1.0
    requires Square(r2.cosHalfSq) + Square(r2.sin) + Square(r2.sinHalfSq) == 1.0 + Square(r2.sin) / 2.0
    ensures Square(r1.sin * r2.cosHalfSq) + Square(r1.sin * r2.sin) + Square(r1.cos * r2.sin)
      + Square(r1.cos * r2.cos) + Square(r1.sin * r2.sinHalfSq)
      == 1.0 + Square(r1.sin) * Square(r2.sin) / 2.0
  {
    SquareOfProduct(r1.sin, r2.cosHalfSq);
    SquareOfProduct(r1.sin, r2.sin);
    SquareOfProduct(r1.cos, r2.sin);
    SquareOfProduct(r1.cos, r2.cos);
    SquareOfProduct(r1.sin, r2.sinHalfSq);
    SecondWindowAlgebra(Square(r1.sin), Square(r1.cos),
      Square(r2.cosHalfSq), Square(r2.sin), Square(r2.cos), Square(r2.sinHalfSq));
  }

  /** sin² + cos² = 1 for one pulse. */
  lemma SquaresSumToOne(r: Rotation)
    requires r.Consistent()
    ensures Square(r.sin) + Square(r.cos) == 1.0
  {
  }

  /** The five squared amplitudes of the second window, written with
      x = sin² a1, y = cos² a1 and the squared factors of the second pulse,
      and simplified with x + y = 1, s + c = 1 and
      ch + s + sh = 1 + s / 2. */
  lemma SecondWindowAlgebra(x: real, y: real, ch: real, s: real, c: real, sh: real)
    requires x + y == 1.0 && s + c == 1.0 && ch + s + sh == 1.0 + s / 2.0
    ensures x * ch + x * s + y * s + y * c + x * sh == 1.0 + x * s / 2.0
  {
    assert x * ch + x * s + x * sh == x * (ch + s + sh);
    assert y * s + y * c == y * (s + c);
  }

  lemma PowerOfFive(segs: seq<Segment>, lo: nat)
    requires lo + 5 <= |segs|
    ensures Power(segs, lo, lo + 5) ==
      Square(segs[lo].amplitude) + Square(segs[lo + 1].amplitude) + Square(segs[lo + 2].amplitude)
      + Square(segs[lo + 3].amplitude) + Square(segs[lo + 4].amplitude)
  {
    assert Power(segs, lo + 4, lo + 5) == Square(segs[lo + 4].amplitude);
    assert Power(segs, lo + 3, lo + 5) == Square(segs[lo + 3].amplitude) + Power(segs, lo + 4, lo + 5);
    assert Power(segs, lo + 2, lo + 5) == Square(segs[lo + 2].amplitude) + Power(segs, lo + 3, lo + 5);
    assert Power(segs, lo + 1, lo + 5) == Square(segs[lo + 1].amplitude) + Power(segs, lo + 2, lo + 5);
  }

  /** For one pulse, cos⁴(a/2) + sin² a + sin⁴(a/2) = 1 + sin² a / 2. */
  lemma HalfAngleSquares(r: Rotation)
    requires r.Consistent()
    ensures Square(r.cosHalfSq) + Square(r.sin) + Square(r.sinHalfSq) == 1.0 + Square(r.sin) / 2.0
  {
    var c, s := r.cosHalfSq, r.sinHalfSq;
    assert (c + s) * (c + s) == 1.0;
    assert (c + s) * (c + s) == c * c + 2.0 * c * s + s * s;
  }

  lemma SquareOfProduct(a: real, b: real)
    ensures Square(a * b) == Square(a) * Square(b)
  {
  }

  lemma PositiveProduct(a: real, b: real)
    requires a > 0.0 && b > 0.0
    ensures a * b > 0.0
  {
  }

  lemma PositiveSquare(a: real)
    requires a != 0.0
    ensures 0.0 < Square(a)
  {
    if a < 0.0 {
      PositiveProduct(-a, -a);
      assert (-a) * (-a) == a * a;
    } else {
      PositiveProduct(a, a);
    }
    calc {
      0.0;
    <
      a * a;
    ==
      Square(a);
    }
  }
}
