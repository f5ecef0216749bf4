/** Facts about real arithmetic that the pixel tests rely on. The kernels
    compute distances in doubles; the model computes them over the reals and
    avoids square roots by comparing squares. */
module Reals {
  function RealAbs(a: real): real { if a < 0.0 then -a else a }

  lemma MulPos(a: real, b: real)
    requires a > 0.0 && b > 0.0
    ensures a * b > 0.0
  {
  }

  lemma MulNonneg(a: real, b: real)
    requires a >= 0.0 && b >= 0.0
    ensures a * b >= 0.0
  {
  }

  /** On non-negative reals, comparing values is comparing their squares. */
  lemma SquareLess(a: real, b: real)
    requires a >= 0.0 && b >= 0.0
    ensures a < b <==> a * a < b * b
  {
    if a < b {
      MulNonneg(a, b - a);
      assert a * (b - a) == a * b - a * a;
      MulPos(b, b - a);
      assert b * (b - a) == b * b - a * b;
    } else {
      MulNonneg(b, a - b);
      assert b * (a - b) == a * b - b * b;
      MulNonneg(a, a - b);
      assert a * (a - b) == a * a - a * b;
    }
  }

  /** Multiplying both sides by a positive number keeps a strict comparison. */
  lemma ScaleLess(a: real, b: real, c: real)
    requires c > 0.0
    ensures a < b <==> a * c < b * c
  {
    assert b * c - a * c == (b - a) * c;
    if a < b {
      MulPos(b - a, c);
    } else {
      MulNonneg(a - b, c);
    }
  }

  /** The same for a non-strict comparison. */
  lemma ScaleAtMost(a: real, b: real, c: real)
    requires c > 0.0
    ensures a <= b <==> a * c <= b * c
  {
    ScaleLess(b, a, c);
  }

  /** The square of a non-zero integer, seen as a real, is at least one. */
  lemma IntSquareAtLeastOne(k: int)
    requires k != 0
    ensures (k as real) * (k as real) >= 1.0
  {
    assert k * k >= 1 by {
      if k > 0 {
        assert k * k >= k;
      } else {
        assert k * k == (-k) * (-k);
        assert (-k) * (-k) >= -k;
      }
    }
    CastProduct(k, k);
  }

  /** Multiplication commutes with the embedding of the integers in the reals. */
  lemma CastProduct(a: int, b: int)
    ensures (a * b) as real == (a as real) * (b as real)
  {
  }
}
