/** Cosine similarity of real vectors (cache/semantic.go, quality/internal.go). */
module Vectors {
  import opened Ring

  function Dot(a: seq<real>, b: seq<real>): real
    requires |a| == |b|
  {
    if a == [] then 0.0
    else Dot(a[..|a| - 1], b[..|b| - 1]) + a[|a| - 1] * b[|b| - 1]
  }

  /** A square root on the non-negative reals. */
  ghost predicate IsSqrt(sqrt: real -> real) {
    forall x :: x >= 0.0 ==> sqrt(x) >= 0.0 && sqrt(x) * sqrt(x) == x
  }

  function Cosine(sqrt: real -> real, a: seq<real>, b: seq<real>): real {
    if |a| != |b| || |a| == 0 then 0.0
    else
      var denom := sqrt(Dot(a, a)) * sqrt(Dot(b, b));
      if denom == 0.0 then 0.0 else Dot(a, b) / denom
  }

  ghost predicate Nonzero(a: seq<real>) {
    exists i :: 0 <= i < |a| && a[i] != 0.0
  }

  lemma {:induction false} Product(x: real, y: real, p: real)
    requires x > 0.0 && y > 0.0 && p == x * y
    ensures p > 0.0
  {
  }

  lemma {:induction false} Square(x: real, s: real)
    requires s == x * x
    ensures s >= 0.0
    ensures x != 0.0 ==> s > 0.0
  {
    if x > 0.0 {
      Product(x, x, s);
    } else if x < 0.0 {
      Product(-x, -x, s);
    }
  }

  lemma {:induction false} DotSelf(a: seq<real>)
    ensures Dot(a, a) >= 0.0
    ensures Nonzero(a) ==> Dot(a, a) > 0.0
  {
    if a != [] {
      var init, last := a[..|a| - 1], a[|a| - 1];
      DotSelf(init);
      var sq := last * last;
      assert Dot(a, a) == Dot(init, init) + sq;
      Square(last, sq);
      if last == 0.0 && Nonzero(a) {
        var i :| 0 <= i < |a| && a[i] != 0.0;
        assert init[i] != 0.0;
      }
    }
  }

  lemma {:induction false} Unit(d: real)
    requires d != 0.0
    ensures d / d == 1.0
  {
  }

  lemma {:induction false} DotSymmetric(a: seq<real>, b: seq<real>)
    requires |a| == |b|
    ensures Dot(a, b) == Dot(b, a)
  {
    if a != [] {
      DotSymmetric(a[..|a| - 1], b[..|b| - 1]);
    }
  }

  /** The square of the length of `x a - y b`, from the three dot products. */
  function Form(x: real, y: real, aa: real, ab: real, bb: real): real {
    x * x * aa - 2.0 * x * y * ab + y * y * bb
  }

  lemma {:induction false} FormStep(x: real, y: real, aa: real, ab: real, bb: real, u: real, v: real)
    ensures Form(x, y, aa + u * u, ab + u * v, bb + v * v) >= Form(x, y, aa, ab, bb)
  {
    var w := x * u - y * v;
    var sq := w * w;
    Square(w, sq);
    assert Form(x, y, aa + u * u, ab + u * v, bb + v * v) == Form(x, y, aa, ab, bb) + sq;
  }

  /** The last coordinate adds a square. */
  lemma {:induction false} LastCoordinate(a: seq<real>, b: seq<real>, x: real, y: real)
    requires |a| == |b| > 0
    ensures var a', b' := a[..|a| - 1], b[..|b| - 1];
      Form(x, y, Dot(a, a), Dot(a, b), Dot(b, b)) >= Form(x, y, Dot(a', a'), Dot(a', b'), Dot(b', b'))
  {
    var a', b' := a[..|a| - 1], b[..|b| - 1];
    FormStep(x, y, Dot(a', a'), Dot(a', b'), Dot(b', b'), a[|a| - 1], b[|b| - 1]);
  }

  /** The square of a combination is not negative. */
  lemma {:induction false} Combination(a: seq<real>, b: seq<real>, x: real, y: real)
    requires |a| == |b|
    ensures Form(x, y, Dot(a, a), Dot(a, b), Dot(b, b)) >= 0.0
  {
    if a != [] {
      Combination(a[..|a| - 1], b[..|b| - 1], x, y);
      LastCoordinate(a, b, x, y);
    }
  }

  lemma {:induction false} Positive(p: real, x: real)
    requires p > 0.0
    ensures p * x >= 0.0 ==> x >= 0.0
  {
  }

  lemma {:induction false} Cancel(p: real, d: real, na: real, nb: real)
    requires na > 0.0 && nb > 0.0 && p == na * nb
    requires Form(nb, na, na * na, d, nb * nb) >= 0.0
    requires Form(nb, -na, na * na, d, nb * nb) >= 0.0
    ensures -p <= d <= p
  {
    assert p > 0.0;
    assert nb * nb * (na * na) == p * p;
    assert na * na * (nb * nb) == p * p;
    assert 2.0 * nb * na * d == 2.0 * (p * d);
    assert 2.0 * nb * -na * d == -2.0 * (p * d);
    assert -na * -na * (nb * nb) == p * p;
    Positive(p, p - d);
    Positive(p, p + d);
    assert p * (p - d) == p * p - p * d;
    assert p * (p + d) == p * p + p * d;
  }

  /** Cauchy-Schwarz, with the norms given by their square roots. */
  lemma {:induction false} CauchySchwarz(a: seq<real>, b: seq<real>, na: real, nb: real)
    requires |a| == |b| && na > 0.0 && nb > 0.0
    requires na * na == Dot(a, a) && nb * nb == Dot(b, b)
    ensures -(na * nb) <= Dot(a, b) <= na * nb
  {
    Combination(a, b, nb, na);
    Combination(a, b, nb, -na);
    Cancel(na * nb, Dot(a, b), na, nb);
  }

  lemma {:induction false} Ratio(d: real, p: real)
    requires p > 0.0 && -p <= d <= p
    ensures -1.0 <= d / p <= 1.0
  {
  }

  lemma {:induction false} QuotientBounded(a: seq<real>, b: seq<real>, na: real, nb: real)
    requires |a| == |b| && na >= 0.0 && nb >= 0.0
    requires na * na == Dot(a, a) && nb * nb == Dot(b, b)
    ensures na * nb != 0.0 ==> -1.0 <= Dot(a, b) / (na * nb) <= 1.0
  {
    if na > 0.0 && nb > 0.0 {
      var p := na * nb;
      Product(na, nb, p);
      CauchySchwarz(a, b, na, nb);
      Ratio(Dot(a, b), p);
    }
  }

  /** Cosine similarity is always between -1 and 1. */
  lemma {:induction false} CosineBounded(sqrt: real -> real, a: seq<real>, b: seq<real>)
    requires IsSqrt(sqrt)
    ensures -1.0 <= Cosine(sqrt, a, b) <= 1.0
  {
    if |a| == |b| && |a| > 0 {
      var na, nb := sqrt(Dot(a, a)), sqrt(Dot(b, b));
      DotSelf(a);
      DotSelf(b);
      QuotientBounded(a, b, na, nb);
      assert Cosine(sqrt, a, b) == if na * nb == 0.0 then 0.0 else Dot(a, b) / (na * nb);
    }
  }

  lemma {:induction false} CosineSymmetric(sqrt: real -> real, a: seq<real>, b: seq<real>)
    ensures Cosine(sqrt, a, b) == Cosine(sqrt, b, a)
  {
    if |a| == |b| {
      DotSymmetric(a, b);
    }
  }

  lemma {:induction false} ZeroDot(a: seq<real>, b: seq<real>)
    requires |a| == |b| && !Nonzero(a)
    ensures Dot(a, b) == 0.0
  {
    if a != [] {
      assert a[|a| - 1] == 0.0;
      assert !Nonzero(a[..|a| - 1]) by {
        assert forall i | 0 <= i < |a| - 1 :: a[..|a| - 1][i] == a[i];
      }
      ZeroDot(a[..|a| - 1], b[..|b| - 1]);
    }
  }

  /** A vector is similar to itself to degree 1, unless it is all zeros. */
  lemma {:induction false} CosineSelf(sqrt: real -> real, a: seq<real>)
    requires IsSqrt(sqrt)
    ensures Cosine(sqrt, a, a) == if Nonzero(a) then 1.0 else 0.0
  {
    DotSelf(a);
    if Nonzero(a) {
      var denom := sqrt(Dot(a, a)) * sqrt(Dot(a, a));
      assert denom == Dot(a, a) != 0.0;
      Unit(denom);
      assert Cosine(sqrt, a, a) == Dot(a, a) / denom;
    } else {
      ZeroDot(a, a);
    }
  }

  /** The accumulation loop. */
  method CosineSimilarity(sqrt: real -> real, a: seq<real>, b: seq<real>) returns (r: real)
    ensures r == Cosine(sqrt, a, b)
  {
    if |a| != |b| || |a| == 0 {
      return 0.0;
    }
    var dot, normA, normB := 0.0, 0.0, 0.0;
    for i := 0 to |a|
      invariant dot == Dot(a[..i], b[..i])
      invariant normA == Dot(a[..i], a[..i])
      invariant normB == Dot(b[..i], b[..i])
    {
      assert a[..i + 1][..i] == a[..i] && b[..i + 1][..i] == b[..i];
      dot := dot + a[i] * b[i];
      normA := normA + a[i] * a[i];
      normB := normB + b[i] * b[i];
    }
    assert a[..|a|] == a && b[..|a|] == b;
    var denom := sqrt(normA) * sqrt(normB);
    if denom == 0.0 {
      return 0.0;
    }
    r := dot / denom;
  }

  // ----- in its own terms

  /** The sum of the products of the coordinates. */
  lemma {:induction false} DotIs(a: seq<real>, b: seq<real>, products: seq<real>)
    requires |a| == |b| == |products| && forall i | 0 <= i < |a| :: products[i] == a[i] * b[i]
    ensures Dot(a, b) == Sum(products)
  {
    if a != [] {
      var n := |a| - 1;
      DotIs(a[..n], b[..n], products[..n]);
    }
  }

  lemma {:induction false} QuotientTimes(d: real, p: real)
    requires p != 0.0
    ensures d / p * p == d
  {
  }

  /** The cosine times the lengths of both vectors is the sum of the products of their
      coordinates; vectors of different dimensions, empty or all zeros have none. */
  lemma {:induction false} CosineLaw(sqrt: real -> real, a: seq<real>, b: seq<real>, products: seq<real>)
    requires IsSqrt(sqrt)
    requires |a| == |b| == |products| && forall i | 0 <= i < |a| :: products[i] == a[i] * b[i]
    ensures Nonzero(a) && Nonzero(b) ==>
      Cosine(sqrt, a, b) * (sqrt(Dot(a, a)) * sqrt(Dot(b, b))) == Sum(products)
    ensures !Nonzero(a) || !Nonzero(b) ==> Cosine(sqrt, a, b) == 0.0
  {
    DotIs(a, b, products);
    DotSelf(a);
    DotSelf(b);
    if Nonzero(a) && Nonzero(b) {
      var na, nb := sqrt(Dot(a, a)), sqrt(Dot(b, b));
      Product(na, nb, na * nb);
      QuotientTimes(Dot(a, b), na * nb);
    } else {
      if !Nonzero(a) { ZeroDot(a, b); }
      if !Nonzero(b) { ZeroDot(b, a); DotSymmetric(a, b); }
    }
  }
}
