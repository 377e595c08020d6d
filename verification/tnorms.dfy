/** The two triangular norms the engine combines relation values with, and
    their dual co-norms: the product pair and the Łukasiewicz pair.
 */
module TNorms {
  import opened Results

  /** The closed choice of t-norm family. */
  datatype TNorm = Prod | Luka

  predicate Unit(x: real) {
    0.0 <= x <= 1.0
  }

  function Min(x: real, y: real): real {
    if x <= y then x else y
  }

  function Max(x: real, y: real): real {
    if x >= y then x else y
  }

  /** The t-norm: `a*b`, or `max(a+b-1, 0)`. */
  function Norm(t: TNorm, a: real, b: real): (r: real)
    ensures t == Luka ==> 0.0 <= r
    ensures 0.0 <= a && 0.0 <= b ==> 0.0 <= r
    ensures t == Prod && 0.0 < a && 0.0 < b ==> 0.0 < r
  {
    match t
    case Prod => a * b
    case Luka => Max(a + b - 1.0, 0.0)
  }

  /** The t-co-norm: `a+b-a*b`, or `min(a+b, 1)`. On [0,1] it lies between
      the larger argument and 1. (The product co-norm is not non-negative on
      all non-negative arguments: `3 + 3 - 9 < 0`.) */
  function Conorm(t: TNorm, a: real, b: real): (r: real)
    ensures Unit(a) && Unit(b) ==> Max(a, b) <= r <= 1.0
    ensures t == Luka ==> r <= 1.0
    ensures t == Luka && 0.0 <= a && 0.0 <= b ==> 0.0 <= r
  {
    match t
    case Prod =>
      var r := a + b - a * b;
      assert Unit(a) && Unit(b) ==> a <= r && b <= r && r <= 1.0 by {
        if Unit(a) && Unit(b) {
          MulBounds(b, 1.0 - a);
          MulBounds(a, 1.0 - b);
          assert b * (1.0 - a) == b - a * b;
          assert a * (1.0 - b) == a - a * b;
        }
      }
      r
    case Luka => Min(a + b, 1.0)
  }

  /** Name under which the selector knows each family. */
  function TNormName(t: TNorm): string {
    match t
    case Prod => "product"
    case Luka => "luka"
  }

  /** `tnorm_selector`: the family named `mode`, or an error for any other name. */
  function TNormSelector(mode: string): (r: Result<TNorm>)
    ensures r.Success? ==> TNormName(r.value) == mode
    ensures r.Failure? ==> r.error == UnknownTNorm(mode)
    ensures r.Failure? <==> (forall t: TNorm :: TNormName(t) != mode)
  {
    if mode == "product" then Success(Prod)
    else if mode == "luka" then Success(Luka)
    else Failure(UnknownTNorm(mode))
  }

  lemma SelectorRoundTrip(t: TNorm)
    ensures TNormSelector(TNormName(t)) == Success(t)
  {
  }

  lemma Commutative(t: TNorm, a: real, b: real)
    ensures Norm(t, a, b) == Norm(t, b, a)
    ensures Conorm(t, a, b) == Conorm(t, b, a)
  {
  }

  /** 1 is neutral and 0 is absorbing for the t-norm; 0 is neutral for the co-norm. */
  lemma Boundary(t: TNorm, a: real)
    requires Unit(a)
    ensures Norm(t, a, 1.0) == a
    ensures Norm(t, a, 0.0) == 0.0
    ensures Conorm(t, a, 0.0) == a
  {
  }

  lemma ClosedOnUnit(t: TNorm, a: real, b: real)
    requires Unit(a) && Unit(b)
    ensures Unit(Norm(t, a, b))
    ensures Unit(Conorm(t, a, b))
  {
    if t == Prod {
      MulBounds(a, b);
      MulBounds(1.0 - a, 1.0 - b);
      ProductComplement(a, b);
    }
  }

  /** A product of two numbers in [0,1] lies in [0,1] and below both factors. */
  lemma MulBounds(x: real, y: real)
    requires Unit(x) && Unit(y)
    ensures Unit(x * y)
    ensures x * y <= x && x * y <= y
  {
    MulMonotone(x, 1.0, y);
    MulMonotone(y, 1.0, x);
    MulMonotone(0.0, x, y);
  }

  lemma ProductComplement(a: real, b: real)
    ensures (1.0 - a) * (1.0 - b) == 1.0 - a - b + a * b
  {
  }

  /** Multiplying by a non-negative factor preserves order. */
  lemma MulMonotone(x: real, y: real, c: real)
    requires x <= y
    requires 0.0 <= c
    ensures x * c <= y * c
  {
    var d := y - x;
    assert y * c == x * c + d * c;
    assert 0.0 <= d * c;
  }

  lemma Monotone(t: TNorm, a: real, a': real, b: real)
    requires Unit(a) && Unit(a') && Unit(b)
    requires a <= a'
    ensures Norm(t, a, b) <= Norm(t, a', b) && Norm(t, b, a) <= Norm(t, b, a')
    ensures Conorm(t, a, b) <= Conorm(t, a', b) && Conorm(t, b, a) <= Conorm(t, b, a')
  {
    Commutative(t, a, b);
    Commutative(t, a', b);
    if t == Prod {
      ProdMonotone(a, a', b);
      ProdMonotone(1.0 - a', 1.0 - a, 1.0 - b);
      DeMorgan(Prod, a, b);
      DeMorgan(Prod, a', b);
    }
  }

  lemma ProdMonotone(a: real, a': real, b: real)
    requires a <= a'
    requires 0.0 <= b
    ensures Norm(Prod, a, b) <= Norm(Prod, a', b)
  {
    assert Norm(Prod, a, b) == a * b && Norm(Prod, a', b) == a' * b;
    MulMonotone(a, a', b);
  }

  /** Outside [0,1] the product co-norm can be negative, so its sign is
      stated only on [0,1]. */
  lemma ProductConormNegative()
    ensures Conorm(Prod, 3.0, 3.0) < 0.0
    ensures Conorm(Luka, 3.0, 3.0) == 1.0
  {
  }

  lemma ConormAsSum(a: real, b: real)
    ensures Conorm(Prod, a, b) == a * (1.0 - b) + b
  {
    var c := 1.0 - b;
    assert a * c == a - a * b;
  }

  lemma Associative(t: TNorm, a: real, b: real, c: real)
    requires Unit(a) && Unit(b) && Unit(c)
    ensures Norm(t, Norm(t, a, b), c) == Norm(t, a, Norm(t, b, c))
    ensures t == Luka ==> Norm(t, Norm(t, a, b), c) == Max(a + b + c - 2.0, 0.0)
  {
  }

  /** The Łukasiewicz t-norm lies below the product, which lies below the minimum. */
  lemma NormsOrdered(a: real, b: real)
    requires Unit(a) && Unit(b)
    ensures Norm(Luka, a, b) <= Norm(Prod, a, b) <= Min(a, b)
  {
    var p := a * b;
    assert a + b - 1.0 <= p by {
      MulBounds(1.0 - a, 1.0 - b);
      ProductComplement(a, b);
    }
    assert p <= a && p <= b by {
      MulBounds(a, b);
    }
    assert Norm(Prod, a, b) == p;
    assert 0.0 <= p by {
      MulBounds(a, b);
    }
  }

  /** Each co-norm is the De Morgan dual of its t-norm under `x -> 1-x`. */
  lemma DeMorgan(t: TNorm, a: real, b: real)
    ensures Conorm(t, a, b) == 1.0 - Norm(t, 1.0 - a, 1.0 - b)
    ensures Norm(t, a, b) == 1.0 - Conorm(t, 1.0 - a, 1.0 - b)
  {
    if t == Prod {
      ProductComplement(a, b);
      ProductComplement(1.0 - a, 1.0 - b);
    }
  }

  /** On [0,1], t-norm <= min <= max <= co-norm. */
  lemma NormBelowConorm(t: TNorm, a: real, b: real)
    requires Unit(a) && Unit(b)
    ensures Norm(t, a, b) <= Min(a, b) <= Max(a, b) <= Conorm(t, a, b)
  {
    NormsOrdered(a, b);
    NormsOrdered(1.0 - a, 1.0 - b);
    DeMorgan(t, a, b);
  }
}
