/** The standard normal distribution function Phi, kept abstract.

    The program evaluates Phi through a numeric library. Here it is a
    parameter `phi`, and the three facts the engine relies on are stated as
    ghost predicates that lemmas assume of it: values in [0, 1], monotone,
    and symmetric about zero (Phi(-z) == 1 - Phi(z)). A normal distribution
    with mean `loc` and standard deviation `scale` is read as
    Phi((x - loc) / scale). */
module NormalCdf {

  ghost predicate Bounded(phi: real -> real) {
    forall z :: 0.0 <= phi(z) <= 1.0
  }

  ghost predicate Monotone(phi: real -> real) {
    forall a, b :: a <= b ==> phi(a) <= phi(b)
  }

  /** The true Phi is strictly increasing; only the strict monotonicity
      lemmas ask for this extra fact. */
  ghost predicate StrictlyMonotone(phi: real -> real) {
    forall a, b :: a < b ==> phi(a) < phi(b)
  }

  ghost predicate Symmetric(phi: real -> real) {
    forall z :: phi(-z) == 1.0 - phi(z)
  }

  /** The axioms assumed of the standard normal distribution function. */
  ghost predicate IsStdNormalCdf(phi: real -> real) {
    Bounded(phi) && Monotone(phi) && Symmetric(phi)
  }

  /** The z-score of `x` under a normal law with mean `loc` and standard
      deviation `scale`: the unique z with x == loc + z * scale. */
  function Standardize(x: real, loc: real, scale: real): (z: real)
    requires scale > 0.0
    ensures x == loc + z * scale
    ensures x >= loc <==> z >= 0.0
  {
    (x - loc) / scale
  }

  /** `norm.cdf(x, loc=loc, scale=scale)`: the probability that a normal
      variable with mean `loc` and standard deviation `scale` is at most `x`. */
  function Cdf(phi: real -> real, x: real, loc: real, scale: real): (p: real)
    requires scale > 0.0
    ensures Bounded(phi) ==> 0.0 <= p <= 1.0
  {
    phi(Standardize(x, loc, scale))
  }

  lemma StandardizeMonotone(x1: real, x2: real, loc: real, scale: real)
    requires scale > 0.0
    requires x1 <= x2
    ensures Standardize(x1, loc, scale) <= Standardize(x2, loc, scale)
    ensures x1 < x2 ==> Standardize(x1, loc, scale) < Standardize(x2, loc, scale)
  {
    var z1, z2 := Standardize(x1, loc, scale), Standardize(x2, loc, scale);
    assert z2 - z1 == (x2 - x1) / scale;
  }

  /** Reflecting `x` about the mean negates its z-score. */
  lemma StandardizeMirror(x: real, loc: real, scale: real)
    requires scale > 0.0
    ensures Standardize(2.0 * loc - x, loc, scale) == -Standardize(x, loc, scale)
  {
    var z, w := Standardize(x, loc, scale), Standardize(2.0 * loc - x, loc, scale);
    assert (w + z) * scale == 0.0;
  }

  lemma CdfMonotone(phi: real -> real, x1: real, x2: real, loc: real, scale: real)
    requires Monotone(phi)
    requires scale > 0.0
    requires x1 <= x2
    ensures Cdf(phi, x1, loc, scale) <= Cdf(phi, x2, loc, scale)
  {
    StandardizeMonotone(x1, x2, loc, scale);
  }

  lemma CdfStrictlyMonotone(phi: real -> real, x1: real, x2: real, loc: real, scale: real)
    requires StrictlyMonotone(phi)
    requires scale > 0.0
    requires x1 < x2
    ensures Cdf(phi, x1, loc, scale) < Cdf(phi, x2, loc, scale)
  {
    StandardizeMonotone(x1, x2, loc, scale);
  }

  /** The mass below the mirror image of `x` equals the mass above `x`. */
  lemma CdfMirror(phi: real -> real, x: real, loc: real, scale: real)
    requires Symmetric(phi)
    requires scale > 0.0
    ensures Cdf(phi, 2.0 * loc - x, loc, scale) == 1.0 - Cdf(phi, x, loc, scale)
  {
    StandardizeMirror(x, loc, scale);
  }

  /** Half of the mass lies below the mean. */
  lemma CdfAtMean(phi: real -> real, loc: real, scale: real)
    requires Symmetric(phi)
    requires scale > 0.0
    ensures Cdf(phi, loc, loc, scale) == 0.5
  {
    assert Standardize(loc, loc, scale) == 0.0;
    assert phi(-0.0) == 1.0 - phi(0.0);
  }

  /** At or above the mean at least half the mass lies below; below the mean
      at most half does. */
  lemma CdfAgainstMean(phi: real -> real, x: real, loc: real, scale: real)
    requires Symmetric(phi) && Monotone(phi)
    requires scale > 0.0
    ensures x >= loc ==> Cdf(phi, x, loc, scale) >= 0.5
    ensures x <= loc ==> Cdf(phi, x, loc, scale) <= 0.5
  {
    CdfAtMean(phi, loc, scale);
    if x >= loc {
      CdfMonotone(phi, loc, x, loc, scale);
    } else {
      CdfMonotone(phi, x, loc, loc, scale);
    }
  }

  function Abs(x: real): real {
    if x < 0.0 then -x else x
  }

  /** z / (1 + |z|): an odd, strictly increasing map of the line onto (-1, 1). */
  function Squash(z: real): real {
    z / (1.0 + Abs(z))
  }

  /** A strictly increasing distribution function, 1/2 + Squash(z)/2. It is
      not the normal distribution; it shows that all the axioms above,
      strict monotonicity included, can hold at once. */
  function Sigmoid(z: real): real {
    0.5 + Squash(z) / 2.0
  }

  lemma SquashOdd(z: real)
    ensures Squash(-z) == -Squash(z)
  {
    assert Abs(-z) == Abs(z);
  }

  lemma SquashBounds(z: real)
    ensures -1.0 < Squash(z) < 1.0
    ensures z >= 0.0 <==> Squash(z) >= 0.0
  {
    var d := 1.0 + Abs(z);
    var q := Squash(z);
    assert q * d == z;
  }

  lemma SquashIncreasingNonNegative(a: real, b: real)
    requires 0.0 <= a < b
    ensures Squash(a) < Squash(b)
  {
    var qa, qb := Squash(a), Squash(b);
    assert qa * (1.0 + a) == a;
    assert qb * (1.0 + b) == b;
    assert (qb - qa) * ((1.0 + a) * (1.0 + b)) == b - a;
  }

  lemma SquashIncreasing(a: real, b: real)
    requires a < b
    ensures Squash(a) < Squash(b)
  {
    if 0.0 <= a {
      SquashIncreasingNonNegative(a, b);
    } else if b < 0.0 {
      SquashIncreasingNonNegative(-b, -a);
      SquashOdd(a);
      SquashOdd(b);
    } else {
      SquashBounds(a);
      SquashBounds(b);
    }
  }

  lemma {:induction false} SigmoidSatisfiesAxioms()
    ensures IsStdNormalCdf(Sigmoid)
    ensures StrictlyMonotone(Sigmoid)
  {
    forall z ensures 0.0 <= Sigmoid(z) <= 1.0 {
      SquashBounds(z);
    }
    forall z ensures Sigmoid(-z) == 1.0 - Sigmoid(z) {
      SquashOdd(z);
    }
    forall a, b | a < b ensures Sigmoid(a) < Sigmoid(b) {
      SquashIncreasing(a, b);
    }
  }
}
