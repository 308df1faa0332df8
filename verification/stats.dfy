/** The error/power evaluator of `alpha_beta/stats.py`: given the two means,
    the standard error, the critical value and the tail of the test, the
    Type I error alpha, the Type II error beta, the power 1 - beta and the
    critical values that bound the rejection region. */
module Stats {
  import opened Values
  import opened NormalCdf

  /** The closed set of alternatives the test can take. */
  datatype Tail = Right | Left | TwoSided

  /** The (cL, cR) pair: one-sided tests have exactly one critical value,
      two-sided tests both. */
  datatype CriticalValues =
    | RightOnly(cR: real)
    | LeftOnly(cL: real)
    | Mirrored(cL: real, cR: real)
  {
    /** The left member of the pair, absent for a right-tailed test. */
    function LeftValue(): Option<real> {
      if RightOnly? then None else Some(cL)
    }

    /** The right member of the pair, absent for a left-tailed test. */
    function RightValue(): Option<real> {
      if LeftOnly? then None else Some(cR)
    }

    /** The value the user places: cR, except for a left-tailed test. */
    function Pivot(): real {
      if LeftOnly? then cL else cR
    }
  }

  /** The pair has the shape the tail calls for. */
  predicate Fits(tail: Tail, crit: CriticalValues) {
    match tail
    case Right => crit.RightOnly?
    case Left => crit.LeftOnly?
    case TwoSided => crit.Mirrored?
  }

  datatype ErrorReport = ErrorReport(alpha: real, beta: real, power: real, crit: CriticalValues)

  /** `errors(mu0, mu1, sigma, c, tail)`, with `sigma` the standard error.
      A non-positive standard error has no normal law behind it and is
      reported as the domain error. */
  function Errors(phi: real -> real, mu0: real, mu1: real, se: real, c: real, tail: Tail): (r: Result<ErrorReport>)
    ensures r.Err? <==> se <= 0.0
    ensures r.Ok? ==> r.value.power == 1.0 - r.value.beta
    ensures r.Ok? ==> Fits(tail, r.value.crit) && r.value.crit.Pivot() == c
    ensures r.Ok? && tail == TwoSided ==> r.value.crit.cL + r.value.crit.cR == 2.0 * mu0
  {
    if se <= 0.0 then Err(InvalidParameters)
    else
      match tail
      case Right =>
        var alpha := 1.0 - Cdf(phi, c, mu0, se);
        var beta := Cdf(phi, c, mu1, se);
        Ok(ErrorReport(alpha, beta, 1.0 - beta, RightOnly(c)))
      case Left =>
        var alpha := Cdf(phi, c, mu0, se);
        var beta := 1.0 - Cdf(phi, c, mu1, se);
        Ok(ErrorReport(alpha, beta, 1.0 - beta, LeftOnly(c)))
      case TwoSided =>
        var cR := c;
        var cL := 2.0 * mu0 - cR;
        var alpha := (1.0 - Cdf(phi, cR, mu0, se)) + Cdf(phi, cL, mu0, se);
        var beta := Cdf(phi, cR, mu1, se) - Cdf(phi, cL, mu1, se);
        Ok(ErrorReport(alpha, beta, 1.0 - beta, Mirrored(cL, cR)))
  }

  /** The returned (cL, cR) tuple: right tail (None, c), left tail (c, None),
      two-sided (2 mu0 - c, c). */
  lemma CriticalPairAsOptions(phi: real -> real, mu0: real, mu1: real, se: real, c: real, tail: Tail)
    requires se > 0.0
    ensures var k := Errors(phi, mu0, mu1, se, c, tail).value.crit;
      && (tail == Right ==> k.LeftValue() == None && k.RightValue() == Some(c))
      && (tail == Left ==> k.LeftValue() == Some(c) && k.RightValue() == None)
      && (tail == TwoSided ==> k.LeftValue() == Some(2.0 * mu0 - c) && k.RightValue() == Some(c))
  {
  }

  /** Right tail: moving c to the right shrinks the rejection region, so
      alpha cannot grow and beta cannot shrink. */
  lemma RightTailMonotone(phi: real -> real, mu0: real, mu1: real, se: real, c1: real, c2: real)
    requires Monotone(phi)
    requires se > 0.0
    requires c1 <= c2
    ensures Errors(phi, mu0, mu1, se, c2, Right).value.alpha <= Errors(phi, mu0, mu1, se, c1, Right).value.alpha
    ensures Errors(phi, mu0, mu1, se, c1, Right).value.beta <= Errors(phi, mu0, mu1, se, c2, Right).value.beta
    ensures Errors(phi, mu0, mu1, se, c2, Right).value.power <= Errors(phi, mu0, mu1, se, c1, Right).value.power
  {
    CdfMonotone(phi, c1, c2, mu0, se);
    CdfMonotone(phi, c1, c2, mu1, se);
  }

  /** Left tail: the reverse, moving c to the right grows the rejection region. */
  lemma LeftTailMonotone(phi: real -> real, mu0: real, mu1: real, se: real, c1: real, c2: real)
    requires Monotone(phi)
    requires se > 0.0
    requires c1 <= c2
    ensures Errors(phi, mu0, mu1, se, c1, Left).value.alpha <= Errors(phi, mu0, mu1, se, c2, Left).value.alpha
    ensures Errors(phi, mu0, mu1, se, c2, Left).value.beta <= Errors(phi, mu0, mu1, se, c1, Left).value.beta
    ensures Errors(phi, mu0, mu1, se, c1, Left).value.power <= Errors(phi, mu0, mu1, se, c2, Left).value.power
  {
    CdfMonotone(phi, c1, c2, mu0, se);
    CdfMonotone(phi, c1, c2, mu1, se);
  }

  /** With the true, strictly increasing Phi, raising c in a right-tailed
      test strictly lowers alpha and strictly raises beta. */
  lemma RightTailStrictlyMonotone(phi: real -> real, mu0: real, mu1: real, se: real, c1: real, c2: real)
    requires StrictlyMonotone(phi)
    requires se > 0.0
    requires c1 < c2
    ensures Errors(phi, mu0, mu1, se, c2, Right).value.alpha < Errors(phi, mu0, mu1, se, c1, Right).value.alpha
    ensures Errors(phi, mu0, mu1, se, c1, Right).value.beta < Errors(phi, mu0, mu1, se, c2, Right).value.beta
  {
    CdfStrictlyMonotone(phi, c1, c2, mu0, se);
    CdfStrictlyMonotone(phi, c1, c2, mu1, se);
  }

  /** One-sided tests report probabilities: alpha, beta and power lie in [0, 1]. */
  lemma OneSidedInUnitInterval(phi: real -> real, mu0: real, mu1: real, se: real, c: real, tail: Tail)
    requires Bounded(phi)
    requires se > 0.0
    requires tail != TwoSided
    ensures var r := Errors(phi, mu0, mu1, se, c, tail).value;
      0.0 <= r.alpha <= 1.0 && 0.0 <= r.beta <= 1.0 && 0.0 <= r.power <= 1.0
  {
  }

  /** At the same c the right and left rejection regions split the null
      law between them, and likewise the acceptance regions the alternative. */
  lemma OneSidedComplementary(phi: real -> real, mu0: real, mu1: real, se: real, c: real)
    requires se > 0.0
    ensures Errors(phi, mu0, mu1, se, c, Right).value.alpha + Errors(phi, mu0, mu1, se, c, Left).value.alpha == 1.0
    ensures Errors(phi, mu0, mu1, se, c, Right).value.beta + Errors(phi, mu0, mu1, se, c, Left).value.beta == 1.0
  {
  }

  /** A right-tailed test with c at the null mean rejects half of the null
      law. Beta is one half as well only when the two means coincide. */
  lemma RightTailAtNullMean(phi: real -> real, mu0: real, mu1: real, se: real)
    requires Symmetric(phi)
    requires se > 0.0
    ensures Errors(phi, mu0, mu1, se, mu0, Right).value.alpha == 0.5
    ensures mu1 == mu0 ==> Errors(phi, mu0, mu1, se, mu0, Right).value.beta == 0.5
    ensures mu1 == mu0 ==> Errors(phi, mu0, mu1, se, mu0, Right).value.power == 0.5
  {
    CdfAtMean(phi, mu0, se);
  }

  /** Under the true, strictly increasing Phi the converse holds too: a
      right-tailed test at c = mu0 has beta = 1/2 only when mu1 = mu0. */
  lemma RightTailHalfBetaOnlyAtEqualMeans(phi: real -> real, mu0: real, mu1: real, se: real)
    requires Symmetric(phi) && StrictlyMonotone(phi)
    requires se > 0.0
    requires Errors(phi, mu0, mu1, se, mu0, Right).value.beta == 0.5
    ensures mu1 == mu0
  {
    CdfAtMean(phi, mu1, se);
    if mu0 < mu1 {
      CdfStrictlyMonotone(phi, mu0, mu1, mu1, se);
    } else if mu1 < mu0 {
      CdfStrictlyMonotone(phi, mu1, mu0, mu1, se);
    }
  }

  /** Two-sided test with c on the right of the null mean: the two tails
      carry equal mass, so alpha = 2 (1 - Phi((c - mu0)/se)), and alpha,
      beta and power are probabilities. */
  lemma TwoSidedAtOrAboveNullMean(phi: real -> real, mu0: real, mu1: real, se: real, c: real)
    requires IsStdNormalCdf(phi)
    requires se > 0.0
    requires c >= mu0
    ensures var r := Errors(phi, mu0, mu1, se, c, TwoSided).value;
      && r.alpha == 2.0 * (1.0 - Cdf(phi, c, mu0, se))
      && 0.0 <= r.alpha <= 1.0
      && 0.0 <= r.beta <= 1.0
      && 0.0 <= r.power <= 1.0
  {
    var cL := 2.0 * mu0 - c;
    CdfMirror(phi, c, mu0, se);
    CdfAgainstMean(phi, c, mu0, se);
    CdfMonotone(phi, cL, c, mu1, se);
  }

  /** Two-sided test fed a c below the null mean: the "acceptance band"
      [cL, cR] is empty and the formulas stop being probabilities (beta is
      not positive, alpha is at least one). This is why the caller reflects
      such a c before evaluating. */
  lemma TwoSidedBelowNullMean(phi: real -> real, mu0: real, mu1: real, se: real, c: real)
    requires IsStdNormalCdf(phi)
    requires se > 0.0
    requires c < mu0
    ensures var r := Errors(phi, mu0, mu1, se, c, TwoSided).value;
      r.beta <= 0.0 && r.alpha >= 1.0
  {
    var cL := 2.0 * mu0 - c;
    CdfMirror(phi, c, mu0, se);
    CdfAgainstMean(phi, c, mu0, se);
    CdfMonotone(phi, c, cL, mu1, se);
  }
}
