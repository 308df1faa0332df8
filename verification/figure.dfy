/** The shading logic of `make_figure` in `alpha_beta/figure.py`: which
    points of the real line are shaded as alpha (under the null law), as beta
    and as power (under the alternative law), and where the dashed critical
    lines are drawn. Curves, traces and titles are presentation and are not
    modelled. */
module Figure {
  import opened NormalCdf
  import opened Stats

  /** The three pieces of the two-sided picture. */
  predicate LeftTail(cL: real, x: real) {
    x <= cL
  }

  predicate Middle(cL: real, cR: real, x: real) {
    cL <= x <= cR
  }

  predicate RightTail(cR: real, x: real) {
    x >= cR
  }

  /** Points shaded as alpha under the null density; the critical values
      themselves belong to the shaded region. */
  function AlphaMask(k: CriticalValues, x: real): (b: bool)
    ensures x in Crits(k) ==> b
  {
    match k
    case RightOnly(c) => x >= c
    case LeftOnly(c) => x <= c
    case Mirrored(cL, cR) => LeftTail(cL, x) || RightTail(cR, x)
  }

  /** Points shaded as beta under the alternative density. One-sided, it is
      the exact complement of the alpha shading; two-sided, it is empty
      unless cL <= cR and meets the alpha shading only at the critical
      values when cL < cR. */
  function BetaMask(k: CriticalValues, x: real): (b: bool)
    ensures !k.Mirrored? ==> (b <==> !AlphaMask(k, x))
    ensures k.Mirrored? && b ==> k.cL <= k.cR
    ensures k.Mirrored? && k.cL < k.cR && b && AlphaMask(k, x) ==> x == k.cL || x == k.cR
  {
    match k
    case RightOnly(c) => x < c
    case LeftOnly(c) => x > c
    case Mirrored(cL, cR) => Middle(cL, cR, x)
  }

  /** Points shaded as power under the alternative density: in every tail
      the same points as the alpha shading. */
  function PowerMask(k: CriticalValues, x: real): (b: bool)
    ensures b <==> AlphaMask(k, x)
  {
    match k
    case RightOnly(c) => x >= c
    case LeftOnly(c) => x <= c
    case Mirrored(cL, cR) => LeftTail(cL, x) || RightTail(cR, x)
  }

  /** The positions of the dashed critical lines: the present members of
      the (cL, cR) pair, left one first. */
  function Crits(k: CriticalValues): (cs: seq<real>)
    ensures |cs| == if k.Mirrored? then 2 else 1
    ensures k.LeftValue().Some? ==> cs[0] == k.LeftValue().value
    ensures k.RightValue().Some? ==> cs[|cs| - 1] == k.RightValue().value
  {
    match k
    case RightOnly(c) => [c]
    case LeftOnly(c) => [c]
    case Mirrored(cL, cR) => [cL, cR]
  }

  /** Right tail: alpha is shaded from c rightwards, beta strictly left of c,
      so every point is in exactly one of the two; power is shaded where
      alpha is. */
  lemma RightTailMasks(phi: real -> real, mu0: real, mu1: real, se: real, c: real, x: real)
    requires se > 0.0
    ensures var k := Errors(phi, mu0, mu1, se, c, Right).value.crit;
      && (AlphaMask(k, x) <==> x >= c)
      && (BetaMask(k, x) <==> x < c)
      && (AlphaMask(k, x) <==> !BetaMask(k, x))
      && (PowerMask(k, x) <==> AlphaMask(k, x))
  {
  }

  /** Left tail: alpha is shaded from c leftwards, beta strictly right of c. */
  lemma LeftTailMasks(phi: real -> real, mu0: real, mu1: real, se: real, c: real, x: real)
    requires se > 0.0
    ensures var k := Errors(phi, mu0, mu1, se, c, Left).value.crit;
      && (AlphaMask(k, x) <==> x <= c)
      && (BetaMask(k, x) <==> x > c)
      && (AlphaMask(k, x) <==> !BetaMask(k, x))
      && (PowerMask(k, x) <==> AlphaMask(k, x))
  {
  }

  /** Two-sided: the left tail, the middle band and the right tail cover the line. */
  lemma TwoSidedRegionsCover(cL: real, cR: real, x: real)
    ensures LeftTail(cL, x) || Middle(cL, cR, x) || RightTail(cR, x)
  {
  }

  /** Two-sided with cL < cR: the tails are disjoint and each touches the
      middle band in its critical value only. */
  lemma TwoSidedRegionsOverlap(cL: real, cR: real, x: real)
    requires cL < cR
    ensures !(LeftTail(cL, x) && RightTail(cR, x))
    ensures LeftTail(cL, x) && Middle(cL, cR, x) <==> x == cL
    ensures RightTail(cR, x) && Middle(cL, cR, x) <==> x == cR
  {
  }

  /** One dashed line for a one-sided test, at c; two for a two-sided test,
      at the cL and cR the evaluator returned, symmetric about the null mean. */
  lemma CritLines(phi: real -> real, mu0: real, mu1: real, se: real, c: real, tail: Tail)
    requires se > 0.0
    ensures var cs := Crits(Errors(phi, mu0, mu1, se, c, tail).value.crit);
      && (tail != TwoSided ==> cs == [c])
      && (tail == TwoSided ==> |cs| == 2 && cs[1] == c && cs[0] + cs[1] == 2.0 * mu0)
  {
  }

  /** A half-line or a closed band of the real line. */
  datatype Interval =
    | Below(hi: real, closed: bool)
    | Above(lo: real, closed: bool)
    | Band(lo: real, hi: real)

  predicate Contains(iv: Interval, x: real) {
    match iv
    case Below(hi, closed) => x < hi || (closed && x == hi)
    case Above(lo, closed) => x > lo || (closed && x == lo)
    case Band(lo, hi) => lo <= x <= hi
  }

  predicate InUnion(ivs: seq<Interval>, x: real) {
    exists i :: 0 <= i < |ivs| && Contains(ivs[i], x)
  }

  /** The mass a normal law puts on an interval. A continuous law puts no
      mass on a single point, so whether an end point is included does not
      matter. */
  function Mass(phi: real -> real, iv: Interval, mean: real, se: real): real
    requires se > 0.0
  {
    match iv
    case Below(hi, _) => Cdf(phi, hi, mean, se)
    case Above(lo, _) => 1.0 - Cdf(phi, lo, mean, se)
    case Band(lo, hi) => Cdf(phi, hi, mean, se) - Cdf(phi, lo, mean, se)
  }

  function TotalMass(phi: real -> real, ivs: seq<Interval>, mean: real, se: real): real
    requires se > 0.0
  {
    if ivs == [] then 0.0 else Mass(phi, ivs[0], mean, se) + TotalMass(phi, ivs[1..], mean, se)
  }

  /** The rejection region as intervals: shaded as alpha and as power. */
  function RejectionRegion(k: CriticalValues): seq<Interval> {
    match k
    case RightOnly(c) => [Above(c, true)]
    case LeftOnly(c) => [Below(c, true)]
    case Mirrored(cL, cR) => [Below(cL, true), Above(cR, true)]
  }

  /** The acceptance region as intervals: shaded as beta. */
  function AcceptanceRegion(k: CriticalValues): seq<Interval> {
    match k
    case RightOnly(c) => [Below(c, false)]
    case LeftOnly(c) => [Above(c, false)]
    case Mirrored(cL, cR) => [Band(cL, cR)]
  }

  /** The masks are exactly the points of the rejection and acceptance regions. */
  lemma MasksAreRegions(k: CriticalValues, x: real)
    ensures AlphaMask(k, x) <==> InUnion(RejectionRegion(k), x)
    ensures PowerMask(k, x) <==> InUnion(RejectionRegion(k), x)
    ensures BetaMask(k, x) <==> InUnion(AcceptanceRegion(k), x)
  {
    var rej, acc := RejectionRegion(k), AcceptanceRegion(k);
    if AlphaMask(k, x) {
      if k.Mirrored? && !LeftTail(k.cL, x) {
        assert Contains(rej[1], x);
      } else {
        assert Contains(rej[0], x);
      }
    }
    if BetaMask(k, x) {
      assert Contains(acc[0], x);
    }
  }

  /** The reported numbers are the interval sums of the shaded regions:
      alpha sums the null law over the rejection intervals, beta the
      alternative law over the acceptance intervals and power the
      alternative law over the rejection intervals, in every tail. The sums
      are probabilities of the regions only when the intervals do not
      overlap and the band is not empty, as for a normalised pair. */
  lemma ShadedAreasMatchErrors(phi: real -> real, mu0: real, mu1: real, se: real, c: real, tail: Tail)
    requires se > 0.0
    ensures var r := Errors(phi, mu0, mu1, se, c, tail).value;
      && r.alpha == TotalMass(phi, RejectionRegion(r.crit), mu0, se)
      && r.beta == TotalMass(phi, AcceptanceRegion(r.crit), mu1, se)
      && r.power == TotalMass(phi, RejectionRegion(r.crit), mu1, se)
  {
    var r := Errors(phi, mu0, mu1, se, c, tail).value;
    var rej, acc := RejectionRegion(r.crit), AcceptanceRegion(r.crit);
    assert acc[1..] == [];
    if tail == TwoSided {
      assert rej[1..][1..] == [] && rej[1..][0] == rej[1];
      assert TotalMass(phi, rej[1..], mu0, se) == Mass(phi, rej[1], mu0, se);
      assert TotalMass(phi, rej[1..], mu1, se) == Mass(phi, rej[1], mu1, se);
      assert TotalMass(phi, rej, mu0, se) == Mass(phi, rej[0], mu0, se) + Mass(phi, rej[1], mu0, se);
      assert TotalMass(phi, rej, mu1, se) == Mass(phi, rej[0], mu1, se) + Mass(phi, rej[1], mu1, se);
    } else {
      assert rej[1..] == [];
    }
  }

  /** With cL <= cR the two rejection intervals share at most one point,
      and only when cL == cR. */
  lemma RejectionTailsMeetAtMostOnce(cL: real, cR: real, x: real)
    requires cL <= cR
    ensures var rej := RejectionRegion(Mirrored(cL, cR));
      Contains(rej[0], x) && Contains(rej[1], x) ==> x == cL == cR
  {
  }

  /** Fed a raw two-sided c below the null mean, as `make_figure` would pass
      it, the shading and the numbers disagree: every point is shaded as
      alpha and none as beta, while the interval sums are at least one for
      the rejection region and at most zero for the acceptance region. */
  lemma RawBelowNullMeanShading(phi: real -> real, mu0: real, mu1: real, se: real, c: real, x: real)
    requires IsStdNormalCdf(phi)
    requires se > 0.0
    requires c < mu0
    ensures var k := Errors(phi, mu0, mu1, se, c, TwoSided).value.crit;
      && AlphaMask(k, x) && !BetaMask(k, x)
      && TotalMass(phi, RejectionRegion(k), mu0, se) >= 1.0
      && TotalMass(phi, AcceptanceRegion(k), mu1, se) <= 0.0
  {
    ShadedAreasMatchErrors(phi, mu0, mu1, se, c, TwoSided);
    TwoSidedBelowNullMean(phi, mu0, mu1, se, c);
  }
}
