/** The critical-value handling of the `update` callback in
    `alpha_beta/callbacks.py`: how a raw critical value typed or slid by the
    user becomes the (cL, cR) pair, how that pair is evaluated, and which
    value is echoed back to the critical-value slider. */
module Callbacks {
  import opened Values
  import opened NormalCdf
  import opened Stats
  import opened Figure

  /** How the critical region is specified: by a significance level or by
      an explicit critical value. */
  datatype CritMode = ByAlpha | ByC

  function Min(a: real, b: real): real {
    if a <= b then a else b
  }

  function Max(a: real, b: real): real {
    if a <= b then b else a
  }

  /** The c-mode branch of `update`: a two-sided raw value below the null
      mean is reflected about it and taken as cR, cL mirroring cR; a
      one-sided raw value is placed on the tail's side unchanged. */
  function NormaliseC(mu0: real, cVal: real, tail: Tail): (k: CriticalValues)
    ensures Fits(tail, k)
    ensures tail != TwoSided ==> k.Pivot() == cVal
    ensures tail == TwoSided ==> k.cR >= mu0 && k.cL + k.cR == 2.0 * mu0 && k.cL <= k.cR
    ensures tail == TwoSided && cVal >= mu0 ==> k.cR == cVal
    ensures tail == TwoSided && cVal < mu0 ==> k.cR == 2.0 * mu0 - cVal && k.cL == cVal
  {
    match tail
    case TwoSided =>
      var cR := if cVal < mu0 then mu0 + Abs(cVal - mu0) else cVal;
      Mirrored(2.0 * mu0 - cR, cR)
    case Right => RightOnly(cVal)
    case Left => LeftOnly(cVal)
  }

  /** The two-sided pair is the raw value and its mirror image, in order. */
  lemma TwoSidedPairIsSortedMirror(mu0: real, cVal: real)
    ensures NormaliseC(mu0, cVal, TwoSided).cL == Min(cVal, 2.0 * mu0 - cVal)
    ensures NormaliseC(mu0, cVal, TwoSided).cR == Max(cVal, 2.0 * mu0 - cVal)
  {
  }

  /** Normalising the value normalisation placed is a no-op. */
  lemma NormaliseIdempotent(mu0: real, cVal: real, tail: Tail)
    ensures var k := NormaliseC(mu0, cVal, tail);
      NormaliseC(mu0, k.Pivot(), tail) == k
  {
  }

  /** The c-mode evaluation: normalise the raw value, then evaluate at the
      value normalisation placed. */
  function EvaluateC(phi: real -> real, mu0: real, mu1: real, se: real, tail: Tail, cVal: real): (r: Result<ErrorReport>)
    ensures r.Err? <==> se <= 0.0
    ensures r.Ok? ==> r.value.crit == NormaliseC(mu0, cVal, tail)
  {
    Errors(phi, mu0, mu1, se, NormaliseC(mu0, cVal, tail).Pivot(), tail)
  }

  /** Whatever the raw value and the tail, c-mode evaluation reports
      probabilities: alpha, beta and power all lie in [0, 1]. */
  lemma EvaluateCInUnitInterval(phi: real -> real, mu0: real, mu1: real, se: real, tail: Tail, cVal: real)
    requires IsStdNormalCdf(phi)
    requires se > 0.0
    ensures var r := EvaluateC(phi, mu0, mu1, se, tail, cVal).value;
      0.0 <= r.alpha <= 1.0 && 0.0 <= r.beta <= 1.0 && 0.0 <= r.power <= 1.0
  {
    var c := NormaliseC(mu0, cVal, tail).Pivot();
    if tail == TwoSided {
      TwoSidedAtOrAboveNullMean(phi, mu0, mu1, se, c);
    } else {
      OneSidedInUnitInterval(phi, mu0, mu1, se, c, tail);
    }
  }

  /** Shading the c-mode report: the two-sided pair is ordered (strictly,
      unless the raw value is the null mean), so the alpha and beta shadings
      together cover the line and meet only on the critical lines, and the
      reported numbers are the interval sums of the shaded regions. */
  lemma EvaluateCShading(phi: real -> real, mu0: real, mu1: real, se: real, tail: Tail, cVal: real, x: real)
    requires se > 0.0
    ensures var r := EvaluateC(phi, mu0, mu1, se, tail, cVal).value;
      && (tail == TwoSided ==> r.crit.cL <= r.crit.cR && (r.crit.cL < r.crit.cR <==> cVal != mu0))
      && (AlphaMask(r.crit, x) || BetaMask(r.crit, x))
      && (AlphaMask(r.crit, x) && BetaMask(r.crit, x) ==> x in Crits(r.crit))
      && r.alpha == TotalMass(phi, RejectionRegion(r.crit), mu0, se)
      && r.beta == TotalMass(phi, AcceptanceRegion(r.crit), mu1, se)
      && r.power == TotalMass(phi, RejectionRegion(r.crit), mu1, se)
  {
    var c := NormaliseC(mu0, cVal, tail).Pivot();
    ShadedAreasMatchErrors(phi, mu0, mu1, se, c, tail);
  }

  /** `c_out`: in alpha mode the slider shows the evaluated cR (cL for a
      left-tailed test); in c mode the raw value is echoed as it came. */
  function SliderEcho(mode: CritMode, tail: Tail, eff: CriticalValues, cVal: real): (out: Option<real>)
    ensures mode == ByC ==> out == Some(cVal)
    ensures mode == ByAlpha && Fits(tail, eff) ==> out == Some(eff.Pivot())
    ensures mode == ByAlpha ==> (out.None? <==> (if tail == Left then eff.RightOnly? else eff.LeftOnly?))
    ensures mode == ByAlpha && out.Some? ==> out.value == (if tail == Left then eff.cL else eff.cR)
  {
    if mode == ByAlpha then (if tail != Left then eff.RightValue() else eff.LeftValue()) else Some(cVal)
  }

  /** The echoed slider value leads back to the same pair: normalising it
      gives the pair just evaluated. In c mode the echo is the raw value,
      which differs from the placed value exactly when a two-sided raw value
      lies below the null mean. */
  lemma EchoRenormalises(mode: CritMode, mu0: real, cVal: real, tail: Tail)
    ensures var eff := NormaliseC(mu0, cVal, tail);
      var out := SliderEcho(mode, tail, eff, cVal);
      && out.Some?
      && NormaliseC(mu0, out.value, tail) == eff
      && (mode == ByC ==> (out.value == eff.Pivot() <==> !(tail == TwoSided && cVal < mu0)))
  {
    NormaliseIdempotent(mu0, cVal, tail);
  }

  /** In alpha mode the pair comes from the significance level. Whenever it
      fits the tail and, two-sided, is mirrored about mu0 with cR on the
      right of mu0, the echoed value normalises back to that same pair. */
  lemma AlphaEchoRenormalises(mu0: real, eff: CriticalValues, tail: Tail, cVal: real)
    requires Fits(tail, eff)
    requires tail == TwoSided ==> eff.cR >= mu0 && eff.cL + eff.cR == 2.0 * mu0
    ensures SliderEcho(ByAlpha, tail, eff, cVal).Some?
    ensures NormaliseC(mu0, SliderEcho(ByAlpha, tail, eff, cVal).value, tail) == eff
  {
  }
}
