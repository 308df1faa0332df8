# Alpha-beta explorer: error, power and shading engine

This project models the computational core of an interactive explorer of
the Type I error (alpha), the Type II error (beta) and the power (1 - beta)
of a test of a null mean mu0 against an alternative mean mu1. The test
statistic is normal with standard error se. The model has three pieces:

- the evaluator `errors` (module `Stats`). For a right, left or two-sided
  test at critical value c, it gives alpha, beta, power and the (cL, cR)
  pair of critical values;
- the c-mode branch of the `update` callback (module `Callbacks`). It turns
  a raw critical value into the (cL, cR) pair. A two-sided value below mu0
  is reflected about mu0. The module also models the value echoed back to
  the critical-value slider;
- the shading masks of `make_figure` (module `Figure`). They say which
  points are shaded as alpha, beta and power, and where the critical lines
  are drawn.

The standard normal distribution function Phi is a parameter `phi`. The
lemmas assume only three facts about it (module `NormalCdf`): its values
lie in [0, 1], it is monotone, and Phi(-z) = 1 - Phi(z). A few lemmas also
assume strict monotonicity, and they say so. `norm.cdf(x, loc=m, scale=s)`
is read as Phi((x - m) / s). `NormalCdf.SigmoidSatisfiesAxioms` proves that
the function 1/2 + z/(2(1 + |z|)) meets all three facts and is strictly
increasing, so these assumptions are consistent.

The callback does not fit the other two files. It imports
`se_from_sigma_n`, `critical_from_alpha` and `errors_from_c`, and
`stats.py` defines none of them. It also calls `make_figure` with nine
arguments, but `make_figure` takes five. The model composes the pieces as
follows (`Callbacks.EvaluateC`):
1. normalise c;
2. call `errors` at the normalised value (cR, or cL for a left-tailed test);
3. shade by the returned pair.

`Callbacks.EvaluateCShading` states what the masks give for that pair.

Two behaviours of the code worth knowing:
- At c = mu0 a right-tailed test gives alpha = 1/2 and beta =
  Phi((mu0 - mu1)/se). Beta is 1/2 when mu1 = mu0
  (`Stats.RightTailAtNullMean`), and under a strictly increasing Phi only
  then (`Stats.RightTailHalfBetaOnlyAtEqualMeans`).
- In c mode the callback echoes the raw `c_val` to the slider, not the
  normalised cR (callbacks.py:48). `Callbacks.EchoRenormalises` shows the
  echo still normalises back to the same pair.

## Model

| member | source | states |
|---|---|---|
| NormalCdf.Standardize | alpha_beta/stats.py:6 | the z-score is the unique z with x = loc + z·se, and it is non-negative exactly when x is at or above the mean |
| NormalCdf.Cdf | alpha_beta/stats.py:6-7 | the normal distribution function at x is a probability in [0, 1] whenever Phi is |
| Stats.Errors | alpha_beta/stats.py:4-23 | fails exactly when se ≤ 0; power is exactly 1 − beta; the pair has the tail's shape (only cR for right, only cL for left, both for two-sided), its placed value is c, and two-sided cL + cR = 2·mu0 |
| Stats.CriticalPairAsOptions | alpha_beta/stats.py:9-23 | the returned pair read as (cL, cR) with absent values: (absent, c) for right, (c, absent) for left, (2·mu0 − c, c) for two-sided |
| Stats.RightTailMonotone | alpha_beta/stats.py:5-8 | right tail under a monotone Phi: raising c never raises alpha, never lowers beta and never raises power |
| Stats.LeftTailMonotone | alpha_beta/stats.py:11-14 | left tail: raising c never lowers alpha, never raises beta and never lowers power |
| Stats.RightTailStrictlyMonotone | alpha_beta/stats.py:6-7 | right tail under a strictly increasing Phi: raising c strictly lowers alpha and strictly raises beta |
| Stats.OneSidedInUnitInterval | alpha_beta/stats.py:5-15 | one-sided alpha, beta and power all lie in [0, 1] when Phi does |
| Stats.OneSidedComplementary | alpha_beta/stats.py:6-13 | at the same c, the right and left alphas sum to 1, and so do the right and left betas |
| Stats.RightTailAtNullMean | alpha_beta/stats.py:6-8 | right tail with c = mu0 gives alpha = 1/2; beta and power are 1/2 when mu1 = mu0 |
| Stats.RightTailHalfBetaOnlyAtEqualMeans | alpha_beta/stats.py:6-8 | under a symmetric, strictly increasing Phi, a right-tailed test at c = mu0 has beta = 1/2 only when mu1 = mu0 |
| Stats.TwoSidedAtOrAboveNullMean | alpha_beta/stats.py:17-23 | two-sided with c ≥ mu0: the two tails carry equal null mass, so alpha = 2·(1 − Phi((c − mu0)/se)); alpha, beta and power are in [0, 1] |
| Stats.TwoSidedBelowNullMean | alpha_beta/stats.py:17-23 | two-sided with c < mu0: beta ≤ 0 and alpha ≥ 1, so the raw value must be reflected before evaluation |
| Callbacks.NormaliseC | alpha_beta/callbacks.py:26-35 | the pair has the tail's shape; one-sided values are kept as given; two-sided cR ≥ mu0, cL + cR = 2·mu0 and cL ≤ cR; a two-sided value at or above mu0 becomes cR, one below mu0 becomes cL with its mirror image as cR |
| Callbacks.TwoSidedPairIsSortedMirror | alpha_beta/callbacks.py:27-31 | the two-sided pair is the raw value and its mirror image about mu0, smaller one first |
| Callbacks.NormaliseIdempotent | alpha_beta/callbacks.py:27-35 | normalising the value that normalisation placed returns the same pair |
| Callbacks.EvaluateC | alpha_beta/callbacks.py:27-37 | c-mode evaluation fails exactly when se ≤ 0; otherwise the evaluator's pair is exactly the normalised pair, including the mirrored cL |
| Callbacks.EvaluateCInUnitInterval | alpha_beta/callbacks.py:27-37 | for every tail and every raw value, c-mode evaluation yields alpha, beta and power in [0, 1] |
| Callbacks.EvaluateCShading | alpha_beta/callbacks.py:27-37 | for the c-mode pair, two-sided cL ≤ cR, with cL < cR exactly when the raw value is not mu0; the alpha and beta shadings cover the line and meet only on the critical lines; alpha, beta and power are the interval sums of the shaded regions |
| Callbacks.SliderEcho | alpha_beta/callbacks.py:48 | in c mode the raw value is echoed; in alpha mode the echo is cR (cL for a left tail) whenever the pair has that side, and absent exactly when it lacks it; for a pair that fits the tail this is its placed value |
| Callbacks.EchoRenormalises | alpha_beta/callbacks.py:27-48 | the echoed value is always present, and in c mode normalising it gives back the pair just evaluated; in c mode it differs from the placed value exactly when a two-sided raw value is below mu0 |
| Callbacks.AlphaEchoRenormalises | alpha_beta/callbacks.py:48 | in alpha mode, for any pair that fits the tail and (two-sided) is mirrored about mu0 with cR ≥ mu0, the echo is present and normalises back to that pair |
| Figure.AlphaMask | alpha_beta/figure.py:21-42 | the alpha shading (x ≥ c, x ≤ c, or left tail ∪ right tail) contains the critical values themselves |
| Figure.BetaMask | alpha_beta/figure.py:21-42 | one-sided, the beta shading is the exact complement of the alpha shading; two-sided, it is empty unless cL ≤ cR, and when cL < cR it meets the alpha shading only at cL and cR |
| Figure.PowerMask | alpha_beta/figure.py:21-61 | in every tail the power shading is exactly the alpha shading |
| Figure.Crits | alpha_beta/figure.py:23-43 | one line for a one-sided test, two for a two-sided test; the first line is cL and the last cR, whichever are present |
| Figure.RightTailMasks | alpha_beta/figure.py:22-23 | right tail: alpha is shaded on x ≥ c and beta on x < c, so each point is in exactly one; power is shaded where alpha is |
| Figure.LeftTailMasks | alpha_beta/figure.py:24-25 | left tail: alpha is shaded on x ≤ c and beta on x > c, so each point is in exactly one; power is shaded where alpha is |
| Figure.TwoSidedRegionsCover | alpha_beta/figure.py:40-42 | every point is in the left tail, the middle band or the right tail |
| Figure.TwoSidedRegionsOverlap | alpha_beta/figure.py:40-42 | when cL < cR, the tails are disjoint, and each meets the middle band only at its own critical value |
| Figure.CritLines | alpha_beta/figure.py:14-43 | one dashed line at c for a one-sided test; for a two-sided test two lines, [cL, cR], with cR = c and cL + cR = 2·mu0 |
| Figure.MasksAreRegions | alpha_beta/figure.py:21-71 | a point is shaded as alpha or power exactly when it lies in the rejection region, and as beta exactly when it lies in the acceptance region |
| Figure.ShadedAreasMatchErrors | alpha_beta/figure.py:14-71 | in every tail, the reported alpha sums the null law's mass interval by interval over the rejection intervals; beta and power sum the alternative law's mass over the acceptance and rejection intervals |
| Figure.RejectionTailsMeetAtMostOnce | alpha_beta/figure.py:40-42 | when cL ≤ cR, the two rejection intervals share at most one point, and only when cL = cR |
| Figure.RawBelowNullMeanShading | alpha_beta/figure.py:14-42 | with a raw two-sided c below mu0, every point is shaded alpha and none beta, while the rejection sum is at least 1 and the acceptance sum at most 0 |

## Left out

- Numeric values of Phi and of the normal density. The model keeps Phi abstract and does not reproduce numeric scenarios such as alpha ≈ 0.05 or beta ≈ 0.1903.
- Floating point: every quantity is an exact real, and the `float(...)` conversions in `errors` are identities.
- `critical_from_alpha`, `se_from_sigma_n` and `errors_from_c`. The callback imports them, but `stats.py` does not define them. Because of this, the alpha mode of the callback is modelled only through the slider echo of an already evaluated pair.
- The `make_figure` call in the callback. It passes nine arguments to a five-argument function, so it is not modelled as written.
- Curve sampling, the Plotly traces, titles and statistics strings, and the block-visibility styles. These are presentation.
- The Dash layout, app wiring and server start-up. These are UI and I/O.
- Stats.Errors: does not model NaN results. The code does not check se, so a non-positive se reaches the numeric library. The code then returns NaN for alpha, beta and power together with the pair, for example `(nan, nan, nan, None, c)` for a right tail. The model returns the domain error `InvalidParameters` and no pair.
- Figure.ShadedAreasMatchErrors: proves only that the numbers equal the interval sums. A sum is the probability of its region only when the intervals do not overlap and the band is not empty. `Callbacks.EvaluateCShading` and `Figure.RejectionTailsMeetAtMostOnce` establish this for normalised pairs. For a raw two-sided c below mu0, which `make_figure` passes to `errors` unchanged, the sums are not probabilities (`Figure.RawBelowNullMeanShading`).
