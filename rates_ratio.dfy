/**
 * The decision logic of the rates-ratio hypothesis test (`rates_ratio_test`,
 * stat_inference.py). Rates and their ratio are exact rationals (`real`); the
 * transcendental parts of the Wald interval (natural log, exp, square root and
 * the standard normal quantile) are supplied by the caller as a `Numerics`
 * record, so the interval endpoints are whatever those functions return.
 */
module RatesRatio {
  import opened Wrappers

  /** `ratio_hypo` as the caller passes it: a non-list value (possibly `None`) or a list. */
  datatype HypoInput = NonList(value: Option<real>) | List(items: seq<Option<real>>)

  /** A normalised null hypothesis on the ratio oec_b / oec_a. */
  datatype Hypothesis =
    | PointNull(ratio: real)               // ratio == r
    | TwoSided(lower: real, upper: real)   // r1 < ratio < r2
    | UpperOnly(upper: real)               // ratio < r2
    | LowerOnly(lower: real)               // ratio > r1

  /** An extended real: `-np.inf`, a finite value, or `np.inf`. */
  datatype Bound = NegInf | Fin(v: real) | PosInf

  /** The confidence interval `[ci_l, ci_u]`. */
  datatype Interval = Interval(lo: Bound, hi: Bound)

  /** The exceptions the function raises. */
  datatype TestError =
    | InputsMissing          // ValueError "Inputs are missing."
    | HypothesisType         // TypeError "Null hypothesis type is incorrect."
    | HypothesisBothMissing  // ValueError "Null hypothesis's both values are missing."
    | HypothesisOrder        // ValueError "Left null hypothesis should be smaller than the right."
    | ZeroDivision           // ZeroDivisionError from `pos / num` with num == 0
    | UnboundInterval        // UnboundLocalError: ci_l / ci_u read but never assigned

  /** The returned dict, with `ratio_hypo` and `ratio_ci` kept as values instead of strings. */
  datatype TestResult = TestResult(
    oecA: real,
    oecB: real,
    oecRatio: Option<real>,
    ratioHypo: HypoInput,
    ratioCi: Option<Interval>,
    reject: bool)

  /** The floating-point functions the interval needs: `np.log`, `np.exp`, `np.power(·, 0.5)`
      and `st.norm.ppf`. */
  datatype Numerics = Numerics(log: real -> real, exp: real -> real, sqrt: real -> real, normPpf: real -> real)

  /** The default arguments `ratio_hypo=[None, 2.7]` and `alpha=0.05`. */
  const DefaultHypo: HypoInput := List([None, Some(2.7)])
  const DefaultAlpha: real := 0.05

  // ---------------------------------------------------------------------------
  // Normalising the null hypothesis

  /** The pair `(r1, r2)` a normalised hypothesis stands for. */
  function LowerOf(hy: Hypothesis): Option<real>
  {
    match hy
    case PointNull(r) => Some(r)
    case TwoSided(r1, _) => Some(r1)
    case UpperOnly(_) => None
    case LowerOnly(r1) => Some(r1)
  }

  function UpperOf(hy: Hypothesis): Option<real>
  {
    match hy
    case PointNull(r) => Some(r)
    case TwoSided(_, r2) => Some(r2)
    case UpperOnly(r2) => Some(r2)
    case LowerOnly(_) => None
  }

  /** A list hypothesis the source accepts: two entries, not both absent, ordered when both present. */
  predicate AcceptedList(items: seq<Option<real>>)
  {
    && |items| == 2
    && (items[0].Some? || items[1].Some?)
    && (items[0].Some? && items[1].Some? ==> items[0].value <= items[1].value)
  }

  /** stat_inference.py:63-75 as written: the pair `(r1, r2)`, or the exception raised. */
  function RawBounds(h: HypoInput): (r: Result<(Option<real>, Option<real>), TestError>)
    ensures r.Ok? <==> h.NonList? || AcceptedList(h.items)
    ensures h.NonList? ==> r == Ok((h.value, h.value))
    ensures h.List? && r.Ok? ==> r.value == (h.items[0], h.items[1])
    ensures h.List? && |h.items| != 2 ==> r == Err(HypothesisType)
  {
    match h
    case NonList(v) => Ok((v, v))
    case List(items) =>
      if |items| == 2 then
        var r1, r2 := items[0], items[1];
        if r1.None? && r2.None? then Err(HypothesisBothMissing)
        else if r1.Some? && r2.Some? && r1.value > r2.value then Err(HypothesisOrder)
        else Ok((r1, r2))
      else Err(HypothesisType)
  }

  /** The tagged variant of a pair with at least one bound present. */
  function Classify(r1: Option<real>, r2: Option<real>, point: bool): (hy: Hypothesis)
    requires r1.Some? || r2.Some?
    requires point ==> r1 == r2
    ensures LowerOf(hy) == r1 && UpperOf(hy) == r2
  {
    if point then PointNull(r1.value)
    else if r1.Some? && r2.Some? then TwoSided(r1.value, r2.value)
    else if r2.Some? then UpperOnly(r2.value)
    else LowerOnly(r1.value)
  }

  /** Normalisation with a non-list `None` refused as a type error (see RawBounds for the code as written). */
  function Normalise(h: HypoInput): (r: Result<Hypothesis, TestError>)
    ensures r.Ok? <==> RawBounds(h).Ok? && RawBounds(h).value != (None, None)
    ensures r.Ok? ==> (LowerOf(r.value), UpperOf(r.value)) == RawBounds(h).value
    ensures r.Err? ==> r.error == if RawBounds(h).Err? then RawBounds(h).error else HypothesisType
  {
    match RawBounds(h)
    case Err(e) => Err(e)
    case Ok((r1, r2)) =>
      if r1.None? && r2.None? then Err(HypothesisType)
      else Ok(Classify(r1, r2, h.NonList?))
  }

  /** A hypothesis whose bounds are in order. */
  predicate WellOrdered(hy: Hypothesis)
  {
    hy.TwoSided? ==> hy.lower <= hy.upper
  }

  /** The `ratio_hypo` argument that denotes a hypothesis. */
  function Denote(hy: Hypothesis): HypoInput
  {
    match hy
    case PointNull(r) => NonList(Some(r))
    case TwoSided(r1, r2) => List([Some(r1), Some(r2)])
    case UpperOnly(r2) => List([None, Some(r2)])
    case LowerOnly(r1) => List([Some(r1), None])
  }

  // ---------------------------------------------------------------------------
  // Rates, gate, interval, decision

  /** `pos / num` under true division. */
  function Rate(pos: int, num: int): (r: real)
    requires num != 0
    ensures (num as real) * r == pos as real
  {
    (pos as real) / (num as real)
  }

  /** stat_inference.py:80 as written: `numA >= 100` is tested twice and `numB` never. */
  predicate GateAsWritten(numA: int, numB: int, posA: int, posB: int)
  {
    numA >= 100 && numA >= 100 && posA >= 5 && posB >= 5
  }

  /** The large-sample gate as intended: both groups at least 100 trials and 5 successes. */
  predicate Gate(numA: int, numB: int, posA: int, posB: int)
  {
    numA >= 100 && numB >= 100 && posA >= 5 && posB >= 5
  }

  /** The intended gate is the line-80 gate with group B's count added: it is stricter, and the two
      differ exactly when numB < 100. */
  lemma GatesCompared(numA: int, numB: int, posA: int, posB: int)
    ensures Gate(numA, numB, posA, posB) ==> GateAsWritten(numA, numB, posA, posB)
    ensures Gate(numA, numB, posA, posB) <==> GateAsWritten(numA, numB, posA, posB) && numB >= 100
  {
  }

  /** The delta-method variance of the log-ratio (stat_inference.py:82). */
  function Variance(oecA: real, oecB: real, numA: int, numB: int): (v: real)
    requires (numA as real) * oecA != 0.0 && (numB as real) * oecB != 0.0
    ensures numA > 0 && numB > 0 && 0.0 < oecA <= 1.0 && 0.0 < oecB <= 1.0 ==> v >= 0.0
  {
    VarianceTerm(numB, oecB);
    VarianceTerm(numA, oecA);
    (1.0 - oecB) / ((numB as real) * oecB) + (1.0 - oecA) / ((numA as real) * oecA)
  }

  /** One group's term of the variance is non-negative when its rate is a proportion. */
  lemma VarianceTerm(num: int, oec: real)
    requires (num as real) * oec != 0.0
    ensures num > 0 && 0.0 < oec <= 1.0 ==> (1.0 - oec) / ((num as real) * oec) >= 0.0
  {
  }

  /** stat_inference.py:85-98 as written, on the pair `(r1, r2)`; `None` is the `else: pass`
      branch, which leaves `ci_l` and `ci_u` unassigned. */
  function WaldIntervalAsWritten(r1: Option<real>, r2: Option<real>, alpha: real, stdev: real, num: Numerics): (iv: Option<Interval>)
    ensures iv.None? <==> r1.None? && r2.None?
  {
    if r1.Some? && r2.Some? then
      var z := num.normPpf(1.0 - alpha / 2.0);
      Some(Interval(Fin(num.exp(num.log(r1.value) - z * stdev)), Fin(num.exp(num.log(r2.value) + z * stdev))))
    else if r1.None? && r2.Some? then
      var z := num.normPpf(1.0 - alpha);
      Some(Interval(NegInf, Fin(num.exp(num.log(r2.value) + z * stdev))))
    else if r1.Some? && r2.None? then
      var z := num.normPpf(1.0 - alpha);
      Some(Interval(Fin(num.exp(num.log(r1.value) - z * stdev)), PosInf))
    else
      None
  }

  /** The interval, by an exhaustive switch over the normalised hypothesis. */
  function WaldInterval(hy: Hypothesis, alpha: real, stdev: real, num: Numerics): (iv: Interval)
    ensures iv.lo == NegInf <==> hy.UpperOnly?
    ensures iv.hi == PosInf <==> hy.LowerOnly?
    ensures iv.lo != PosInf && iv.hi != NegInf
  {
    var twoSided := num.normPpf(1.0 - alpha / 2.0);
    var oneSided := num.normPpf(1.0 - alpha);
    match hy
    case PointNull(r) =>
      Interval(Fin(num.exp(num.log(r) - twoSided * stdev)), Fin(num.exp(num.log(r) + twoSided * stdev)))
    case TwoSided(r1, r2) =>
      Interval(Fin(num.exp(num.log(r1) - twoSided * stdev)), Fin(num.exp(num.log(r2) + twoSided * stdev)))
    case UpperOnly(r2) =>
      Interval(NegInf, Fin(num.exp(num.log(r2) + oneSided * stdev)))
    case LowerOnly(r1) =>
      Interval(Fin(num.exp(num.log(r1) - oneSided * stdev)), PosInf)
  }

  /** `x < b` for an extended-real bound. */
  predicate Below(x: real, b: Bound)
  {
    match b
    case NegInf => false
    case Fin(v) => x < v
    case PosInf => true
  }

  /** `x > b` for an extended-real bound. */
  predicate Above(x: real, b: Bound)
  {
    match b
    case NegInf => true
    case Fin(v) => x > v
    case PosInf => false
  }

  /** The reject rule of stat_inference.py:100: `oec_ratio < ci_l or oec_ratio > ci_u`. */
  predicate Outside(x: real, iv: Interval)
  {
    Below(x, iv.lo) || Above(x, iv.hi)
  }

  /** `b <= x` for an extended-real bound. */
  predicate AtMost(b: Bound, x: real)
  {
    b.NegInf? || (b.Fin? && b.v <= x)
  }

  /** `x <= b` for an extended-real bound. */
  predicate AtLeast(b: Bound, x: real)
  {
    b.PosInf? || (b.Fin? && x <= b.v)
  }

  /** Membership in the closed interval `[ci_l, ci_u]`. */
  predicate InClosed(x: real, iv: Interval)
  {
    AtMost(iv.lo, x) && AtLeast(iv.hi, x)
  }

  /** A rate is a proportion when the counts are. */
  lemma RateInUnitInterval(pos: int, num: int)
    requires 0 <= pos <= num && num > 0
    ensures 0.0 <= Rate(pos, num) <= 1.0
  {
    var p, n := pos as real, num as real;
    assert Rate(pos, num) * n == p;
  }

  /** Scaling a rate back by its trial count gives the success count. */
  lemma RateTimesNum(pos: int, num: int)
    requires num != 0
    ensures (num as real) * Rate(pos, num) == pos as real
  {
  }

  /** Past the gate (as written or intended), group A's rate is positive, so `oecB / oecA` is defined,
      and both variance denominators equal the success counts, so they are at least 5. */
  lemma GateDenominators(numA: int, numB: int, posA: int, posB: int)
    requires numB != 0 && GateAsWritten(numA, numB, posA, posB)
    ensures Rate(posA, numA) > 0.0
    ensures (numA as real) * Rate(posA, numA) >= 5.0 && (numB as real) * Rate(posB, numB) >= 5.0
  {
    RateTimesNum(posA, numA);
    RateTimesNum(posB, numB);
  }

  /** The large-sample inference of stat_inference.py:81-103 for an accepted hypothesis: the
      observed ratio, the interval and the reject decision. */
  function Infer(h: HypoInput, hy: Hypothesis, numA: int, numB: int, posA: int, posB: int, alpha: real, num: Numerics): (t: TestResult)
    requires numB != 0 && GateAsWritten(numA, numB, posA, posB)
    ensures t.oecRatio.Some? && t.ratioCi.Some? && t.ratioHypo == h
    ensures t.oecA == Rate(posA, numA) && t.oecB == Rate(posB, numB)
    ensures t.oecRatio.value * t.oecA == t.oecB
    ensures t.reject <==> !InClosed(t.oecRatio.value, t.ratioCi.value)
  {
    GateDenominators(numA, numB, posA, posB);
    var oecA, oecB := Rate(posA, numA), Rate(posB, numB);
    var ratio := oecB / oecA;
    var stdev := num.sqrt(Variance(oecA, oecB, numA, numB));
    var iv := WaldInterval(hy, alpha, stdev, num);
    TestResult(oecA, oecB, Some(ratio), h, Some(iv), Outside(ratio, iv))
  }

  /** `rates_ratio_test` with the gate as intended and abstention below it: no ratio, no
      interval, no rejection. */
  function RatesRatioTest(numA: Option<int>, numB: Option<int>, posA: Option<int>, posB: Option<int>,
                          h: HypoInput, alpha: real, num: Numerics): (r: Result<TestResult, TestError>)
    ensures r == Err(InputsMissing) <==> numA.None? || numB.None? || posA.None? || posB.None?
    ensures r.Ok? ==> Normalise(h).Ok? && numA.value != 0 && numB.value != 0
    ensures r.Ok? ==> (r.value.ratioHypo == h
      && r.value.oecA == Rate(posA.value, numA.value) && r.value.oecB == Rate(posB.value, numB.value))
    ensures r.Ok? ==> (r.value.oecRatio.Some? <==> Gate(numA.value, numB.value, posA.value, posB.value))
    ensures r.Ok? && r.value.oecRatio.None? ==> r.value.ratioCi.None? && !r.value.reject
    ensures (numA.Some? && numB.Some? && posA.Some? && posB.Some? && Normalise(h).Ok?
             && (numA.value == 0 || numB.value == 0)) ==> r == Err(ZeroDivision)
  {
    if numA.None? || numB.None? || posA.None? || posB.None? then Err(InputsMissing)
    else
      match Normalise(h)
      case Err(e) => Err(e)
      case Ok(hy) =>
        var nA, nB, pA, pB := numA.value, numB.value, posA.value, posB.value;
        if nA == 0 || nB == 0 then Err(ZeroDivision)
        else if Gate(nA, nB, pA, pB) then Ok(Infer(h, hy, nA, nB, pA, pB, alpha, num))
        else Ok(TestResult(Rate(pA, nA), Rate(pB, nB), None, h, None, false))
  }

  /** `rates_ratio_test` exactly as written: the gate of line 80, and the reads of `ci_l` and
      `ci_u` at lines 100 and 114 raising UnboundLocalError whenever they were never assigned. */
  function RatesRatioTestAsWritten(numA: Option<int>, numB: Option<int>, posA: Option<int>, posB: Option<int>,
                                   h: HypoInput, alpha: real, num: Numerics): (r: Result<TestResult, TestError>)
    ensures r == Err(InputsMissing) <==> numA.None? || numB.None? || posA.None? || posB.None?
    ensures r.Ok? ==> r.value.oecRatio.Some? && r.value.ratioCi.Some?
    ensures r.Ok? ==> (GateAsWritten(numA.value, numB.value, posA.value, posB.value)
      && numA.value != 0 && numB.value != 0 && RawBounds(h).Ok? && r.value.ratioHypo == h
      && r.value.oecA == Rate(posA.value, numA.value) && r.value.oecB == Rate(posB.value, numB.value)
      && r.value.oecRatio.value * r.value.oecA == r.value.oecB
      && (r.value.reject <==> !InClosed(r.value.oecRatio.value, r.value.ratioCi.value)))
    ensures (numA.Some? && numB.Some? && posA.Some? && posB.Some? && RawBounds(h).Ok?
             && (numA.value == 0 || numB.value == 0)) ==> r == Err(ZeroDivision)
  {
    if numA.None? || numB.None? || posA.None? || posB.None? then Err(InputsMissing)
    else
      match RawBounds(h)
      case Err(e) => Err(e)
      case Ok((r1, r2)) =>
        var nA, nB, pA, pB := numA.value, numB.value, posA.value, posB.value;
        if nA == 0 || nB == 0 then Err(ZeroDivision)
        else if GateAsWritten(nA, nB, pA, pB) then
          GateDenominators(nA, nB, pA, pB);
          var oecA, oecB := Rate(pA, nA), Rate(pB, nB);
          var ratio := oecB / oecA;
          var stdev := num.sqrt(Variance(oecA, oecB, nA, nB));
          match WaldIntervalAsWritten(r1, r2, alpha, stdev, num)
          case None => Err(UnboundInterval)
          case Some(iv) => Ok(TestResult(oecA, oecB, Some(ratio), h, Some(iv), Outside(ratio, iv)))
        else Err(UnboundInterval)
  }

  // ---------------------------------------------------------------------------
  // Normalisation

  /** Normalisation is a bijection between the accepted `ratio_hypo` arguments and the
      well-ordered hypotheses: it recovers the hypothesis an argument denotes, and every accepted
      argument denotes its normal form. */
  lemma NormaliseDenote(hy: Hypothesis)
    requires WellOrdered(hy)
    ensures Normalise(Denote(hy)) == Ok(hy)
  {
  }

  lemma DenoteNormalise(h: HypoInput)
    requires Normalise(h).Ok?
    ensures Denote(Normalise(h).value) == h && WellOrdered(Normalise(h).value)
  {
    if h.List? {
      assert h.items == [h.items[0], h.items[1]];
    }
  }

  /** A non-list `ratio_hypo = r` becomes `r1 = r2 = r` and is never refused (stat_inference.py:63-65). */
  lemma ScalarIsPointNull(r: real)
    ensures RawBounds(NonList(Some(r))) == Ok((Some(r), Some(r)))
    ensures Normalise(NonList(Some(r))) == Ok(PointNull(r))
  {
  }

  /** The errors of a list `ratio_hypo` (stat_inference.py:66-75): a length other than 2 is a type
      error; two absent entries are refused; two present entries must be ordered. */
  lemma ListHypothesisOutcomes(items: seq<Option<real>>)
    ensures |items| != 2 ==> Normalise(List(items)) == Err(HypothesisType)
    ensures |items| == 2 && items[0].None? && items[1].None? ==> Normalise(List(items)) == Err(HypothesisBothMissing)
    ensures |items| == 2 && items[0].Some? && items[1].Some? ==>
      Normalise(List(items)) == if items[0].value > items[1].value then Err(HypothesisOrder)
                                else Ok(TwoSided(items[0].value, items[1].value))
    ensures |items| == 2 && items[0].None? && items[1].Some? ==> Normalise(List(items)) == Ok(UpperOnly(items[1].value))
    ensures |items| == 2 && items[0].Some? && items[1].None? ==> Normalise(List(items)) == Ok(LowerOnly(items[0].value))
  {
  }

  /** For a list `ratio_hypo` that passes the checks, the `else: pass` of stat_inference.py:97-98
      is unreachable: the as-written interval is always assigned. */
  lemma ListNeverReachesElsePass(items: seq<Option<real>>, alpha: real, stdev: real, num: Numerics)
    requires RawBounds(List(items)).Ok?
    ensures WaldIntervalAsWritten(items[0], items[1], alpha, stdev, num).Some?
  {
  }

  /** The exhaustive switch over the variant computes the as-written interval of the pair it stands for. */
  lemma IntervalAgrees(hy: Hypothesis, alpha: real, stdev: real, num: Numerics)
    ensures WaldIntervalAsWritten(LowerOf(hy), UpperOf(hy), alpha, stdev, num) == Some(WaldInterval(hy, alpha, stdev, num))
  {
  }

  // ---------------------------------------------------------------------------
  // The decision

  /** The reject rule is "strictly outside the closed interval" (stat_inference.py:100-103). */
  lemma RejectIffOutsideClosed(x: real, iv: Interval)
    ensures Outside(x, iv) <==> !InClosed(x, iv)
  {
  }

  /** With only an upper bound, `ci_l` is -inf and the test rejects exactly when the ratio exceeds
      `ci_u` (stat_inference.py:89-92). */
  lemma UpperOnlyRejectsAbove(numA: int, numB: int, posA: int, posB: int, h: HypoInput, alpha: real, num: Numerics)
    requires Normalise(h).Ok? && Normalise(h).value.UpperOnly? && Gate(numA, numB, posA, posB)
    ensures var r := RatesRatioTest(Some(numA), Some(numB), Some(posA), Some(posB), h, alpha, num);
      && r.Ok? && r.value.ratioCi.Some? && r.value.ratioCi.value.lo == NegInf && r.value.ratioCi.value.hi.Fin?
      && r.value.oecRatio.Some?
      && (r.value.reject <==> r.value.oecRatio.value > r.value.ratioCi.value.hi.v)
  {
  }

  /** With only a lower bound, `ci_u` is +inf and the test rejects exactly when the ratio is below
      `ci_l` (stat_inference.py:93-96). */
  lemma LowerOnlyRejectsBelow(numA: int, numB: int, posA: int, posB: int, h: HypoInput, alpha: real, num: Numerics)
    requires Normalise(h).Ok? && Normalise(h).value.LowerOnly? && Gate(numA, numB, posA, posB)
    ensures var r := RatesRatioTest(Some(numA), Some(numB), Some(posA), Some(posB), h, alpha, num);
      && r.Ok? && r.value.ratioCi.Some? && r.value.ratioCi.value.hi == PosInf && r.value.ratioCi.value.lo.Fin?
      && r.value.oecRatio.Some?
      && (r.value.reject <==> r.value.oecRatio.value < r.value.ratioCi.value.lo.v)
  {
  }

  /** Past the gate the test runs: the ratio is oec_b / oec_a, both rates are proportions when the
      counts are, and the decision is "outside [ci_l, ci_u]" (stat_inference.py:77-103). */
  lemma DecidesAboveGate(numA: int, numB: int, posA: int, posB: int, h: HypoInput, alpha: real, num: Numerics)
    requires Normalise(h).Ok? && Gate(numA, numB, posA, posB)
    ensures var r := RatesRatioTest(Some(numA), Some(numB), Some(posA), Some(posB), h, alpha, num);
      && r.Ok? && r.value.oecRatio.Some? && r.value.ratioCi.Some?
      && r.value.oecA > 0.0 && r.value.oecRatio.value * r.value.oecA == r.value.oecB
      && (posA <= numA && posB <= numB ==> 0.0 < r.value.oecA <= 1.0 && 0.0 < r.value.oecB <= 1.0)
      && (r.value.reject <==> !InClosed(r.value.oecRatio.value, r.value.ratioCi.value))
  {
    GateDenominators(numA, numB, posA, posB);
    GateDenominators(numB, numA, posB, posA);
    if posA <= numA && posB <= numB {
      RateInUnitInterval(posA, numA);
      RateInUnitInterval(posB, numB);
    }
  }

  /** Below the gate the test abstains: rates reported, no ratio, no interval, no rejection
      (the evident intent of stat_inference.py:104-107). */
  lemma AbstainsBelowGate(numA: int, numB: int, posA: int, posB: int, h: HypoInput, alpha: real, num: Numerics)
    requires Normalise(h).Ok? && numA != 0 && numB != 0 && !Gate(numA, numB, posA, posB)
    ensures RatesRatioTest(Some(numA), Some(numB), Some(posA), Some(posB), h, alpha, num)
         == Ok(TestResult(Rate(posA, numA), Rate(posB, numB), None, h, None, false))
  {
  }

  /** The input checks come first: an absent count fails whatever the hypothesis (stat_inference.py:57-61),
      and a refused hypothesis fails before any division (stat_inference.py:63-75). */
  lemma ChecksComeFirst(numA: Option<int>, numB: Option<int>, posA: Option<int>, posB: Option<int>,
                        h: HypoInput, alpha: real, num: Numerics)
    ensures numA.None? || numB.None? || posA.None? || posB.None? ==>
      RatesRatioTest(numA, numB, posA, posB, h, alpha, num) == Err(InputsMissing)
      && RatesRatioTestAsWritten(numA, numB, posA, posB, h, alpha, num) == Err(InputsMissing)
    ensures numA.Some? && numB.Some? && posA.Some? && posB.Some? && Normalise(h).Err? ==>
      RatesRatioTest(numA, numB, posA, posB, h, alpha, num) == Err(Normalise(h).error)
    ensures numA.Some? && numB.Some? && posA.Some? && posB.Some? && RawBounds(h).Err? ==>
      RatesRatioTestAsWritten(numA, numB, posA, posB, h, alpha, num) == Err(RawBounds(h).error)
  {
  }

  // ---------------------------------------------------------------------------
  // The code as written against the corrected model

  /** As written, once the checks pass and no count is zero, the test returns a result exactly
      when the line-80 gate holds and some bound is present; every other path reads an unassigned
      `ci_l`/`ci_u` (stat_inference.py:80-114). */
  lemma AsWrittenRunsIffGate(numA: int, numB: int, posA: int, posB: int, h: HypoInput, alpha: real, num: Numerics)
    requires RawBounds(h).Ok? && numA != 0 && numB != 0
    ensures var r := RatesRatioTestAsWritten(Some(numA), Some(numB), Some(posA), Some(posB), h, alpha, num);
      && (r.Ok? <==> GateAsWritten(numA, numB, posA, posB) && RawBounds(h).value != (None, None))
      && (r.Err? ==> r.error == UnboundInterval)
  {
  }

  /** As written, a non-list `ratio_hypo = None` never yields a result: whenever the counts are
      present and nonzero, the call raises on the unassigned interval (stat_inference.py:63-65,
      85-100, 104-114). */
  lemma NonListNoneAlwaysRaises(numA: int, numB: int, posA: int, posB: int, alpha: real, num: Numerics)
    requires numA != 0 && numB != 0
    ensures RatesRatioTestAsWritten(Some(numA), Some(numB), Some(posA), Some(posB), NonList(None), alpha, num)
         == Err(UnboundInterval)
  {
  }

  /** Past the line-80 gate, the code as written computes the ratio oec_b / oec_a and decides by
      "outside [ci_l, ci_u]", whatever group B's count, with ci_l = -inf exactly when r1 is
      absent and ci_u = +inf exactly when r2 is absent (stat_inference.py:80-103). */
  lemma AsWrittenDecidesAtLineGate(numA: int, numB: int, posA: int, posB: int, h: HypoInput, alpha: real, num: Numerics)
    requires numB != 0 && RawBounds(h).Ok? && RawBounds(h).value != (None, None)
    requires GateAsWritten(numA, numB, posA, posB)
    ensures var r := RatesRatioTestAsWritten(Some(numA), Some(numB), Some(posA), Some(posB), h, alpha, num);
      && r.Ok? && r.value.oecA == Rate(posA, numA) && r.value.oecB == Rate(posB, numB)
      && r.value.oecRatio.Some? && r.value.oecRatio.value * r.value.oecA == r.value.oecB
      && r.value.ratioCi.Some?
      && (r.value.ratioCi.value.lo == NegInf <==> RawBounds(h).value.0.None?)
      && (r.value.ratioCi.value.hi == PosInf <==> RawBounds(h).value.1.None?)
      && (r.value.reject <==> !InClosed(r.value.oecRatio.value, r.value.ratioCi.value))
  {
  }

  /** Wherever the intended gate holds and the hypothesis is accepted, the code as written and the
      corrected model return the same result. */
  lemma AsWrittenAgreesAboveGate(numA: int, numB: int, posA: int, posB: int, h: HypoInput, alpha: real, num: Numerics)
    requires Normalise(h).Ok? && Gate(numA, numB, posA, posB)
    ensures RatesRatioTestAsWritten(Some(numA), Some(numB), Some(posA), Some(posB), h, alpha, num)
         == RatesRatioTest(Some(numA), Some(numB), Some(posA), Some(posB), h, alpha, num)
  {
    IntervalAgrees(Normalise(h).value, alpha,
      num.sqrt(Variance(Rate(posA, numA), Rate(posB, numB), numA, numB)), num);
  }

  // ---------------------------------------------------------------------------
  // Worked example and findings

  /** The default `ratio_hypo = [None, 2.7]` is a one-sided test against an upper bound of 2.7. */
  lemma DefaultHypothesisIsUpperOnly()
    ensures Normalise(DefaultHypo) == Ok(UpperOnly(2.7))
  {
  }

  /** 50 of 1000 against 60 of 1000 with `ratio_hypo = [None, 1.5]`: rates 0.05 and 0.06, ratio
      1.2, `ci_l` minus infinity, and a rejection exactly when 1.2 exceeds `ci_u`. */
  lemma WorkedExample(alpha: real, num: Numerics)
    ensures var r := RatesRatioTest(Some(1000), Some(1000), Some(50), Some(60), List([None, Some(1.5)]), alpha, num);
      && r.Ok? && r.value.oecA == 0.05 && r.value.oecB == 0.06 && r.value.oecRatio == Some(1.2)
      && r.value.ratioCi.Some? && r.value.ratioCi.value.lo == NegInf && r.value.ratioCi.value.hi.Fin?
      && (r.value.reject <==> 1.2 > r.value.ratioCi.value.hi.v)
  {
    UpperOnlyRejectsAbove(1000, 1000, 50, 60, List([None, Some(1.5)]), alpha, num);
  }

  /** The line-80 gate never looks at group B's count: 50 units in group B pass it, and the code as
      written runs the large-sample test where the intended gate abstains. */
  lemma FindingGateIgnoresGroupB(num: Numerics)
    ensures GateAsWritten(1000, 50, 50, 6) && !Gate(1000, 50, 50, 6)
    ensures RatesRatioTestAsWritten(Some(1000), Some(50), Some(50), Some(6), DefaultHypo, DefaultAlpha, num).Ok?
    ensures RatesRatioTestAsWritten(Some(1000), Some(50), Some(50), Some(6), DefaultHypo, DefaultAlpha, num).value.oecRatio.Some?
    ensures var r := RatesRatioTestAsWritten(Some(1000), Some(50), Some(50), Some(6), DefaultHypo, DefaultAlpha, num);
      && r.value.oecRatio == Some(2.4) && r.value.ratioCi.Some? && r.value.ratioCi.value.lo == NegInf
      && r.value.ratioCi.value.hi.Fin? && (r.value.reject <==> 2.4 > r.value.ratioCi.value.hi.v)
    ensures RatesRatioTest(Some(1000), Some(50), Some(50), Some(6), DefaultHypo, DefaultAlpha, num).Ok?
    ensures RatesRatioTest(Some(1000), Some(50), Some(50), Some(6), DefaultHypo, DefaultAlpha, num).value.oecRatio.None?
  {
    AsWrittenDecidesAtLineGate(1000, 50, 50, 6, DefaultHypo, DefaultAlpha, num);
  }

  /** Below the gate the code as written builds its result from `ci_l` and `ci_u`, which that path
      never assigns: a group of 50 units makes it raise where the corrected model abstains. */
  lemma FindingAbstainPathRaises(num: Numerics)
    ensures RatesRatioTestAsWritten(Some(50), Some(1000), Some(10), Some(60), DefaultHypo, DefaultAlpha, num) == Err(UnboundInterval)
    ensures RatesRatioTest(Some(50), Some(1000), Some(10), Some(60), DefaultHypo, DefaultAlpha, num)
         == Ok(TestResult(0.2, 0.06, None, DefaultHypo, None, false))
  {
  }

  /** A non-list `ratio_hypo = None` passes the checks with both bounds absent, reaches the
      `else: pass` branch and raises on the unassigned interval; the corrected model refuses it
      as a malformed hypothesis. */
  lemma FindingNonListNone(num: Numerics)
    ensures RawBounds(NonList(None)) == Ok((None, None))
    ensures RatesRatioTestAsWritten(Some(1000), Some(1000), Some(50), Some(60), NonList(None), DefaultAlpha, num) == Err(UnboundInterval)
    ensures Normalise(NonList(None)) == Err(HypothesisType)
    ensures RatesRatioTest(Some(1000), Some(1000), Some(50), Some(60), NonList(None), DefaultAlpha, num) == Err(HypothesisType)
  {
  }
}
