/** The contamination estimate of `getCS` and `dBmtomw`, and the
    bidirectional verdict of `DetectContamination`.

    Python's float power `10**x` is not modelled numerically: every member
    takes it as a parameter `pow`, and the lemmas assume only what
    `IsPow10` states about it (10^0 = 1, 10^x > 0, strictly increasing).
    Everything else is exact real arithmetic; `round` is not applied. */
module Estimator {
  import opened Errors

  /** The only properties of `10**x` the proofs rely on. */
  ghost predicate IsPow10(pow: real -> real) {
    && pow(0.0) == 1.0
    && (forall x :: pow(x) > 0.0)
    && (forall x, y :: x < y ==> pow(x) < pow(y))
  }

  lemma PowCompare(pow: real -> real, x: real, y: real)
    requires IsPow10(pow)
    ensures pow(x) <= pow(y) <==> x <= y
    ensures pow(x) == pow(y) <==> x == y
  {
    if x < y {
      assert pow(x) < pow(y);
    } else if y < x {
      assert pow(y) < pow(x);
    }
  }

  /** A function with the properties of `IsPow10`: the assumption the
      lemmas make is satisfiable. */
  function StandInPow(x: real): real {
    if x >= 0.0 then 1.0 + x else 1.0 / (1.0 - x)
  }

  lemma RecipLess(a: real, b: real)
    requires a > b > 0.0
    ensures 1.0 / a < 1.0 / b
  {
    var x, y := 1.0 / a, 1.0 / b;
    assert x * a == 1.0;
    assert y * b == 1.0;
    assert x > 0.0;
    assert x * b < x * a;
  }

  lemma RecipBelowOne(a: real)
    requires a > 1.0
    ensures 0.0 < 1.0 / a < 1.0
  {
    var x := 1.0 / a;
    assert x * a == 1.0;
  }

  lemma StandInPowIsPow10()
    ensures IsPow10(StandInPow)
  {
    forall x ensures StandInPow(x) > 0.0 {
      if x < 0.0 {
        RecipBelowOne(1.0 - x);
      }
    }
    forall x, y | x < y ensures StandInPow(x) < StandInPow(y) {
      if x < 0.0 && y < 0.0 {
        RecipLess(1.0 - x, 1.0 - y);
      } else if x < 0.0 {
        RecipBelowOne(1.0 - x);
      }
    }
  }

  function Max(a: real, b: real): (m: real)
    ensures m >= a && m >= b && (m == a || m == b)
  {
    if a >= b then a else b
  }

  /** `dBmtomw`: a dBm reading in milliwatts, 10^(value/10). */
  function DbmToMw(pow: real -> real, value: real): (mw: real)
    ensures IsPow10(pow) ==> mw > 0.0
    ensures IsPow10(pow) && value == 0.0 ==> mw == 1.0
  {
    pow(value / 10.0)
  }

  /** A stronger dBm reading is a larger power in milliwatts. */
  lemma DbmToMwIncreasing(pow: real -> real, v1: real, v2: real)
    requires IsPow10(pow)
    ensures DbmToMw(pow, v1) <= DbmToMw(pow, v2) <==> v1 <= v2
  {
    PowCompare(pow, v1 / 10.0, v2 / 10.0);
  }

  // ---------------------------------------------------------------------------
  // getCS

  /** The output record of one direction: the power lost, the contamination
      score and threshold, and the verdict. */
  datatype CSResult = CSResult(powerLost: real, score: real, threshold: real, contaminated: bool)

  /** `alpha`: the power the link is expected to lose without contamination. */
  function Alpha(pow: real -> real, tx: real, delta: real): real {
    tx * (1.0 - pow(-delta / 10.0))
  }

  /** `PowerThresh`: the expected loss widened by both transceivers' accuracy. */
  function PowerThresh(pow: real -> real, tx: real, rx: real, delta: real, txAcc: real, rxAcc: real): real {
    Alpha(pow, tx, delta) + tx * (pow(txAcc / 10.0) - 1.0) - rx * (pow(-rxAcc / 10.0) - 1.0)
  }

  /** The denominator of the normalisation constant `CC`. */
  function CCDenominator(pow: real -> real, tx: real, delta: real): real {
    pow(5.0 * (tx - Alpha(pow, tx, delta))) - 1.0
  }

  /** `CC * (10**(5*x) - 1)`: the shape of both the score and its threshold. */
  function Normalised(pow: real -> real, cc: real, x: real): real {
    cc * (pow(5.0 * x) - 1.0)
  }

  /** `getCS(Tx, Rx, delta, TxAcc, RxAcc)`; the division by a zero
      denominator raises. The reported values are never negative where the
      source floors them, and the verdict compares the floored score with the
      threshold. */
  function GetCS(pow: real -> real, tx: real, rx: real, delta: real, txAcc: real, rxAcc: real): (r: Result<CSResult>)
    ensures r.Err? ==> r.error == ZeroDivisionError
    ensures r.Ok? ==> r.value.powerLost >= 0.0 && r.value.powerLost >= tx - rx
    ensures r.Ok? ==> r.value.powerLost == 0.0 || r.value.powerLost == tx - rx
    ensures r.Ok? ==> r.value.score >= 0.0
    ensures r.Ok? ==> (r.value.contaminated <==> r.value.score >= r.value.threshold)
    ensures r.Ok? && r.value.threshold <= 0.0 ==> r.value.contaminated
  {
    var il := tx - rx;
    var alpha := Alpha(pow, tx, delta);
    var powerThresh := PowerThresh(pow, tx, rx, delta, txAcc, rxAcc);
    var denominator := CCDenominator(pow, tx, delta);
    if denominator == 0.0 then Err(ZeroDivisionError)
    else
      var cc := 100.0 / denominator;
      var cs := Max(0.0, Normalised(pow, cc, il - alpha));
      var csThresh := Normalised(pow, cc, powerThresh - alpha);
      Ok(CSResult(Max(0.0, il), cs, csThresh, cs >= csThresh))
  }

  /** `Tx - alpha` is `Tx` scaled by the positive factor 10^(-delta/10). */
  lemma TxMinusAlpha(pow: real -> real, tx: real, delta: real)
    ensures tx - Alpha(pow, tx, delta) == tx * pow(-delta / 10.0)
  {
  }

  /** The loss expected without contamination: nothing without a fibre loss,
      and a strict part of the transmitted power otherwise. */
  lemma AlphaBounds(pow: real -> real, tx: real, delta: real)
    requires IsPow10(pow) && tx > 0.0 && delta >= 0.0
    ensures delta == 0.0 ==> Alpha(pow, tx, delta) == 0.0
    ensures delta > 0.0 ==> 0.0 < Alpha(pow, tx, delta) < tx
  {
    var q := pow(-delta / 10.0);
    TxMinusAlpha(pow, tx, delta);
    ProductSign(tx, q);
    if delta > 0.0 {
      PowCompare(pow, -delta / 10.0, 0.0);
      assert 0.0 < 1.0 - q;
      ProductSign(1.0 - q, tx);
      assert tx * (1.0 - q) == (1.0 - q) * tx;
    }
  }

  lemma ProductSign(a: real, q: real)
    requires q > 0.0
    ensures a * q == 0.0 <==> a == 0.0
    ensures a * q > 0.0 <==> a > 0.0
  {
    if a > 0.0 {
      assert a * q > 0.0;
    } else if a < 0.0 {
      assert (-a) * q > 0.0;
    }
  }

  /** The denominator of `CC` vanishes exactly when the transmit power is 0,
      and is positive when the transmit power is. */
  lemma CCDenominatorSign(pow: real -> real, tx: real, delta: real)
    requires IsPow10(pow)
    ensures CCDenominator(pow, tx, delta) == 0.0 <==> tx == 0.0
    ensures CCDenominator(pow, tx, delta) > 0.0 <==> tx > 0.0
  {
    var q := pow(-delta / 10.0);
    TxMinusAlpha(pow, tx, delta);
    ProductSign(tx, q);
    ProductSign(tx * q, 5.0);
    PowCompare(pow, 5.0 * (tx * q), 0.0);
  }

  /** The normalisation constant `CC` is positive when the transmit power is. */
  lemma CCPositive(pow: real -> real, tx: real, delta: real)
    requires IsPow10(pow) && tx > 0.0
    ensures CCDenominator(pow, tx, delta) > 0.0
    ensures 100.0 / CCDenominator(pow, tx, delta) > 0.0
  {
    CCDenominatorSign(pow, tx, delta);
  }

  /** `getCS` raises ZeroDivisionError exactly when the transmit power is 0. */
  lemma GetCSFailsIffTxZero(pow: real -> real, tx: real, rx: real, delta: real, txAcc: real, rxAcc: real)
    requires IsPow10(pow)
    ensures GetCS(pow, tx, rx, delta, txAcc, rxAcc).Err? <==> tx == 0.0
  {
    CCDenominatorSign(pow, tx, delta);
  }

  lemma ScaleCompare(c: real, x: real, y: real)
    requires c > 0.0
    ensures c * x <= c * y <==> x <= y
  {
    if x < y {
      assert c * (y - x) > 0.0;
    } else if y < x {
      assert c * (x - y) > 0.0;
    }
  }

  /** With a positive `CC`, the normalised value is increasing in its
      argument and has the sign of it. */
  lemma NormalisedCompare(pow: real -> real, cc: real, x: real, y: real)
    requires IsPow10(pow) && cc > 0.0
    ensures Normalised(pow, cc, x) <= Normalised(pow, cc, y) <==> x <= y
    ensures Normalised(pow, cc, x) <= 0.0 <==> x <= 0.0
  {
    PowCompare(pow, 5.0 * x, 5.0 * y);
    PowCompare(pow, 5.0 * x, 0.0);
    ScaleCompare(cc, pow(5.0 * x) - 1.0, pow(5.0 * y) - 1.0);
    ScaleCompare(cc, pow(5.0 * x) - 1.0, 0.0);
    ScaleCompare(5.0, x, y);
    ScaleCompare(5.0, x, 0.0);
  }

  /** What the verdict means for a positive transmit power: the observed
      insertion loss reaches the accuracy-widened power threshold, or that
      threshold does not exceed the expected loss (the score threshold is
      then at most 0 and any score reaches it). */
  lemma VerdictMeaning(pow: real -> real, tx: real, rx: real, delta: real, txAcc: real, rxAcc: real)
    requires IsPow10(pow)
    requires tx > 0.0
    ensures GetCS(pow, tx, rx, delta, txAcc, rxAcc).Ok?
    ensures GetCS(pow, tx, rx, delta, txAcc, rxAcc).value.contaminated <==>
      tx - rx >= PowerThresh(pow, tx, rx, delta, txAcc, rxAcc) ||
      PowerThresh(pow, tx, rx, delta, txAcc, rxAcc) <= Alpha(pow, tx, delta)
  {
    CCPositive(pow, tx, delta);
    var alpha := Alpha(pow, tx, delta);
    var pt := PowerThresh(pow, tx, rx, delta, txAcc, rxAcc);
    var cc := 100.0 / CCDenominator(pow, tx, delta);
    NormalisedCompare(pow, cc, pt - alpha, (tx - rx) - alpha);
  }

  /** A larger received power never raises the contamination score. */
  lemma ScoreNonIncreasingInRx(pow: real -> real, tx: real, rx1: real, rx2: real, delta: real, txAcc: real, rxAcc: real)
    requires IsPow10(pow)
    requires tx > 0.0 && rx1 <= rx2
    ensures GetCS(pow, tx, rx1, delta, txAcc, rxAcc).Ok? && GetCS(pow, tx, rx2, delta, txAcc, rxAcc).Ok?
    ensures GetCS(pow, tx, rx2, delta, txAcc, rxAcc).value.score <= GetCS(pow, tx, rx1, delta, txAcc, rxAcc).value.score
  {
    CCPositive(pow, tx, delta);
    var alpha := Alpha(pow, tx, delta);
    var cc := 100.0 / CCDenominator(pow, tx, delta);
    NormalisedCompare(pow, cc, (tx - rx2) - alpha, (tx - rx1) - alpha);
  }

  /** A more tolerant transmitter never lowers the contamination threshold. */
  lemma ThresholdNonDecreasingInTxAcc(pow: real -> real, tx: real, rx: real, delta: real, txAcc1: real, txAcc2: real, rxAcc: real)
    requires IsPow10(pow)
    requires tx > 0.0 && txAcc1 <= txAcc2
    ensures GetCS(pow, tx, rx, delta, txAcc1, rxAcc).Ok? && GetCS(pow, tx, rx, delta, txAcc2, rxAcc).Ok?
    ensures GetCS(pow, tx, rx, delta, txAcc1, rxAcc).value.threshold <= GetCS(pow, tx, rx, delta, txAcc2, rxAcc).value.threshold
  {
    CCPositive(pow, tx, delta);
    var alpha := Alpha(pow, tx, delta);
    var cc := 100.0 / CCDenominator(pow, tx, delta);
    var pt1 := PowerThresh(pow, tx, rx, delta, txAcc1, rxAcc);
    var pt2 := PowerThresh(pow, tx, rx, delta, txAcc2, rxAcc);
    PowerThreshNonDecreasingInTxAcc(pow, tx, rx, delta, txAcc1, txAcc2, rxAcc);
    NormalisedCompare(pow, cc, pt1 - alpha, pt2 - alpha);
  }

  lemma PowerThreshNonDecreasingInTxAcc(pow: real -> real, tx: real, rx: real, delta: real, txAcc1: real, txAcc2: real, rxAcc: real)
    requires IsPow10(pow)
    requires tx > 0.0 && txAcc1 <= txAcc2
    ensures PowerThresh(pow, tx, rx, delta, txAcc1, rxAcc) <= PowerThresh(pow, tx, rx, delta, txAcc2, rxAcc)
  {
    PowCompare(pow, txAcc1 / 10.0, txAcc2 / 10.0);
    ScaleCompare(tx, pow(txAcc1 / 10.0) - 1.0, pow(txAcc2 / 10.0) - 1.0);
  }

  /** A more tolerant receiver never lowers the contamination threshold,
      provided the received power is not negative. */
  lemma ThresholdNonDecreasingInRxAcc(pow: real -> real, tx: real, rx: real, delta: real, txAcc: real, rxAcc1: real, rxAcc2: real)
    requires IsPow10(pow)
    requires tx > 0.0 && rx >= 0.0 && rxAcc1 <= rxAcc2
    ensures GetCS(pow, tx, rx, delta, txAcc, rxAcc1).Ok? && GetCS(pow, tx, rx, delta, txAcc, rxAcc2).Ok?
    ensures GetCS(pow, tx, rx, delta, txAcc, rxAcc1).value.threshold <= GetCS(pow, tx, rx, delta, txAcc, rxAcc2).value.threshold
  {
    CCPositive(pow, tx, delta);
    var alpha := Alpha(pow, tx, delta);
    var cc := 100.0 / CCDenominator(pow, tx, delta);
    var pt1 := PowerThresh(pow, tx, rx, delta, txAcc, rxAcc1);
    var pt2 := PowerThresh(pow, tx, rx, delta, txAcc, rxAcc2);
    PowCompare(pow, -rxAcc2 / 10.0, -rxAcc1 / 10.0);
    assert rx * (pow(-rxAcc2 / 10.0) - 1.0) <= rx * (pow(-rxAcc1 / 10.0) - 1.0) by {
      if rx > 0.0 {
        ScaleCompare(rx, pow(-rxAcc2 / 10.0) - 1.0, pow(-rxAcc1 / 10.0) - 1.0);
      }
    }
    assert pt1 <= pt2;
    NormalisedCompare(pow, cc, pt1 - alpha, pt2 - alpha);
  }

  /** A link with 1 mW sent and 0.8 mW received reports 0.2 mW lost. */
  lemma PowerLostScenario(pow: real -> real)
    requires IsPow10(pow)
    ensures GetCS(pow, 1.0, 0.8, 0.75, 1.0, 1.0).Ok?
    ensures GetCS(pow, 1.0, 0.8, 0.75, 1.0, 1.0).value.powerLost == 0.2
  {
    CCPositive(pow, 1.0, 0.75);
  }

  // ---------------------------------------------------------------------------
  // The two directions of a link

  /** Both directions of one link and the link's verdict. */
  datatype LinkVerdict = LinkVerdict(dir1: CSResult, dir2: CSResult, contaminated: bool)

  /** The two cross-wired `getCS` calls of `DetectContamination`: node 1's
      transmitter against node 2's receiver, then node 2's transmitter
      against node 1's receiver, with one shared `delta`; the link is
      contaminated when either direction is. */
  function AssessLink(pow: real -> real, n1Tx: real, n1Rx: real, n2Tx: real, n2Rx: real,
                      delta: real, p1acc: real, p2acc: real): (r: Result<LinkVerdict>)
    ensures r.Ok? ==> (r.value.contaminated <==> r.value.dir1.contaminated || r.value.dir2.contaminated)
    ensures r.Err? ==> r.error == ZeroDivisionError
  {
    match GetCS(pow, n1Tx, n2Rx, delta, p1acc, p2acc)
    case Err(e) => Err(e)
    case Ok(res1) =>
      match GetCS(pow, n2Tx, n1Rx, delta, p2acc, p1acc)
      case Err(e) => Err(e)
      case Ok(res2) => Ok(LinkVerdict(res1, res2, res1.contaminated || res2.contaminated))
  }

  function Swapped(r: Result<LinkVerdict>): Result<LinkVerdict> {
    match r
    case Err(e) => Err(e)
    case Ok(v) => Ok(LinkVerdict(v.dir2, v.dir1, v.contaminated))
  }

  /** Naming the ends the other way round swaps the two directions and keeps
      the link's verdict. */
  lemma AssessLinkSymmetric(pow: real -> real, n1Tx: real, n1Rx: real, n2Tx: real, n2Rx: real,
                            delta: real, p1acc: real, p2acc: real)
    ensures AssessLink(pow, n2Tx, n2Rx, n1Tx, n1Rx, delta, p2acc, p1acc)
         == Swapped(AssessLink(pow, n1Tx, n1Rx, n2Tx, n2Rx, delta, p1acc, p2acc))
  {
  }

  /** The link assessment fails exactly when either end transmits 0 mW. */
  lemma AssessLinkFailsIffSilentEnd(pow: real -> real, n1Tx: real, n1Rx: real, n2Tx: real, n2Rx: real,
                                    delta: real, p1acc: real, p2acc: real)
    requires IsPow10(pow)
    ensures AssessLink(pow, n1Tx, n1Rx, n2Tx, n2Rx, delta, p1acc, p2acc).Err? <==> n1Tx == 0.0 || n2Tx == 0.0
  {
    GetCSFailsIffTxZero(pow, n1Tx, n2Rx, delta, p1acc, p2acc);
    GetCSFailsIffTxZero(pow, n2Tx, n1Rx, delta, p2acc, p1acc);
  }

  /** With positive transmit powers, the link is contaminated exactly when
      one of its directions meets the condition of `VerdictMeaning`. */
  lemma LinkVerdictMeaning(pow: real -> real, n1Tx: real, n1Rx: real, n2Tx: real, n2Rx: real,
                           delta: real, p1acc: real, p2acc: real)
    requires IsPow10(pow)
    requires n1Tx > 0.0 && n2Tx > 0.0
    ensures AssessLink(pow, n1Tx, n1Rx, n2Tx, n2Rx, delta, p1acc, p2acc).Ok?
    ensures AssessLink(pow, n1Tx, n1Rx, n2Tx, n2Rx, delta, p1acc, p2acc).value.contaminated <==>
      (n1Tx - n2Rx >= PowerThresh(pow, n1Tx, n2Rx, delta, p1acc, p2acc) ||
       PowerThresh(pow, n1Tx, n2Rx, delta, p1acc, p2acc) <= Alpha(pow, n1Tx, delta)) ||
      (n2Tx - n1Rx >= PowerThresh(pow, n2Tx, n1Rx, delta, p2acc, p1acc) ||
       PowerThresh(pow, n2Tx, n1Rx, delta, p2acc, p1acc) <= Alpha(pow, n2Tx, delta))
  {
    VerdictMeaning(pow, n1Tx, n2Rx, delta, p1acc, p2acc);
    VerdictMeaning(pow, n2Tx, n1Rx, delta, p2acc, p1acc);
  }
}
