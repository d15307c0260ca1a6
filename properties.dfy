// Properties of the TVSniffer scoring formula and of the classifier as shipped,
// where five of the eight probes are placeholders that never fire.

module TVSnifferProperties {
  import opened TVSniffer

  // ---------------------------------------------------------------------------
  // The score is the sum of exactly the weights whose signal fired.

  /** Changing the weight at position i moves the sum by the change when that
    * signal fired, and leaves it alone when it did not. */
  lemma {:induction false} SumFiredUpdate(fired: seq<bool>, weights: seq<int>, k: nat, i: nat, v: int)
    requires |fired| == |weights| && k <= i < |weights|
    ensures SumFiredFrom(fired, weights[i := v], k)
         == SumFiredFrom(fired, weights, k) + (if fired[i] then v - weights[i] else 0)
    decreases |fired| - k
  {
    if k < i {
      SumFiredUpdate(fired, weights, k + 1, i, v);
    } else {
      SumFiredUnchanged(fired, weights, k + 1, i, v);
    }
  }

  /** Positions before k do not take part in the sum from k on. */
  lemma {:induction false} SumFiredUnchanged(fired: seq<bool>, weights: seq<int>, k: nat, i: nat, v: int)
    requires |fired| == |weights| && i < k <= |weights|
    ensures SumFiredFrom(fired, weights[i := v], k) == SumFiredFrom(fired, weights, k)
    decreases |fired| - k
  {
    if k < |fired| {
      SumFiredUnchanged(fired, weights, k + 1, i, v);
    }
  }

  /** Nothing fired: the sum is 0 whatever the weights. */
  lemma {:induction false} SumFiredNoneFired(fired: seq<bool>, weights: seq<int>, k: nat)
    requires |fired| == |weights| && k <= |fired|
    requires forall i :: 0 <= i < |fired| ==> !fired[i]
    ensures SumFiredFrom(fired, weights, k) == 0
    decreases |fired| - k
  {
    if k < |fired| {
      SumFiredNoneFired(fired, weights, k + 1);
    }
  }

  /** With non-negative weights the sum lies between 0 and the sum of all of
    * them, whichever flags are set. */
  lemma {:induction false} SumFiredBounds(fired: seq<bool>, weights: seq<int>, k: nat)
    requires |fired| == |weights| && k <= |fired|
    requires forall i :: 0 <= i < |weights| ==> weights[i] >= 0
    ensures 0 <= SumFiredFrom(fired, weights, k) <= TotalFrom(weights, k)
    decreases |fired| - k
  {
    if k < |fired| {
      SumFiredBounds(fired, weights, k + 1);
    }
  }

  function TotalWeight(w: Weights): int {
    w.tvUiModeScore + w.noAccelerometerScore + w.leanbackKeyFileScore + w.leanbackLibScore
    + w.leanbackLauncherScore + w.tvSettingsScore + w.tvRecommendationScore + w.tvPartnerCustomizerScore
  }

  predicate NonNegative(w: Weights) {
    w.tvUiModeScore >= 0 && w.noAccelerometerScore >= 0 && w.leanbackKeyFileScore >= 0
    && w.leanbackLibScore >= 0 && w.leanbackLauncherScore >= 0 && w.tvSettingsScore >= 0
    && w.tvRecommendationScore >= 0 && w.tvPartnerCustomizerScore >= 0
  }

  /** The sum over the weight list is the sum of the eight weights. */
  lemma TotalOfWeightList(w: Weights)
    ensures TotalFrom(WeightList(w), 0) == TotalWeight(w)
  {
    var ws := WeightList(w);
    assert TotalFrom(ws, 7) == ws[7];
    assert TotalFrom(ws, 6) == ws[6] + TotalFrom(ws, 7);
    assert TotalFrom(ws, 5) == ws[5] + TotalFrom(ws, 6);
    assert TotalFrom(ws, 4) == ws[4] + TotalFrom(ws, 5);
    assert TotalFrom(ws, 3) == ws[3] + TotalFrom(ws, 4);
    assert TotalFrom(ws, 2) == ws[2] + TotalFrom(ws, 3);
    assert TotalFrom(ws, 1) == ws[1] + TotalFrom(ws, 2);
  }

  /** With non-negative weights the score is never negative and never exceeds
    * the sum of all eight weights. */
  lemma ScoreBounds(p: Probes, w: Weights)
    requires NonNegative(w)
    ensures 0 <= Score(p, w) <= TotalWeight(w)
  {
    var ws := WeightList(w);
    assert forall i :: 0 <= i < |ws| ==> ws[i] >= 0;
    SumFiredBounds(Evidence(p), ws, 0);
    TotalOfWeightList(w);
  }

  /** Every score is a sum of at most eight Kotlin `Int` values, so its
    * magnitude is at most 2^34, far inside the range (2^53) where a `Double`
    * holds integers exactly; the same bound covers every partial sum. */
  lemma ScoreFitsDouble(p: Probes, w: Weights)
    ensures -0x4_0000_0000 <= Score(p, w) <= 0x4_0000_0000
  {
    ScoreExpanded(p, w);
  }

  /** No signal fires: UI mode not television, accelerometer present, and no
    * other probe reporting evidence. */
  const NoEvidence: Probes := Probes(false, true, false, false, false, false, false, false)

  lemma NoEvidenceScoresZero(w: Weights)
    ensures Score(NoEvidence, w) == 0
    ensures Classify(NoEvidence, DefaultThreshold, w) == TVSnifferResult(false, 0.0, false)
  {
    var e := Evidence(NoEvidence);
    assert forall i :: 0 <= i < |e| ==> !e[i];
    SumFiredNoneFired(e, WeightList(w), 0);
  }

  // ---------------------------------------------------------------------------
  // The shipped probes.

  /** The five placeholder probes never fire, so their weights cannot change
    * the outcome: only the UI-mode, accelerometer and leanback-library weights
    * matter. */
  lemma StubWeightsIrrelevant(context: Context, tvThresholdNeeded: real, w1: Weights, w2: Weights)
    requires w1.tvUiModeScore == w2.tvUiModeScore
    requires w1.noAccelerometerScore == w2.noAccelerometerScore
    requires w1.leanbackLibScore == w2.leanbackLibScore
    ensures Classify(ProbeAll(context), tvThresholdNeeded, w1)
         == Classify(ProbeAll(context), tvThresholdNeeded, w2)
  {
    // Replace the five placeholder weights of w1 by those of w2, one at a time;
    // each replaced position belongs to a signal that did not fire.
    var e := Evidence(ProbeAll(context));
    var ws0 := WeightList(w1);
    var ws1 := ws0[2 := w2.leanbackKeyFileScore as int];
    var ws2 := ws1[4 := w2.tvSettingsScore as int];
    var ws3 := ws2[5 := w2.leanbackLauncherScore as int];
    var ws4 := ws3[6 := w2.tvRecommendationScore as int];
    var ws5 := ws4[7 := w2.tvPartnerCustomizerScore as int];
    SumFiredUpdate(e, ws0, 0, 2, w2.leanbackKeyFileScore as int);
    SumFiredUpdate(e, ws1, 0, 4, w2.tvSettingsScore as int);
    SumFiredUpdate(e, ws2, 0, 5, w2.leanbackLauncherScore as int);
    SumFiredUpdate(e, ws3, 0, 6, w2.tvRecommendationScore as int);
    SumFiredUpdate(e, ws4, 0, 7, w2.tvPartnerCustomizerScore as int);
    assert ws5 == WeightList(w2);
  }

  /** The subset sums of the three live default weights {2, 4, 5}. */
  const DefaultReachableScores: set<int> := {0, 2, 4, 5, 6, 7, 9, 11}

  /** With the default weights every device scores one of the subset sums. */
  lemma DefaultScoresReachableOnly(context: Context)
    ensures Score(ProbeAll(context), DefaultWeights) in DefaultReachableScores
  {
    ScoreExpanded(ProbeAll(context), DefaultWeights);
  }

  /** A device whose three live probes give the stated answers. */
  function DeviceWith(uiModeTv: bool, noAccelerometer: bool, leanbackLibrary: bool): Context {
    Context(uiModeTv, !noAccelerometer, !noAccelerometer,
            if leanbackLibrary then Found(Some("1.0.0")) else NameNotFound)
  }

  /** ... and every subset sum is the score of some device. */
  lemma DefaultScoreAttained(v: int)
    requires v in DefaultReachableScores
    ensures exists context :: Score(ProbeAll(context), DefaultWeights) == v
  {
    var context := DeviceWith(v in {2, 6, 7, 11}, v in {4, 6, 9, 11}, v in {5, 7, 9, 11});
    ScoreExpanded(ProbeAll(context), DefaultWeights);
    assert Score(ProbeAll(context), DefaultWeights) == v;
  }

  /** With the default threshold and weights, a device is classified as a TV
    * exactly when it lacks an accelerometer and has the leanback library, and
    * the "maybe" band is never reached (no subset sum lies in [7.5, 8)). */
  lemma ShippedDefaultDecision(context: Context)
    ensures Classify(ProbeAll(context), DefaultThreshold, DefaultWeights).tvThresholdMet
        <==> !HasAccelerometer(context) && HasLeanbackLibrary(context)
    ensures !Classify(ProbeAll(context), DefaultThreshold, DefaultWeights).tvMaybe
  {
    ScoreExpanded(ProbeAll(context), DefaultWeights);
  }

  /** UI mode television, no accelerometer and the leanback library: 2 + 4 + 5. */
  lemma DefaultFullEvidence()
    ensures Classify(ProbeAll(Context(true, true, false, Found(Some("1.0.0")))), DefaultThreshold, DefaultWeights)
         == TVSnifferResult(true, 11.0, false)
  {
    ScoreExpanded(ProbeAll(Context(true, true, false, Found(Some("1.0.0")))), DefaultWeights);
  }

  // ---------------------------------------------------------------------------
  // Worked scenarios over the scoring formula (probe answers given directly,
  // including answers the placeholder probes cannot give today).

  lemma ScenarioUiModeOnly()
    ensures Classify(Probes(true, true, false, false, false, false, false, false), DefaultThreshold, DefaultWeights)
         == TVSnifferResult(false, 2.0, false)
  {
    ScoreExpanded(Probes(true, true, false, false, false, false, false, false), DefaultWeights);
  }

  lemma ScenarioNoAccelerometerOnly()
    ensures Classify(Probes(false, false, false, false, false, false, false, false), DefaultThreshold, DefaultWeights)
         == TVSnifferResult(false, 4.0, false)
  {
    ScoreExpanded(Probes(false, false, false, false, false, false, false, false), DefaultWeights);
  }

  /** UI mode and TV settings, 2 + 2, against threshold 4.0. */
  lemma ScenarioLowThreshold()
    ensures Classify(Probes(true, true, false, false, true, false, false, false), 4.0, DefaultWeights)
         == TVSnifferResult(true, 4.0, false)
  {
    ScoreExpanded(Probes(true, true, false, false, true, false, false, false), DefaultWeights);
  }

  /** UI mode and leanback launcher, 2 + 1, against threshold 3.5: exactly at
    * the edge of the band. */
  lemma ScenarioMaybe()
    ensures Classify(Probes(true, true, false, false, false, true, false, false), 3.5, DefaultWeights)
         == TVSnifferResult(false, 3.0, true)
  {
    ScoreExpanded(Probes(true, true, false, false, false, true, false, false), DefaultWeights);
  }
}
