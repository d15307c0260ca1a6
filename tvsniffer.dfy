// TVSniffer: a weighted-evidence heuristic that decides whether the device it
// runs on is a television.  Eight boolean probes each contribute an integer
// weight to a confidence score; the score is compared against a threshold,
// and a score just below the threshold is reported as "maybe".

module TVSniffer {

  /** Kotlin `Int`, the type of every weight parameter. */
  type Int32 = x: int | -0x8000_0000 <= x < 0x8000_0000

  /** Default value of the `tvThresholdNeeded` parameter. */
  const DefaultThreshold: real := 8.0

  /** Fixed width of the "maybe" band below the threshold (not configurable). */
  const Proximity: real := 0.5

  datatype Option<T> = None | Some(value: T)

  /** What a package-manager lookup of the leanback library yields: either the
    * lookup fails with a name-not-found condition, or it finds a package whose
    * version name may be missing. */
  datatype PackageLookup = NameNotFound | Found(versionName: Option<string>)

  /** The platform state that the probes consult, reduced to the facts that
    * decide their answers.  How the platform computes these facts (the UI-mode
    * mask, the sensor service, the package registry) is outside the model. */
  datatype Context = Context(
    uiModeIsTelevision: bool,          // the masked UI-mode type is "television"
    sensorManagerAvailable: bool,      // the sensor system service exists
    defaultAccelerometerPresent: bool, // it reports a default accelerometer
    leanbackPackage: PackageLookup)    // lookup of the leanback library package

  // ---------------------------------------------------------------------------
  // The eight probes, in the order the classifier consults them.

  predicate IsUiModeTv(context: Context) {
    context.uiModeIsTelevision
  }

  /** A missing sensor service counts as "no accelerometer". */
  predicate HasAccelerometer(context: Context) {
    context.sensorManagerAvailable && context.defaultAccelerometerPresent
  }

  /** Placeholder probe: never reports evidence. */
  predicate HasLeanbackKeyboardFile(context: Context) {
    false
  }

  /** A name-not-found lookup is absence of evidence, never an error. */
  predicate HasLeanbackLibrary(context: Context) {
    match context.leanbackPackage
    case NameNotFound => false
    case Found(versionName) => versionName.Some?
  }

  /** Placeholder probe: never reports evidence. */
  predicate HasTvSettings(context: Context) {
    false
  }

  /** Placeholder probe: never reports evidence. */
  predicate HasLeanbackLauncher(context: Context) {
    false
  }

  /** Placeholder probe: never reports evidence. */
  predicate HasTvRecommendationService(context: Context) {
    false
  }

  /** Placeholder probe: never reports evidence. */
  predicate HasTvPartnerCustomizer(context: Context) {
    false
  }

  // ---------------------------------------------------------------------------
  // Probe answers, weights and the result record.

  /** The answers of the eight probes.  Any combination can be written down,
    * which is how the scoring formula is studied with "fake" probes; the
    * shipped probes produce only those of the form `ProbeAll(context)`. */
  datatype Probes = Probes(
    isUiModeTv: bool,
    hasAccelerometer: bool,
    hasLeanbackKeyboardFile: bool,
    hasLeanbackLibrary: bool,
    hasTvSettings: bool,
    hasLeanbackLauncher: bool,
    hasTvRecommendationService: bool,
    hasTvPartnerCustomizer: bool)

  /** The answers the shipped probes give.  The five placeholders never fire;
    * a missing sensor service or a missing default accelerometer both mean
    * "no accelerometer"; the leanback library counts only when its package is
    * found and carries a version name. */
  function ProbeAll(context: Context): (p: Probes)
    ensures !p.hasLeanbackKeyboardFile && !p.hasTvSettings && !p.hasLeanbackLauncher
         && !p.hasTvRecommendationService && !p.hasTvPartnerCustomizer
    ensures p.isUiModeTv <==> context.uiModeIsTelevision
    ensures !context.sensorManagerAvailable ==> !p.hasAccelerometer
    ensures !context.defaultAccelerometerPresent ==> !p.hasAccelerometer
    ensures context.sensorManagerAvailable && context.defaultAccelerometerPresent ==> p.hasAccelerometer
    ensures context.leanbackPackage == NameNotFound ==> !p.hasLeanbackLibrary
    ensures context.leanbackPackage == Found(None) ==> !p.hasLeanbackLibrary
    ensures context.leanbackPackage.Found? && context.leanbackPackage.versionName.Some? ==> p.hasLeanbackLibrary
  {
    Probes(IsUiModeTv(context), HasAccelerometer(context),
           HasLeanbackKeyboardFile(context), HasLeanbackLibrary(context),
           HasTvSettings(context), HasLeanbackLauncher(context),
           HasTvRecommendationService(context), HasTvPartnerCustomizer(context))
  }

  /** The per-signal weights, as the classifier's parameters name them. */
  datatype Weights = Weights(
    tvUiModeScore: Int32,
    noAccelerometerScore: Int32,
    leanbackKeyFileScore: Int32,
    leanbackLibScore: Int32,
    leanbackLauncherScore: Int32,
    tvSettingsScore: Int32,
    tvRecommendationScore: Int32,
    tvPartnerCustomizerScore: Int32)

  const DefaultWeights: Weights := Weights(2, 4, 5, 5, 1, 2, 1, 1)

  datatype TVSnifferResult = TVSnifferResult(tvThresholdMet: bool, tvScore: real, tvMaybe: bool)

  // ---------------------------------------------------------------------------
  // Specification of the score: the sum of the weights whose signal fired.

  /** Whether each signal fired, in evaluation order.  The accelerometer signal
    * fires when the sensor is absent. */
  function Evidence(p: Probes): seq<bool> {
    [p.isUiModeTv, !p.hasAccelerometer, p.hasLeanbackKeyboardFile, p.hasLeanbackLibrary,
     p.hasTvSettings, p.hasLeanbackLauncher, p.hasTvRecommendationService, p.hasTvPartnerCustomizer]
  }

  /** The weight of each signal, in the same order as `Evidence`. */
  function WeightList(w: Weights): seq<int> {
    [w.tvUiModeScore, w.noAccelerometerScore, w.leanbackKeyFileScore, w.leanbackLibScore,
     w.tvSettingsScore, w.leanbackLauncherScore, w.tvRecommendationScore, w.tvPartnerCustomizerScore]
  }

  function Contribution(fired: bool, weight: int): int {
    if fired then weight else 0
  }

  /** Sum of all weights from position k on. */
  function TotalFrom(weights: seq<int>, k: nat): int
    requires k <= |weights|
    decreases |weights| - k
  {
    if k == |weights| then 0 else weights[k] + TotalFrom(weights, k + 1)
  }

  /** Sum of the weights from position k on whose flag is set. */
  function SumFiredFrom(fired: seq<bool>, weights: seq<int>, k: nat): int
    requires |fired| == |weights| && k <= |fired|
    decreases |fired| - k
  {
    if k == |fired| then 0
    else Contribution(fired[k], weights[k]) + SumFiredFrom(fired, weights, k + 1)
  }

  /** Sum of the weights whose flag is set: the reference definition of the
    * confidence score. */
  function SumFired(fired: seq<bool>, weights: seq<int>): int
    requires |fired| == |weights|
  {
    SumFiredFrom(fired, weights, 0)
  }

  function Score(p: Probes, w: Weights): int {
    SumFired(Evidence(p), WeightList(w))
  }

  // ---------------------------------------------------------------------------
  // The decision.

  function Abs(x: real): real {
    if x < 0.0 then -x else x
  }

  /** Threshold test and "maybe" band applied to an accumulated score. */
  function Decide(score: real, tvThresholdNeeded: real): (r: TVSnifferResult)
    ensures r.tvScore == score
    ensures r.tvThresholdMet <==> score >= tvThresholdNeeded
    ensures !(r.tvThresholdMet && r.tvMaybe)
    ensures !r.tvThresholdMet ==> (r.tvMaybe <==> tvThresholdNeeded - score <= Proximity)
    ensures r.tvMaybe <==> tvThresholdNeeded - Proximity <= score < tvThresholdNeeded
  {
    var thresholdMet := score >= tvThresholdNeeded;
    var tvMaybe := if !thresholdMet then Abs(score - tvThresholdNeeded) <= Proximity else false;
    TVSnifferResult(thresholdMet, score, tvMaybe)
  }

  /** What one classification yields for given probe answers. */
  function Classify(p: Probes, tvThresholdNeeded: real, w: Weights): TVSnifferResult {
    Decide(Score(p, w) as real, tvThresholdNeeded)
  }

  /** The reference sum, unfolded over the eight signals. */
  lemma ScoreExpanded(p: Probes, w: Weights)
    ensures Score(p, w) ==
      Contribution(p.isUiModeTv, w.tvUiModeScore)
      + Contribution(!p.hasAccelerometer, w.noAccelerometerScore)
      + Contribution(p.hasLeanbackKeyboardFile, w.leanbackKeyFileScore)
      + Contribution(p.hasLeanbackLibrary, w.leanbackLibScore)
      + Contribution(p.hasTvSettings, w.tvSettingsScore)
      + Contribution(p.hasLeanbackLauncher, w.leanbackLauncherScore)
      + Contribution(p.hasTvRecommendationService, w.tvRecommendationScore)
      + Contribution(p.hasTvPartnerCustomizer, w.tvPartnerCustomizerScore)
  {
    var e, ws := Evidence(p), WeightList(w);
    // Each step unfolds the sum by one signal, from the last one back.
    assert SumFiredFrom(e, ws, 7) == Contribution(e[7], ws[7]);
    assert SumFiredFrom(e, ws, 6) == Contribution(e[6], ws[6]) + SumFiredFrom(e, ws, 7);
    assert SumFiredFrom(e, ws, 5) == Contribution(e[5], ws[5]) + SumFiredFrom(e, ws, 6);
    assert SumFiredFrom(e, ws, 4) == Contribution(e[4], ws[4]) + SumFiredFrom(e, ws, 5);
    assert SumFiredFrom(e, ws, 3) == Contribution(e[3], ws[3]) + SumFiredFrom(e, ws, 4);
    assert SumFiredFrom(e, ws, 2) == Contribution(e[2], ws[2]) + SumFiredFrom(e, ws, 3);
    assert SumFiredFrom(e, ws, 1) == Contribution(e[1], ws[1]) + SumFiredFrom(e, ws, 2);
  }

  // ---------------------------------------------------------------------------
  // The classifier.

  /** Consults the probes in order, adds the weight of each signal that fires
    * to a running score that starts at 0, then applies the threshold test and
    * the "maybe" band. */
  method IsTvDevice(context: Context, tvThresholdNeeded: real, w: Weights) returns (result: TVSnifferResult)
    ensures result == Classify(ProbeAll(context), tvThresholdNeeded, w)
    ensures result.tvScore == Score(ProbeAll(context), w) as real
    ensures result.tvThresholdMet <==> result.tvScore >= tvThresholdNeeded
    ensures !(result.tvThresholdMet && result.tvMaybe)
    ensures !result.tvThresholdMet ==> (result.tvMaybe <==> tvThresholdNeeded - result.tvScore <= Proximity)
  {
    var score: real := 0.0;
    if IsUiModeTv(context) {
      score := score + w.tvUiModeScore as real;
    }
    if !HasAccelerometer(context) {
      score := score + w.noAccelerometerScore as real;
    }
    if HasLeanbackKeyboardFile(context) {
      score := score + w.leanbackKeyFileScore as real;
    }
    if HasLeanbackLibrary(context) {
      score := score + w.leanbackLibScore as real;
    }
    if HasTvSettings(context) {
      score := score + w.tvSettingsScore as real;
    }
    if HasLeanbackLauncher(context) {
      score := score + w.leanbackLauncherScore as real;
    }
    if HasTvRecommendationService(context) {
      score := score + w.tvRecommendationScore as real;
    }
    if HasTvPartnerCustomizer(context) {
      score := score + w.tvPartnerCustomizerScore as real;
    }

    var thresholdMet := score >= tvThresholdNeeded;
    var proximity := Proximity;
    var tvMaybe := if !thresholdMet then Abs(score - tvThresholdNeeded) <= proximity else false;
    result := TVSnifferResult(thresholdMet, score, tvMaybe);
    ScoreExpanded(ProbeAll(context), w);
  }
}
