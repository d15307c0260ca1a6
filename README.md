# TVSniffer in Dafny

TVSniffer decides, heuristically, whether the Android device it runs on is a
television. Eight boolean probes each supply one piece of evidence: the UI
mode is "television", the device has no accelerometer, the leanback library
is installed, and five more. The classifier `isTvDevice` starts a confidence
score at 0. It adds a configurable integer weight for every signal that fires.
Then it compares the score with a configurable threshold (default 8.0). The
result record holds three things: whether the threshold was met, the score,
and a "maybe" flag. The flag is set when the score falls short of the
threshold by at most the fixed band 0.5.

The project has two modules:

- `TVSniffer` (`tvsniffer.dfy`) holds the data model and the operations:
  - the platform state the probes read (`Context`, `PackageLookup`);
  - the eight probes, as predicates over `Context`
    (`src/main/java/com/devynel/tvsniffer/TVSniffer.kt:81-140`). Five of them
    (`HasLeanbackKeyboardFile`, `HasTvSettings`, `HasLeanbackLauncher`,
    `HasTvRecommendationService`, `HasTvPartnerCustomizer`) are the source's
    placeholders and are constantly `false`. `HasAccelerometer` treats a
    missing sensor service as "no accelerometer". `HasLeanbackLibrary` treats
    a name-not-found lookup as absence of evidence, and a package found
    without a version name counts as absent too;
  - the answers of all eight probes (`Probes`), the weights (`Weights`, each a
    Kotlin `Int`, with `DefaultWeights` and `DefaultThreshold`) and the
    result record `TVSnifferResult`;
  - a reference definition of the score: `SumFired` sums the weights whose
    flag is set, over the signals in evaluation order (`Evidence`) and their
    weights (`WeightList`). `Score` applies it to one set of probe answers;
  - the decision `Decide` (threshold test and maybe band), and `Classify`,
    which composes it with `Score`;
  - the method `IsTvDevice`. It performs the source's eight sequential
    `+=` updates on a local `real` accumulator, then the decision, and it is
    proved equal to `Classify`.
- `TVSnifferProperties` (`properties.dfy`) holds the lemmas: how the sum
  depends on the weights, bounds, the effect of the placeholder probes, the
  scores reachable with the shipped defaults, and worked scenarios.

The score is a `Double` in the source. Here it is a Dafny `real`. The
accumulation is exact: the score is a sum of at most eight 32-bit integers, so
its magnitude is at most 2^34 (`ScoreFitsDouble`). A `Double` represents
every integer up to 2^53 exactly. The same bound holds for every partial sum,
because each partial sum is also a sum of at most eight such integers. The
comparisons `>=` and `<=` on doubles are exact too. One step can round: the
subtraction `score - threshold` that feeds `abs`. The model computes that
difference exactly. The rounding changes the "maybe" answer for one pair:
score -1.0 with threshold -0.49999999999999994 (that is, -(0.5 - 2^-54)). There
the exact distance is 0.5 + 2^-54, which is a tie between two doubles and
rounds to 0.5, so the source reports "maybe". The model does not. No
non-negative score can hit this case.

Every member is a deterministic function of its arguments, so two calls with
the same context and configuration give the same result. This follows from
the contracts and needs no separate lemma.

## Model

| member | source | states |
|---|---|---|
| `TVSniffer.IsTvDevice` | src/main/java/com/devynel/tvsniffer/TVSniffer.kt:18-79 | the sequential accumulation and decision give exactly `Classify` of the probes' answers; the returned score is the sum of the weights of the signals that fired; threshold met iff score >= threshold; met and maybe are never both set; when not met, maybe iff threshold - score <= 0.5 |
| `TVSniffer.Decide` | src/main/java/com/devynel/tvsniffer/TVSniffer.kt:70-77 | the score is returned unchanged; threshold met iff score >= threshold; met and maybe exclude each other; when not met, `abs(score - threshold) <= 0.5` reduces to threshold - score <= 0.5; maybe holds exactly for scores in [threshold - 0.5, threshold) |
| `TVSniffer.ScoreExpanded` | src/main/java/com/devynel/tvsniffer/TVSniffer.kt:30-68 | the reference sum over the eight signals equals the sum of each weight whose signal fired, with the accelerometer weight counted when the sensor is absent |
| `TVSniffer.ProbeAll` | src/main/java/com/devynel/tvsniffer/TVSniffer.kt:81-140 | the five placeholder probes never fire; the UI-mode probe answers whether the UI-mode type is television; a missing sensor service or a missing default accelerometer both mean no accelerometer, and both present means one; a name-not-found lookup or a package without a version name means no leanback library, and a package found with a version name means one |
| `TVSnifferProperties.TotalOfWeightList` | src/main/java/com/devynel/tvsniffer/TVSniffer.kt:21-28 | the sum over the list of weights in evaluation order equals the sum of the eight weight parameters |
| `TVSnifferProperties.SumFiredUpdate` | src/main/java/com/devynel/tvsniffer/TVSniffer.kt:30-68 | changing one weight changes the score by exactly that change when its signal fired, and not at all when it did not |
| `TVSnifferProperties.SumFiredUnchanged` | src/main/java/com/devynel/tvsniffer/TVSniffer.kt:30-68 | a weight at a position the remaining accumulation steps do not reach has no effect on their sum |
| `TVSnifferProperties.SumFiredNoneFired` | src/main/java/com/devynel/tvsniffer/TVSniffer.kt:30-68 | when no signal fires, the score is 0 whatever the weights |
| `TVSnifferProperties.SumFiredBounds` | src/main/java/com/devynel/tvsniffer/TVSniffer.kt:30-68 | with non-negative weights the sum is between 0 and the sum of all weights, for any flags |
| `TVSnifferProperties.ScoreBounds` | src/main/java/com/devynel/tvsniffer/TVSniffer.kt:30-68 | with non-negative weights the score is between 0 and the sum of all eight weights; derived from `SumFiredBounds` |
| `TVSnifferProperties.ScoreFitsDouble` | src/main/java/com/devynel/tvsniffer/TVSniffer.kt:21-30 | a score made of `Int` weights has magnitude at most 2^34, so a `Double` accumulator holds it exactly |
| `TVSnifferProperties.NoEvidenceScoresZero` | src/main/java/com/devynel/tvsniffer/TVSniffer.kt:30-76 | with no signal firing (accelerometer present) the score is 0 for any weights, and with the default threshold the result is (false, 0.0, false); derived from `SumFiredNoneFired` |
| `TVSnifferProperties.StubWeightsIrrelevant` | src/main/java/com/devynel/tvsniffer/TVSniffer.kt:96-140 | because the five placeholder probes never fire, two weight settings that agree on the UI-mode, no-accelerometer and leanback-library weights give the same result on every device and threshold; derived from `SumFiredUpdate` at the five placeholder positions |
| `TVSnifferProperties.DefaultScoresReachableOnly` | src/main/java/com/devynel/tvsniffer/TVSniffer.kt:21-68 | with the default weights every device scores one of the subset sums of {2, 4, 5}: 0, 2, 4, 5, 6, 7, 9, 11 |
| `TVSnifferProperties.DefaultScoreAttained` | src/main/java/com/devynel/tvsniffer/TVSniffer.kt:21-68 | each of those subset sums is the default score of some device |
| `TVSnifferProperties.ShippedDefaultDecision` | src/main/java/com/devynel/tvsniffer/TVSniffer.kt:16-76 | with the default threshold and weights, a device is a TV exactly when it has no accelerometer and has the leanback library, and "maybe" is never reported |
| `TVSnifferProperties.DefaultFullEvidence` | src/main/java/com/devynel/tvsniffer/TVSniffer.kt:20-48 | UI mode television, no accelerometer and the leanback library give score 11, which meets the default threshold 8.0, with no maybe |
| `TVSnifferProperties.ScenarioUiModeOnly` | src/main/java/com/devynel/tvsniffer/TVSniffer.kt:30-76 | only the UI-mode signal fires: (false, 2.0, false) with the defaults |
| `TVSnifferProperties.ScenarioNoAccelerometerOnly` | src/main/java/com/devynel/tvsniffer/TVSniffer.kt:30-76 | only the no-accelerometer signal fires: (false, 4.0, false) with the defaults |
| `TVSnifferProperties.ScenarioLowThreshold` | src/main/java/com/devynel/tvsniffer/TVSniffer.kt:30-76 | UI mode and TV-settings signals against threshold 4.0: (true, 4.0, false) |
| `TVSnifferProperties.ScenarioMaybe` | src/main/java/com/devynel/tvsniffer/TVSniffer.kt:30-76 | UI mode and leanback-launcher signals against threshold 3.5: the distance is exactly 0.5, giving (false, 3.0, true) |

## Left out

- Android platform access is not modelled. This covers the UI-mode
  configuration and its type mask, the sensor service and its default
  accelerometer, and the package manager's `getPackageInfo`. Their answers
  are fields of `Context`, because their constants and behaviour belong to
  the platform.
- The diagnostic `Log.d` calls in every probe are left out. They are output
  only and do not affect the result.
- IEEE-754 `Double` behaviour is left out: NaN or infinite thresholds are not
  modelled, and the threshold is a `real`.
- TVSniffer.Decide: does not model the rounding of `score - threshold`. It
  computes the distance exactly, so it answers "maybe" false at score -1.0 with
  threshold -0.49999999999999994, where the source rounds the distance to 0.5
  and answers true.
- TVSniffer.IsTvDevice: inherits the same gap from its decision step. Its
  `tvMaybe` differs from the source's only at score -1.0 with threshold
  -0.49999999999999994.
- The scenario lemmas set the placeholder probes' answers directly, through
  `Probes`. As shipped, no `Context` makes those probes fire.
