/** The scoring glue of the page's `analyzeMessage`: the spam probability and
    the keyword fraud score are merged, bucketed into a spam level, blended
    with the AI probability and bucketed into a safety verdict. */
module App {
  import opened Utils

  /** `Math.max(spamProbability, fraudScore)`: the larger of the two, so
      neither signal is lost. */
  function FinalFraudScore(spamProbability: real, fraudScore: real): (r: real)
    ensures r >= spamProbability && r >= fraudScore
    ensures r == spamProbability || r == fraudScore
  {
    if spamProbability >= fraudScore then spamProbability else fraudScore
  }

  /** A percentage merged with a capped fraud score stays a percentage. */
  lemma {:induction false} FinalFraudScoreBounds(spamProbability: real, fraudScore: nat)
    requires 0.0 <= spamProbability <= 100.0 && fraudScore <= 100
    ensures 0.0 <= FinalFraudScore(spamProbability, fraudScore as real) <= 100.0
  {
  }

  /** The spam level shown to the user: "Низкий" below 30, "Средний" from
      30 up to below 70, "Высокий" from 70 up. */
  function SpamLevelLabel(finalFraudScore: real): (l: string)
    ensures l == "Низкий" <==> finalFraudScore < 30.0
    ensures l == "Средний" <==> 30.0 <= finalFraudScore < 70.0
    ensures l == "Высокий" <==> finalFraudScore >= 70.0
  {
    if finalFraudScore < 30.0 then "Низкий"
    else if finalFraudScore < 70.0 then "Средний"
    else "Высокий"
  }

  /** The label, read back by `generateRecommendations`, selects the spam
      advice of the same bucket as the fraud advice. */
  lemma {:induction false} SpamLabelSelectsFraudBucket(finalFraudScore: real)
    ensures SpamKey(SpamLevelLabel(finalFraudScore)) == FraudLevelKey(finalFraudScore)
    ensures SpamKey(SpamLevelLabel(finalFraudScore)) == LevelKey(GetRiskLevel(finalFraudScore))
  {
    FraudLevelIsRiskLevel(finalFraudScore);
  }

  /** The safety verdict: safe, suspicious or dangerous. */
  datatype Safety = Safe | Suspicious | Dangerous

  /** The verdict of an overall score, by the 30 and 70 thresholds: the
      verdict of the score's risk level. */
  function SafetyOf(overallScore: real): (v: Safety)
    ensures v == SafetyOfLevel(GetRiskLevel(overallScore))
  {
    if overallScore < 30.0 then Safe else if overallScore < 70.0 then Suspicious else Dangerous
  }

  /** The verdict of a risk level. */
  function SafetyOfLevel(l: RiskLevel): Safety {
    match l
    case Low => Safe
    case Medium => Suspicious
    case High => Dangerous
  }

  /** With percentage inputs, the merged score and the blend are percentages. */
  lemma {:induction false} PercentagesStayPercentages(spamProbability: real, aiProbability: real, fraudScore: nat)
    ensures 0.0 <= spamProbability <= 100.0 && 0.0 <= aiProbability <= 100.0 && fraudScore <= 100
            ==> var final := FinalFraudScore(spamProbability, fraudScore as real);
                0.0 <= final <= 100.0 && 0.0 <= CalculateOverallRisk(final, aiProbability).score <= 100.0
  {
    if 0.0 <= spamProbability <= 100.0 && 0.0 <= aiProbability <= 100.0 && fraudScore <= 100 {
      var final := FinalFraudScore(spamProbability, fraudScore as real);
      FinalFraudScoreBounds(spamProbability, fraudScore);
      OverallRiskBounds(final, aiProbability);
    }
  }

  /** What the page reports about a message. */
  datatype Assessment = Assessment(
    finalFraudScore: real, spamLevel: string, overall: RiskAssessment, safety: Safety)

  /** The glue of `analyzeMessage`, given the spam probability, the AI
      probability and the keyword fraud score. The merged score is the
      `Math.max` of the two, the spam level and the verdict are the labels of
      their scores' buckets, the verdict agrees with the overall risk level,
      the spam level selects the bucket of the merged fraud score, and with
      percentage inputs every score is a percentage. */
  function Assess(spamProbability: real, aiProbability: real, fraudScore: nat): (a: Assessment)
    ensures a.finalFraudScore == FinalFraudScore(spamProbability, fraudScore as real)
    ensures a.finalFraudScore >= spamProbability && a.finalFraudScore >= fraudScore as real
    ensures a.spamLevel == SpamLevelLabel(a.finalFraudScore)
    ensures a.safety == SafetyOf(a.overall.score)
    ensures a.safety == SafetyOfLevel(a.overall.level)
    ensures SpamKey(a.spamLevel) == FraudLevelKey(a.finalFraudScore)
    ensures a.overall == CalculateOverallRisk(a.finalFraudScore, aiProbability)
    ensures 0.0 <= spamProbability <= 100.0 && 0.0 <= aiProbability <= 100.0 && fraudScore <= 100
            ==> 0.0 <= a.finalFraudScore <= 100.0 && 0.0 <= a.overall.score <= 100.0
  {
    var final := FinalFraudScore(spamProbability, fraudScore as real);
    var overall := CalculateOverallRisk(final, aiProbability);
    SpamLabelSelectsFraudBucket(final);
    PercentagesStayPercentages(spamProbability, aiProbability, fraudScore);
    Assessment(final, SpamLevelLabel(final), overall, SafetyOf(overall.score))
  }
}
