/** `Utils`: the risk blend and its buckets, the keyword fraud score, the
    recommendation list, the accuracy counter and the shuffled train/test
    split. */
module Utils {
  import opened Seqs
  import opened Text
  import opened Reals

  // Risk.

  datatype RiskLevel = Low | Medium | High

  /** The order of the levels. */
  function Rank(l: RiskLevel): nat {
    match l
    case Low => 0
    case Medium => 1
    case High => 2
  }

  /** `getRiskLevel`: Low below 30, Medium from 30 up to below 70, High from
      70 up. */
  function GetRiskLevel(score: real): (l: RiskLevel)
    ensures l == Low <==> score < 30.0
    ensures l == Medium <==> 30.0 <= score < 70.0
    ensures l == High <==> 70.0 <= score
  {
    if score < 30.0 then Low else if score < 70.0 then Medium else High
  }

  /** A higher score never gets a lower level. */
  lemma {:induction false} RiskLevelMonotone(a: real, b: real)
    requires a <= b
    ensures Rank(GetRiskLevel(a)) <= Rank(GetRiskLevel(b))
  {
  }

  /** What `calculateOverallRisk` returns; the source formats `score` with
      two decimals. */
  datatype RiskAssessment = RiskAssessment(score: real, level: RiskLevel)

  /** `calculateOverallRisk`: the spam probability weighted 0.7 and the AI
      probability weighted 0.3, each taken as a fraction and scaled back to
      percent. The score is the weighted mean `0.7·spam + 0.3·ai`, so it lies
      between the two inputs, and the level is the score's. */
  function CalculateOverallRisk(spamProb: real, aiProb: real): (r: RiskAssessment)
    ensures r.score == 0.7 * spamProb + 0.3 * aiProb
    ensures spamProb <= aiProb ==> spamProb <= r.score <= aiProb
    ensures aiProb <= spamProb ==> aiProb <= r.score <= spamProb
    ensures r.level == GetRiskLevel(r.score)
  {
    var spamRisk := spamProb * 0.7 / 100.0;
    var aiRisk := aiProb * 0.3 / 100.0;
    var overall := (spamRisk + aiRisk) * 100.0;
    RiskAssessment(overall, GetRiskLevel(overall))
  }

  /** Percentages in, a percentage out; and the score never falls when
      either input rises. */
  lemma {:induction false} OverallRiskBounds(spamProb: real, aiProb: real)
    requires 0.0 <= spamProb <= 100.0 && 0.0 <= aiProb <= 100.0
    ensures 0.0 <= CalculateOverallRisk(spamProb, aiProb).score <= 100.0
  {
  }

  lemma {:induction false} OverallRiskMonotone(spam1: real, ai1: real, spam2: real, ai2: real)
    requires spam1 <= spam2 && ai1 <= ai2
    ensures CalculateOverallRisk(spam1, ai1).score <= CalculateOverallRisk(spam2, ai2).score
    ensures Rank(CalculateOverallRisk(spam1, ai1).level) <= Rank(CalculateOverallRisk(spam2, ai2).level)
  {
    RiskLevelMonotone(CalculateOverallRisk(spam1, ai1).score, CalculateOverallRisk(spam2, ai2).score);
  }

  // The keyword fraud score.

  /** The phrase lists of `checkFraudPatterns`; any of them may be absent. */
  datatype FraudPatterns = FraudPatterns(
    urgentPhrases: Option<seq<string>>,
    financialPhrases: Option<seq<string>>,
    suspiciousLinks: Option<seq<string>>,
    personalDataRequests: Option<seq<string>>)

  /** `list || []`. */
  function OrEmpty(o: Option<seq<string>>): seq<string> {
    if o.Some? then o.value else []
  }

  /** The score before the cap: 10, 15, 20 and 25 for every urgent,
      financial, link and personal-data phrase present in the lower-cased
      text, each phrase once. */
  function RawFraudScore(text: string, p: FraudPatterns): nat {
    var t := Lower(text);
    10 * CountPresent(t, OrEmpty(p.urgentPhrases))
    + 15 * CountPresent(t, OrEmpty(p.financialPhrases))
    + 20 * CountPresent(t, OrEmpty(p.suspiciousLinks))
    + 25 * CountPresent(t, OrEmpty(p.personalDataRequests))
  }

  /** `checkFraudPatterns`'s result: the raw score, capped at 100. */
  function FraudScore(text: string, p: FraudPatterns): (s: nat)
    ensures s <= 100
    ensures s <= RawFraudScore(text, p)
    ensures s == 100 || s == RawFraudScore(text, p)
  {
    if RawFraudScore(text, p) < 100 then RawFraudScore(text, p) else 100
  }

  /** The score is 0 exactly when no phrase of any list occurs. */
  lemma {:induction false} FraudScoreZero(text: string, p: FraudPatterns)
    ensures FraudScore(text, p) == 0 <==>
      (forall k :: 0 <= k < |OrEmpty(p.urgentPhrases)| ==> !Contains(Lower(text), OrEmpty(p.urgentPhrases)[k]))
      && (forall k :: 0 <= k < |OrEmpty(p.financialPhrases)| ==> !Contains(Lower(text), OrEmpty(p.financialPhrases)[k]))
      && (forall k :: 0 <= k < |OrEmpty(p.suspiciousLinks)| ==> !Contains(Lower(text), OrEmpty(p.suspiciousLinks)[k]))
      && (forall k :: 0 <= k < |OrEmpty(p.personalDataRequests)| ==> !Contains(Lower(text), OrEmpty(p.personalDataRequests)[k]))
  {
    var t := Lower(text);
    CountPresentExtremes(t, OrEmpty(p.urgentPhrases));
    CountPresentExtremes(t, OrEmpty(p.financialPhrases));
    CountPresentExtremes(t, OrEmpty(p.suspiciousLinks));
    CountPresentExtremes(t, OrEmpty(p.personalDataRequests));
  }

  /** A missing list scores like an empty one: with no lists the score is 0. */
  lemma {:induction false} NoListsNoScore(text: string)
    ensures FraudScore(text, FraudPatterns(None, None, None, None)) == 0
  {
    var t := Lower(text);
    assert CountPresent(t, []) == 0;
  }

  /** One more phrase on a list adds that list's weight if the phrase occurs
      and nothing otherwise. */
  lemma {:induction false} CountPresentAppend(text: string, phrases: seq<string>, x: string)
    ensures CountPresent(text, phrases + [x])
            == CountPresent(text, phrases) + (if Contains(text, x) then 1 else 0)
  {
    assert (phrases + [x])[..|phrases|] == phrases;
  }

  /** Listing one more personal-data phrase never lowers the score, and
      raises it by 25, up to the cap, when the phrase occurs. */
  lemma {:induction false} MorePhrasesScoreMore(text: string, p: FraudPatterns, x: string)
    ensures var q := p.(personalDataRequests := Some(OrEmpty(p.personalDataRequests) + [x]));
            RawFraudScore(text, q)
            == RawFraudScore(text, p) + (if Contains(Lower(text), x) then 25 else 0)
            && FraudScore(text, p) <= FraudScore(text, q)
  {
    CountPresentAppend(Lower(text), OrEmpty(p.personalDataRequests), x);
  }

  /** `checkFraudPatterns`: the four presence loops over the lower-cased text,
      then `Math.min(score, 100)`. */
  method CheckFraudPatterns(text: string, patterns: FraudPatterns) returns (score: nat)
    ensures score == FraudScore(text, patterns)
  {
    var lowerText := Lower(text);
    score := PresenceScore(lowerText, OrEmpty(patterns.urgentPhrases), 10);
    var s := PresenceScore(lowerText, OrEmpty(patterns.financialPhrases), 15);
    score := score + s;
    s := PresenceScore(lowerText, OrEmpty(patterns.suspiciousLinks), 20);
    score := score + s;
    s := PresenceScore(lowerText, OrEmpty(patterns.personalDataRequests), 25);
    score := score + s;
    if score > 100 {
      score := 100;
    }
  }

  // Recommendations.

  /** `[...new Set(xs)]`: the first occurrence of every element, in order. */
  function Dedup<T(==)>(xs: seq<T>): seq<T> {
    if xs == [] then []
    else
      var init := xs[..|xs| - 1];
      if xs[|xs| - 1] in init then Dedup(init) else Dedup(init) + [xs[|xs| - 1]]
  }

  /** The index of the first occurrence of `x`. */
  function FirstIndex<T(==)>(xs: seq<T>, x: T): (k: nat)
    requires x in xs
    ensures k < |xs|
  {
    var init := xs[..|xs| - 1];
    if x in init then FirstIndex(init, x) else |xs| - 1
  }

  /** `FirstIndex` finds `x`, and nothing before it is `x`. */
  lemma {:induction false} FirstIndexSpec<T>(xs: seq<T>, x: T)
    requires x in xs
    ensures xs[FirstIndex(xs, x)] == x
    ensures forall j :: 0 <= j < FirstIndex(xs, x) ==> xs[j] != x
  {
    var init := xs[..|xs| - 1];
    if x in init {
      FirstIndexSpec(init, x);
    }
  }

  /** The de-duplicated list holds every element once, and nothing else. */
  lemma {:induction false} DedupSpec<T>(xs: seq<T>)
    ensures Distinct(Dedup(xs))
    ensures Elems(Dedup(xs)) == Elems(xs)
  {
    if xs != [] {
      var init := xs[..|xs| - 1];
      var x := xs[|xs| - 1];
      var d := Dedup(init);
      DedupSpec(init);
      assert xs == init + [x];
      AppendFresh(init, x);
      ElemsMember(init);
      if x !in init {
        ElemsMember(d);
        AppendFresh(d, x);
      }
    }
  }

  /** The de-duplicated list keeps first occurrences in their order. */
  lemma {:induction false} DedupOrder<T>(xs: seq<T>)
    ensures forall y :: y in Dedup(xs) ==> y in xs
    ensures forall i, j :: 0 <= i < j < |Dedup(xs)| ==>
              FirstIndex(xs, Dedup(xs)[i]) < FirstIndex(xs, Dedup(xs)[j])
  {
    if xs != [] {
      var init := xs[..|xs| - 1];
      var x := xs[|xs| - 1];
      var d := Dedup(init);
      DedupOrder(init);
      assert forall y :: y in init ==> y in xs;
      forall i, j | 0 <= i < j < |Dedup(xs)|
        ensures FirstIndex(xs, Dedup(xs)[i]) < FirstIndex(xs, Dedup(xs)[j])
      {
        assert d[i] in init;
        if j < |d| {
          assert d[j] in init;
        }
      }
    }
  }

  /** The "ai" part of the recommendation database; both lists are present. */
  datatype AIAdvice = AIAdvice(detected: seq<string>, notDetected: seq<string>)

  /** The recommendation database: fraud and spam advice by level key
      ("low", "medium", "high"), AI advice, and optional general advice. */
  datatype RecommendationDB = RecommendationDB(
    fraud: map<string, seq<string>>,
    ai: AIAdvice,
    spam: map<string, seq<string>>,
    general: Option<seq<string>>)

  /** `m[key] || []`. */
  function LookupOr(m: map<string, seq<string>>, key: string): seq<string> {
    if key in m then m[key] else []
  }

  /** The fraud level key of a fraud score: "low" below 30, "medium" from 30
      to below 70, "high" from 70 up. */
  function FraudLevelKey(fraudScore: real): (k: string)
    ensures k == "low" <==> fraudScore < 30.0
    ensures k == "medium" <==> 30.0 <= fraudScore < 70.0
    ensures k == "high" <==> fraudScore >= 70.0
  {
    if fraudScore < 30.0 then "low" else if fraudScore < 70.0 then "medium" else "high"
  }

  /** The key of a risk level. */
  function LevelKey(l: RiskLevel): string {
    match l
    case Low => "low"
    case Medium => "medium"
    case High => "high"
  }

  /** The fraud buckets are `getRiskLevel`'s. */
  lemma {:induction false} FraudLevelIsRiskLevel(fraudScore: real)
    ensures FraudLevelKey(fraudScore) == LevelKey(GetRiskLevel(fraudScore))
  {
  }

  /** The spam advice key of a spam level label: any label other than
      "Низкий" and "Средний" reads as high. */
  function SpamKey(spamLevel: string): (k: string)
    ensures k == "low" <==> spamLevel == "Низкий"
    ensures k == "medium" <==> spamLevel == "Средний"
    ensures k == "high" <==> spamLevel != "Низкий" && spamLevel != "Средний"
  {
    if spamLevel == "Низкий" then "low" else if spamLevel == "Средний" then "medium" else "high"
  }

  /** Everything `generateRecommendations` pushes, in order: fraud advice,
      AI advice, spam advice, general advice. */
  function Gathered(fraudScore: real, aiDetected: bool, spamLevel: string, db: RecommendationDB): seq<string> {
    LookupOr(db.fraud, FraudLevelKey(fraudScore))
    + (if aiDetected then db.ai.detected else db.ai.notDetected)
    + LookupOr(db.spam, SpamKey(spamLevel))
    + OrEmpty(db.general)
  }

  /** One `forEach(rec => recommendations.push(rec))`. */
  method PushAll(recommendations: seq<string>, items: seq<string>) returns (r: seq<string>)
    ensures r == recommendations + items
  {
    r := recommendations;
    var k := 0;
    while k < |items|
      invariant 0 <= k <= |items|
      invariant r == recommendations + items[..k]
    {
      assert items[..k + 1] == items[..k] + [items[k]];
      r := r + [items[k]];
      k := k + 1;
    }
    assert items[..k] == items;
  }

  /** `generateRecommendations`: the four groups pushed in order, then the
      duplicates removed. */
  method GenerateRecommendations(fraudScore: real, aiDetected: bool, spamLevel: string, db: RecommendationDB)
    returns (r: seq<string>)
    ensures r == Dedup(Gathered(fraudScore, aiDetected, spamLevel, db))
  {
    var recommendations: seq<string> := [];
    recommendations := PushAll(recommendations, LookupOr(db.fraud, FraudLevelKey(fraudScore)));
    var aiRecs := if aiDetected then db.ai.detected else db.ai.notDetected;
    recommendations := PushAll(recommendations, aiRecs);
    recommendations := PushAll(recommendations, LookupOr(db.spam, SpamKey(spamLevel)));
    recommendations := PushAll(recommendations, OrEmpty(db.general));
    assert recommendations == Gathered(fraudScore, aiDetected, spamLevel, db);
    r := Dedup(recommendations);
  }

  /** The recommendations hold every gathered item exactly once, nothing
      else, in the order of first appearance. */
  lemma {:induction false} RecommendationsSpec(fraudScore: real, aiDetected: bool, spamLevel: string, db: RecommendationDB)
    ensures var all := Gathered(fraudScore, aiDetected, spamLevel, db);
            var r := Dedup(all);
            Distinct(r)
            && (forall x :: x in r <==> x in all)
            && (forall i, j :: 0 <= i < j < |r| ==> FirstIndex(all, r[i]) < FirstIndex(all, r[j]))
  {
    var all := Gathered(fraudScore, aiDetected, spamLevel, db);
    DedupSpec(all);
    DedupOrder(all);
    ElemsMember(all);
    ElemsMember(Dedup(all));
  }

  // Accuracy.

  /** A probability of 50 or more predicts label 1, anything else label 0. */
  function Prediction(probability: real): (predicted: int)
    ensures predicted == 1 <==> probability >= 50.0
    ensures predicted == 0 <==> probability < 50.0
  {
    if probability >= 50.0 then 1 else 0
  }

  /** Message `i` is predicted right; a missing label never matches. */
  predicate Hit(predict: string -> real, messages: seq<string>, labels: seq<Option<int>>, i: nat)
    requires i < |messages|
  {
    i < |labels| && labels[i] == Some(Prediction(predict(messages[i])))
  }

  /** How many of the first `n` messages are predicted right. */
  function CorrectCount(predict: string -> real, messages: seq<string>, labels: seq<Option<int>>, n: nat): (c: nat)
    requires n <= |messages|
    ensures c <= n
  {
    if n == 0 then 0
    else CorrectCount(predict, messages, labels, n - 1) + (if Hit(predict, messages, labels, n - 1) then 1 else 0)
  }

  /** Every prediction is right exactly when the count reaches `n`. */
  lemma {:induction false} AllCorrect(predict: string -> real, messages: seq<string>, labels: seq<Option<int>>, n: nat)
    requires n <= |messages|
    ensures CorrectCount(predict, messages, labels, n) == n
            <==> forall i :: 0 <= i < n ==> Hit(predict, messages, labels, i)
  {
    if n > 0 {
      AllCorrect(predict, messages, labels, n - 1);
    }
  }

  /** `evaluateModel`: the percentage of messages predicted right; `None`
      stands for the `NaN` of an empty test set. The labels are those
      `TrainTestSplit` hands out, where a missing one is `None`. */
  method EvaluateModel(predict: string -> real, testMessages: seq<string>, testLabels: seq<Option<int>>)
    returns (accuracy: Option<real>)
    ensures accuracy.None? <==> |testMessages| == 0
    ensures accuracy.Some? ==>
              accuracy.value == Mul(Div(CorrectCount(predict, testMessages, testLabels, |testMessages|) as real,
                                        |testMessages| as real), 100.0)
    ensures accuracy.Some? ==> 0.0 <= accuracy.value <= 100.0
  {
    var correct := 0;
    var total := |testMessages|;
    var i := 0;
    while i < total
      invariant 0 <= i <= total
      invariant correct == CorrectCount(predict, testMessages, testLabels, i)
    {
      var probability := predict(testMessages[i]);
      var prediction := if probability >= 50.0 then 1 else 0;
      if i < |testLabels| && testLabels[i] == Some(prediction) {
        correct := correct + 1;
      }
      i := i + 1;
    }
    if total == 0 {
      return None;
    }
    DivInUnit(correct as real, total as real);
    accuracy := Some(Mul(Div(correct as real, total as real), 100.0));
  }

  // The shuffled split.

  /** A message with its label; the label is missing when there are fewer
      labels than messages. */
  type Labelled = (string, Option<int>)

  /** `messages.map((msg, idx) => [msg, labels[idx]])`. */
  function Zip(messages: seq<string>, labels: seq<int>): (r: seq<Labelled>)
    ensures |r| == |messages|
    ensures forall i :: 0 <= i < |r| ==> r[i].0 == messages[i]
    ensures forall i :: 0 <= i < |r| ==> r[i].1 == if i < |labels| then Some(labels[i]) else None
  {
    seq(|messages|, i requires 0 <= i < |messages| => (messages[i], if i < |labels| then Some(labels[i]) else None))
  }

  /** The random indices of the swap loop: step `i` swaps with `picks[i]`,
      which lies in `[0, i]` as `Math.floor(Math.random() * (i + 1))` does. */
  predicate ValidPicks(picks: seq<nat>, n: nat) {
    |picks| == n && forall i :: 0 < i < n ==> picks[i] <= i
  }

  /** `[a[i], a[j]] = [a[j], a[i]]` (`SwapSpec` states it). */
  function Swap(s: seq<Labelled>, i: nat, j: nat): (r: seq<Labelled>)
    requires i < |s| && j < |s|
    ensures |r| == |s|
  {
    s[i := s[j]][j := s[i]]
  }

  /** The two places trade their pairs and every other place keeps its own. */
  lemma {:induction false} SwapSpec(s: seq<Labelled>, i: nat, j: nat)
    requires i < |s| && j < |s|
    ensures Swap(s, i, j)[i] == s[j] && Swap(s, i, j)[j] == s[i]
    ensures forall k :: 0 <= k < |s| && k != i && k != j ==> Swap(s, i, j)[k] == s[k]
  {
  }

  lemma {:induction false} SwapPermutes(s: seq<Labelled>, i: nat, j: nat)
    requires i < |s| && j < |s|
    ensures multiset(Swap(s, i, j)) == multiset(s)
  {
  }

  /** The swap loop from step `i` down to step 1. */
  function Shuffle(s: seq<Labelled>, picks: seq<nat>, i: int): seq<Labelled>
    requires ValidPicks(picks, |s|) && i < |s|
    decreases i
  {
    if i <= 0 then s else Shuffle(Swap(s, i, picks[i]), picks, i - 1)
  }

  /** The shuffle only moves pairs around. */
  lemma {:induction false} ShufflePermutes(s: seq<Labelled>, picks: seq<nat>, i: int)
    requires ValidPicks(picks, |s|) && i < |s|
    ensures |Shuffle(s, picks, i)| == |s|
    ensures multiset(Shuffle(s, picks, i)) == multiset(s)
    decreases i
  {
    if i > 0 {
      SwapPermutes(s, i, picks[i]);
      ShufflePermutes(Swap(s, i, picks[i]), picks, i - 1);
    }
  }

  /** The Fisher–Yates loop of `trainTestSplit`, in place. */
  method FisherYates(combined: array<Labelled>, picks: seq<nat>)
    requires ValidPicks(picks, combined.Length)
    modifies combined
    ensures combined[..] == Shuffle(old(combined[..]), picks, combined.Length - 1)
    ensures multiset(combined[..]) == multiset(old(combined[..]))
  {
    var i := combined.Length - 1;
    while i > 0
      invariant -1 <= i < combined.Length
      invariant Shuffle(combined[..], picks, i) == Shuffle(old(combined[..]), picks, combined.Length - 1)
      invariant multiset(combined[..]) == multiset(old(combined[..]))
    {
      var j := picks[i];
      ghost var before := combined[..];
      combined[i], combined[j] := combined[j], combined[i];
      assert combined[..] == Swap(before, i, j);
      SwapPermutes(before, i, j);
      i := i - 1;
    }
  }

  /** `slice`'s reading of an index: negative counts from the end; the result
      is clamped to `[0, n]`. */
  function SliceIndex(k: int, n: nat): (r: nat)
    ensures r <= n
    ensures 0 <= k <= n ==> r == k
  {
    if k < 0 then (if n + k < 0 then 0 else n + k) else if k > n then n else k
  }

  /** A test share in [0, 1] cuts inside the list. */
  lemma {:induction false} CutInRange(n: nat, testSize: real)
    ensures 0.0 <= testSize <= 1.0 ==> 0 <= ((n as real) * (1.0 - testSize)).Floor <= n
  {
    if 0.0 <= testSize <= 1.0 {
      assert 0.0 <= (n as real) * (1.0 - testSize) <= n as real;
    }
  }

  /** Where the shuffled pairs are cut: `Math.floor(n * (1 - testSize))`, as
      `slice` reads it. */
  function SplitIndex(n: nat, testSize: real): (r: nat)
    ensures r <= n
    ensures 0.0 <= testSize <= 1.0 ==> r == ((n as real) * (1.0 - testSize)).Floor
  {
    CutInRange(n, testSize);
    SliceIndex(((n as real) * (1.0 - testSize)).Floor, n)
  }

  /** The four lists `trainTestSplit` returns. */
  datatype TrainTest = TrainTest(
    trainMessages: seq<string>, trainLabels: seq<Option<int>>,
    testMessages: seq<string>, testLabels: seq<Option<int>>)

  /** The pairs of two lists of the same length. */
  function Pairs(messages: seq<string>, labels: seq<Option<int>>): (r: seq<Labelled>)
    requires |messages| == |labels|
    ensures |r| == |messages|
  {
    seq(|messages|, i requires 0 <= i < |messages| => (messages[i], labels[i]))
  }

  function Firsts(s: seq<Labelled>): (r: seq<string>)
    ensures |r| == |s|
  {
    seq(|s|, i requires 0 <= i < |s| => s[i].0)
  }

  function Seconds(s: seq<Labelled>): (r: seq<Option<int>>)
    ensures |r| == |s|
  {
    seq(|s|, i requires 0 <= i < |s| => s[i].1)
  }

  /** Taking a list of pairs apart and zipping it again gives it back. */
  lemma {:induction false} PairsOfParts(s: seq<Labelled>)
    ensures Pairs(Firsts(s), Seconds(s)) == s
  {
  }

  /** `slice(0, splitIdx)` and `slice(splitIdx)` of the shuffled pairs, each
      taken apart into messages and labels: the train pairs followed by the
      test pairs give the shuffled pairs back. */
  function CutAt(shuffled: seq<Labelled>, splitIdx: nat): (r: TrainTest)
    requires splitIdx <= |shuffled|
    ensures |r.trainMessages| == |r.trainLabels| == splitIdx
    ensures |r.testMessages| == |r.testLabels|
    ensures Pairs(r.trainMessages, r.trainLabels) + Pairs(r.testMessages, r.testLabels) == shuffled
  {
    var trainData := shuffled[..splitIdx];
    var testData := shuffled[splitIdx..];
    PairsOfParts(trainData);
    PairsOfParts(testData);
    assert trainData + testData == shuffled;
    TrainTest(Firsts(trainData), Seconds(trainData), Firsts(testData), Seconds(testData))
  }

  /** The zipped pairs copied into a fresh array and shuffled there. */
  method ShuffleZipped(messages: seq<string>, labels: seq<int>, picks: seq<nat>)
    returns (shuffled: seq<Labelled>)
    requires ValidPicks(picks, |messages|)
    ensures |shuffled| == |messages|
    ensures shuffled == Shuffle(Zip(messages, labels), picks, |messages| - 1)
  {
    var zipped := Zip(messages, labels);
    var combined := new Labelled[|zipped|](i requires 0 <= i < |zipped| => zipped[i]);
    assert combined[..] == zipped;
    FisherYates(combined, picks);
    shuffled := combined[..];
  }

  /** `trainTestSplit`: the pairs shuffled in place, cut at the split index,
      and taken apart. Train pairs followed by test pairs are the shuffled
      array, the train part has the split index's length, and every message
      keeps its own label: the pairs are a permutation of the zipped input. */
  method TrainTestSplit(messages: seq<string>, labels: seq<int>, testSize: real, picks: seq<nat>)
    returns (r: TrainTest)
    requires ValidPicks(picks, |messages|)
    ensures |r.trainMessages| == |r.trainLabels| && |r.testMessages| == |r.testLabels|
    ensures Pairs(r.trainMessages, r.trainLabels) + Pairs(r.testMessages, r.testLabels)
            == Shuffle(Zip(messages, labels), picks, |messages| - 1)
    ensures |r.trainMessages| == SplitIndex(|messages|, testSize)
    ensures multiset(Pairs(r.trainMessages, r.trainLabels) + Pairs(r.testMessages, r.testLabels))
            == multiset(Zip(messages, labels))
  {
    var shuffled := ShuffleZipped(messages, labels, picks);
    var splitIdx := SplitIndex(|shuffled|, testSize);
    r := CutAt(shuffled, splitIdx);
    ShufflePermutes(Zip(messages, labels), picks, |messages| - 1);
  }

  /** `trainTestSplit`'s default share of test messages. */
  const DefaultTestSize: real := 0.2

  /** `trainTestSplit(messages, labels)` without a test size: four fifths of
      the messages, rounded down, go to training, and the pairs are a
      permutation of the zipped input. */
  method TrainTestSplitByDefault(messages: seq<string>, labels: seq<int>, picks: seq<nat>)
    returns (r: TrainTest)
    requires ValidPicks(picks, |messages|)
    ensures |r.trainMessages| == ((|messages| as real) * 0.8).Floor
    ensures |r.trainMessages| + |r.testMessages| == |messages|
    ensures |r.trainMessages| == |r.trainLabels| && |r.testMessages| == |r.testLabels|
    ensures multiset(Pairs(r.trainMessages, r.trainLabels) + Pairs(r.testMessages, r.testLabels))
            == multiset(Zip(messages, labels))
  {
    r := TrainTestSplit(messages, labels, DefaultTestSize, picks);
    assert |Pairs(r.trainMessages, r.trainLabels) + Pairs(r.testMessages, r.testLabels)|
           == |Shuffle(Zip(messages, labels), picks, |messages| - 1)|;
    ShufflePermutes(Zip(messages, labels), picks, |messages| - 1);
  }
}
