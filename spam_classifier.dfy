/** `SpamClassifier`: multinomial naive Bayes over the tokens of
    `Tokenizer.Preprocess`, with add-one smoothing. Training accumulates into
    per-class word tables; scoring reads them. */
module SpamFilter {
  import opened Seqs
  import opened Tokenizer
  import opened WordTable
  import opened StableSort
  import opened Reals
  import opened Scoring

  /** What `predictSpamProbability` yields. */
  datatype Prediction =
    | Untrained                   // the source throws: the classifier was never trained
    | Probability(percent: real)  // a spam probability in percent
    | Undefined                   // the source's arithmetic yields NaN

  /** What `getStats` returns. */
  datatype Stats = Stats(totalSpam: nat, totalHam: nat, vocabSize: nat,
                         topSpamWords: seq<Entry>, topHamWords: seq<Entry>)

  /** How many entries `getStats` lists per class. */
  const TopCount: nat := 10

  // Training, stated as functions of the messages.

  /** The table after adding the tokens of every message, first to last. */
  function AddMessages(wc: WordCounts, msgs: seq<string>): WordCounts {
    if msgs == [] then wc
    else AddTokens(AddMessages(wc, msgs[..|msgs| - 1]), Preprocess(msgs[|msgs| - 1]))
  }

  /** The number of tokens in all messages. */
  function TokenCount(msgs: seq<string>): nat {
    if msgs == [] then 0 else TokenCount(msgs[..|msgs| - 1]) + |Preprocess(msgs[|msgs| - 1])|
  }

  /** How often `w` occurs among the tokens of all messages. */
  function Occurrences(msgs: seq<string>, w: string): nat {
    if msgs == [] then 0
    else Occurrences(msgs[..|msgs| - 1], w) + CountOf(Preprocess(msgs[|msgs| - 1]), w)
  }

  /** Every token of every message. */
  function MessageWords(msgs: seq<string>): set<string> {
    if msgs == [] then {} else MessageWords(msgs[..|msgs| - 1]) + Elems(Preprocess(msgs[|msgs| - 1]))
  }

  /** One more message adds its tokens to the table, its token count to the
      total and its words to the word set. */
  lemma {:induction false} MessagesStep(wc: WordCounts, msgs: seq<string>, i: nat)
    requires i < |msgs|
    ensures AddMessages(wc, msgs[..i + 1]) == AddTokens(AddMessages(wc, msgs[..i]), Preprocess(msgs[i]))
    ensures TokenCount(msgs[..i + 1]) == TokenCount(msgs[..i]) + |Preprocess(msgs[i])|
    ensures MessageWords(msgs[..i + 1]) == MessageWords(msgs[..i]) + Elems(Preprocess(msgs[i]))
  {
    assert msgs[..i + 1][..i] == msgs[..i];
  }

  /** Training on messages keeps a table valid and grows its total by their token count. */
  lemma {:induction false} AddMessagesTotal(wc: WordCounts, msgs: seq<string>)
    requires wc.Valid()
    ensures AddMessages(wc, msgs).Valid()
    ensures AddMessages(wc, msgs).Total() == wc.Total() + TokenCount(msgs)
  {
    if msgs != [] {
      var init := msgs[..|msgs| - 1];
      AddMessagesTotal(wc, init);
      AddTokensTotal(AddMessages(wc, init), Preprocess(msgs[|msgs| - 1]));
    }
  }

  /** Each word's count grows by exactly its number of occurrences in the messages. */
  lemma {:induction false} AddMessagesGet(wc: WordCounts, msgs: seq<string>, w: string)
    ensures AddMessages(wc, msgs).Get(w) == wc.Get(w) + Occurrences(msgs, w)
  {
    if msgs != [] {
      var init := msgs[..|msgs| - 1];
      AddMessagesGet(wc, init, w);
      AddTokensGet(AddMessages(wc, init), Preprocess(msgs[|msgs| - 1]), w);
    }
  }

  /** The keys grow by exactly the words of the messages. */
  lemma {:induction false} AddMessagesKeys(wc: WordCounts, msgs: seq<string>)
    ensures AddMessages(wc, msgs).Keys() == wc.Keys() + MessageWords(msgs)
  {
    if msgs != [] {
      var init := msgs[..|msgs| - 1];
      AddMessagesKeys(wc, init);
      AddTokensKeys(AddMessages(wc, init), Preprocess(msgs[|msgs| - 1]));
    }
  }

  /** Training accumulates: training on `a` and then on `b` leaves the same
      table as training once on `a + b`. */
  lemma {:induction false} AddMessagesAccumulate(wc: WordCounts, a: seq<string>, b: seq<string>)
    ensures AddMessages(AddMessages(wc, a), b) == AddMessages(wc, a + b)
  {
    if b == [] {
      assert a + b == a;
    } else {
      var b' := b[..|b| - 1];
      AddMessagesAccumulate(wc, a, b');
      assert (a + b)[..|a + b| - 1] == a + b';
      assert (a + b)[|a + b| - 1] == b[|b| - 1];
    }
  }

  /** The top of a table as `getStats` lists it: entries sorted by descending
      count, ties in insertion order, cut to ten. */
  function TopWords(wc: WordCounts): (top: seq<Entry>)
    requires wc.Valid()
    ensures |top| == if |wc.order| < TopCount then |wc.order| else TopCount
    ensures forall i :: 0 <= i < |top| ==> top[i].0 in wc.count && top[i].1 == wc.count[top[i].0]
    ensures SortedDesc(top)
  {
    var entries := wc.Entries();
    var sorted := SortDesc(entries);
    var n := if |sorted| < TopCount then |sorted| else TopCount;
    SortDescSpec(entries);
    SortedPrefix(sorted, n);
    TopEntriesReal(wc, sorted, sorted[..n]);
    sorted[..n]
  }

  /** Nothing is left out of the top that counts more than the last listed
      entry, and among entries of one count the top keeps insertion order. */
  lemma {:induction false} TopWordsComplete(wc: WordCounts)
    requires wc.Valid()
    ensures forall w :: w in wc.count && (forall i :: 0 <= i < |TopWords(wc)| ==> TopWords(wc)[i].0 != w)
              ==> TopWords(wc) != [] && wc.count[w] <= TopWords(wc)[|TopWords(wc)| - 1].1
    ensures forall k :: WithCount(TopWords(wc), k) <= WithCount(wc.Entries(), k)
  {
    var entries := wc.Entries();
    var sorted := SortDesc(entries);
    var n := if |sorted| < TopCount then |sorted| else TopCount;
    var top := TopWords(wc);
    assert top == sorted[..n];
    assert forall w :: w in wc.count && (forall i :: 0 <= i < |top| ==> top[i].0 != w)
             ==> top != [] && wc.count[w] <= top[|top| - 1].1 by {
      SortDescSpec(entries);
      TopOmitsSmaller(wc, sorted, top);
    }
    assert forall k :: WithCount(top, k) <= WithCount(entries, k) by {
      TopKeepsOrder(entries, n);
    }
  }

  /** Every listed entry is a word of the table with its count. */
  lemma {:induction false} TopEntriesReal(wc: WordCounts, sorted: seq<Entry>, top: seq<Entry>)
    requires wc.Valid()
    requires multiset(sorted) == multiset(wc.Entries())
    requires top <= sorted
    ensures forall i :: 0 <= i < |top| ==> top[i].0 in wc.count && top[i].1 == wc.count[top[i].0]
  {
    var entries := wc.Entries();
    ElemsMember(wc.order);
    forall i | 0 <= i < |top| ensures top[i].0 in wc.count && top[i].1 == wc.count[top[i].0] {
      assert top[i] == sorted[i];
      assert sorted[i] in multiset(entries);
      var j :| 0 <= j < |entries| && entries[j] == sorted[i];
      assert entries[j] == (wc.order[j], wc.Get(wc.order[j]));
      assert wc.order[j] in wc.count;
    }
  }

  /** A word left out of the listed prefix counts no more than the last listed one. */
  lemma {:induction false} TopOmitsSmaller(wc: WordCounts, sorted: seq<Entry>, top: seq<Entry>)
    requires wc.Valid()
    requires SortedDesc(sorted) && multiset(sorted) == multiset(wc.Entries())
    requires top <= sorted
    requires |sorted| > 0 ==> |top| > 0
    ensures forall w :: w in wc.count && (forall i :: 0 <= i < |top| ==> top[i].0 != w)
              ==> top != [] && wc.count[w] <= top[|top| - 1].1
  {
    var entries := wc.Entries();
    ElemsMember(wc.order);
    forall w | w in wc.count && (forall i :: 0 <= i < |top| ==> top[i].0 != w)
      ensures top != [] && wc.count[w] <= top[|top| - 1].1
    {
      assert w in wc.order;
      var j :| 0 <= j < |wc.order| && wc.order[j] == w;
      assert entries[j] == (w, wc.count[w]);
      assert entries[j] in multiset(sorted);
      var p :| 0 <= p < |sorted| && sorted[p] == entries[j];
      assert p >= |top|;
      assert top[|top| - 1] == sorted[|top| - 1];
    }
  }

  /** Cutting the sorted entries keeps, per count, a prefix of the original order. */
  lemma {:induction false} TopKeepsOrder(entries: seq<Entry>, n: nat)
    requires n <= |entries|
    ensures forall k :: WithCount(SortDesc(entries)[..n], k) <= WithCount(entries, k)
  {
    var sorted := SortDesc(entries);
    forall k ensures WithCount(sorted[..n], k) <= WithCount(entries, k) {
      assert sorted == sorted[..n] + sorted[n..];
      WithCountAppend(sorted[..n], sorted[n..], k);
      SortDescStable(entries, k);
    }
  }

  /** Growing each class's keys grows their union by the same words. */
  lemma {:induction false} UnionRegroup(a: set<string>, b: set<string>, s: set<string>, h: set<string>)
    ensures a + b + s + h == (a + s) + (b + h)
  {
  }

  function Clamp01(p: real): real {
    if p < 0.0 then 0.0 else if p > 1.0 then 1.0 else p
  }

  class SpamClassifier {
    var spamWords: WordCounts
    var hamWords: WordCounts
    var totalSpam: nat
    var totalHam: nat
    var spamWordCount: nat
    var hamWordCount: nat
    var vocab: set<string>
    var isTrained: bool

    /** The word counters cache the table totals, the vocabulary is the union
        of both tables' keys, and an untrained classifier is empty. */
    ghost predicate Valid()
      reads this
    {
      && spamWords.Valid() && hamWords.Valid()
      && spamWordCount == spamWords.Total()
      && hamWordCount == hamWords.Total()
      && vocab == spamWords.Keys() + hamWords.Keys()
      && (!isTrained ==> totalSpam == 0 && totalHam == 0 && spamWords == Empty && hamWords == Empty)
    }

    constructor ()
      ensures Valid() && !isTrained
      ensures spamWords == Empty && hamWords == Empty && vocab == {}
      ensures totalSpam == 0 && totalHam == 0 && spamWordCount == 0 && hamWordCount == 0
    {
      spamWords := Empty;
      hamWords := Empty;
      totalSpam := 0;
      totalHam := 0;
      spamWordCount := 0;
      hamWordCount := 0;
      vocab := {};
      isTrained := false;
    }

    /** The inner loop of `train`: each token of one message bumps its count
        in the class's table and the class's word counter, and joins the
        vocabulary; nothing else changes. */
    method Learn(words: seq<string>, isSpam: bool)
      modifies this
      ensures spamWords == if isSpam then AddTokens(old(spamWords), words) else old(spamWords)
      ensures hamWords == if isSpam then old(hamWords) else AddTokens(old(hamWords), words)
      ensures spamWordCount == old(spamWordCount) + (if isSpam then |words| else 0)
      ensures hamWordCount == old(hamWordCount) + (if isSpam then 0 else |words|)
      ensures vocab == old(vocab) + Elems(words)
      ensures totalSpam == old(totalSpam) && totalHam == old(totalHam) && isTrained == old(isTrained)
    {
      var table := if isSpam then spamWords else hamWords;
      var count := if isSpam then spamWordCount else hamWordCount;
      var seen := vocab;
      var j := 0;
      while j < |words|
        invariant 0 <= j <= |words|
        invariant table == AddTokens(if isSpam then old(spamWords) else old(hamWords), words[..j])
        invariant count == (if isSpam then old(spamWordCount) else old(hamWordCount)) + j
        invariant seen == old(vocab) + Elems(words[..j])
      {
        var word := words[j];
        table := table.Add(word);
        count := count + 1;
        seen := seen + {word};
        assert words[..j + 1][..j] == words[..j];
        j := j + 1;
      }
      assert words[..j] == words;
      if isSpam {
        spamWords, spamWordCount := table, count;
      } else {
        hamWords, hamWordCount := table, count;
      }
      vocab := seen;
    }

    /** The first outer loop of `train`: counts each spam message and learns
        its tokens, first to last. */
    method LearnSpam(messages: seq<string>)
      modifies this
      ensures spamWords == AddMessages(old(spamWords), messages)
      ensures spamWordCount == old(spamWordCount) + TokenCount(messages)
      ensures totalSpam == old(totalSpam) + |messages|
      ensures vocab == old(vocab) + MessageWords(messages)
      ensures hamWords == old(hamWords) && hamWordCount == old(hamWordCount)
      ensures totalHam == old(totalHam) && isTrained == old(isTrained)
    {
      var i := 0;
      while i < |messages|
        invariant 0 <= i <= |messages|
        invariant spamWords == AddMessages(old(spamWords), messages[..i])
        invariant spamWordCount == old(spamWordCount) + TokenCount(messages[..i])
        invariant totalSpam == old(totalSpam) + i
        invariant vocab == old(vocab) + MessageWords(messages[..i])
        invariant hamWords == old(hamWords) && hamWordCount == old(hamWordCount)
        invariant totalHam == old(totalHam) && isTrained == old(isTrained)
      {
        totalSpam := totalSpam + 1;
        Learn(Preprocess(messages[i]), true);
        MessagesStep(old(spamWords), messages, i);
        i := i + 1;
      }
      assert messages[..i] == messages;
    }

    /** The second outer loop of `train`, for the ham messages. */
    method LearnHam(messages: seq<string>)
      modifies this
      ensures hamWords == AddMessages(old(hamWords), messages)
      ensures hamWordCount == old(hamWordCount) + TokenCount(messages)
      ensures totalHam == old(totalHam) + |messages|
      ensures vocab == old(vocab) + MessageWords(messages)
      ensures spamWords == old(spamWords) && spamWordCount == old(spamWordCount)
      ensures totalSpam == old(totalSpam) && isTrained == old(isTrained)
    {
      var i := 0;
      while i < |messages|
        invariant 0 <= i <= |messages|
        invariant hamWords == AddMessages(old(hamWords), messages[..i])
        invariant hamWordCount == old(hamWordCount) + TokenCount(messages[..i])
        invariant totalHam == old(totalHam) + i
        invariant vocab == old(vocab) + MessageWords(messages[..i])
        invariant spamWords == old(spamWords) && spamWordCount == old(spamWordCount)
        invariant totalSpam == old(totalSpam) && isTrained == old(isTrained)
      {
        totalHam := totalHam + 1;
        Learn(Preprocess(messages[i]), false);
        MessagesStep(old(hamWords), messages, i);
        i := i + 1;
      }
      assert messages[..i] == messages;
    }

    /** `train`: adds every message's tokens to its class's table, counts the
        messages (including those without tokens), and never resets what an
        earlier call learned. */
    method Train(spamMessages: seq<string>, hamMessages: seq<string>)
      requires Valid()
      modifies this
      ensures Valid() && isTrained
      ensures spamWords == AddMessages(old(spamWords), spamMessages)
      ensures hamWords == AddMessages(old(hamWords), hamMessages)
      ensures totalSpam == old(totalSpam) + |spamMessages|
      ensures totalHam == old(totalHam) + |hamMessages|
      ensures spamWordCount == old(spamWordCount) + TokenCount(spamMessages)
      ensures hamWordCount == old(hamWordCount) + TokenCount(hamMessages)
      ensures vocab == old(vocab) + MessageWords(spamMessages) + MessageWords(hamMessages)
    {
      LearnSpam(spamMessages);
      LearnHam(hamMessages);
      isTrained := true;
      AddMessagesTotal(old(spamWords), spamMessages);
      AddMessagesTotal(old(hamWords), hamMessages);
      AddMessagesKeys(old(spamWords), spamMessages);
      AddMessagesKeys(old(hamWords), hamMessages);
      UnionRegroup(old(spamWords).Keys(), old(hamWords).Keys(), MessageWords(spamMessages), MessageWords(hamMessages));
    }

    /** The word table of a class. */
    function Table(isSpam: bool): WordCounts
      reads this
    {
      if isSpam then spamWords else hamWords
    }

    /** The word counter of a class. */
    function WordTotal(isSpam: bool): nat
      reads this
    {
      if isSpam then spamWordCount else hamWordCount
    }

    /** The smoothing denominator of a class: its word counter plus the
        vocabulary size. */
    function Denominator(isSpam: bool): nat
      reads this
    {
      WordTotal(isSpam) + |vocab|
    }

    /** No word's count exceeds its class's word counter. */
    ghost predicate Bounded()
      reads this
    {
      forall w :: spamWords.Get(w) <= spamWordCount && hamWords.Get(w) <= hamWordCount
    }

    /** The class invariant bounds every count. */
    lemma {:induction false} ValidBounded()
      requires Valid()
      ensures Bounded()
    {
      forall w ensures spamWords.Get(w) <= spamWordCount && hamWords.Get(w) <= hamWordCount {
        GetAtMostTotal(spamWords, w);
        GetAtMostTotal(hamWords, w);
      }
    }

    /** What scoring needs: bounded counts and a vocabulary that is not empty. */
    ghost predicate CanScore()
      reads this
    {
      Bounded() && vocab != {}
    }

    /** Then every count, plus one, fits in its class's denominator. */
    lemma {:induction false} ScoresBelow(isSpam: bool)
      requires CanScore()
      ensures Below(Table(isSpam).count, Denominator(isSpam))
    {
      forall w ensures Lookup(Table(isSpam).count, w) < Denominator(isSpam) {
        assert Table(isSpam).Get(w) <= WordTotal(isSpam);
      }
    }

    /** `wordProbability`: the add-one smoothed likelihood of `word` in a class,
        strictly positive and at most one for every word, seen or not. */
    function WordProbability(word: string, isSpam: bool): (p: real)
      reads this
      requires CanScore()
      ensures 0.0 < p <= 1.0
      ensures Mul(p, Denominator(isSpam) as real) == (Table(isSpam).Get(word) + 1) as real
    {
      ScoresBelow(isSpam);
      SmoothedValue(Table(isSpam).Get(word), Denominator(isSpam));
      Smoothed(Table(isSpam).Get(word), Denominator(isSpam))
    }

    /** The likelihoods of the listed words in a class, added up. */
    function ProbabilitySum(ws: seq<string>, isSpam: bool): real
      reads this
      requires CanScore()
    {
      ScoresBelow(isSpam);
      SmoothedSum(Table(isSpam).count, Denominator(isSpam), ws)
    }

    /** Over the whole vocabulary, listed once per word in any order, a class's
        word likelihoods add up to one. */
    lemma {:induction false} ProbabilitiesSumToOne(vs: seq<string>, isSpam: bool)
      requires Valid() && vocab != {}
      requires Distinct(vs) && Elems(vs) == vocab
      ensures CanScore() && ProbabilitySum(vs, isSpam) == 1.0
    {
      ValidBounded();
      SmoothedSumToOne(Table(isSpam), vocab, vs);
    }

    /** The class prior `totalX / (totalSpam + totalHam)`. */
    function Prior(isSpam: bool): (p: real)
      reads this
      requires totalSpam + totalHam > 0
      ensures 0.0 <= p <= 1.0
      ensures p == 0.0 <==> (if isSpam then totalSpam else totalHam) == 0
    {
      DivInUnit((if isSpam then totalSpam else totalHam) as real, (totalSpam + totalHam) as real);
      Div((if isSpam then totalSpam else totalHam) as real, (totalSpam + totalHam) as real)
    }

    /** `PX = prior_X · Π likelihood(w|X)`, the unnormalised posterior of a
        class, accumulated one token at a time as the source's loop does: it
        never exceeds the prior, and it is 0 exactly when the prior is. */
    function Evidence(words: seq<string>, isSpam: bool): (e: real)
      reads this
      requires CanScore() && totalSpam + totalHam > 0
      ensures 0.0 <= e <= Prior(isSpam)
      ensures e == 0.0 <==> (if isSpam then totalSpam else totalHam) == 0
    {
      ScoresBelow(isSpam);
      Posterior(Prior(isSpam), Table(isSpam).count, Denominator(isSpam), words)
    }

    /** Each token multiplies the evidence by its likelihood. */
    lemma {:induction false} EvidenceStep(words: seq<string>, i: nat, isSpam: bool)
      requires CanScore() && totalSpam + totalHam > 0 && i < |words|
      ensures Evidence(words[..i + 1], isSpam) == Mul(Evidence(words[..i], isSpam), WordProbability(words[i], isSpam))
    {
      ScoresBelow(isSpam);
      PosteriorStep(Prior(isSpam), Table(isSpam).count, Denominator(isSpam), words, i);
    }

    /** `PS / (PS + PH)`. */
    function SpamShare(words: seq<string>): (p: real)
      reads this
      requires CanScore() && totalSpam + totalHam > 0
      ensures 0.0 <= p <= 1.0
    {
      ShareFacts(Evidence(words, true), Evidence(words, false));
      Div(Evidence(words, true), Evidence(words, true) + Evidence(words, false))
    }

    /** The value `predictSpamProbability(message)` computes, read with exact
        arithmetic. */
    function Predict(message: string): (r: Prediction)
      reads this
      requires Bounded()
      ensures r == Untrained <==> !isTrained
      ensures isTrained && Preprocess(message) == [] ==> r == Probability(50.0)
      ensures r == Undefined <==>
                isTrained && Preprocess(message) != [] && (totalSpam + totalHam == 0 || vocab == {})
      ensures r.Probability? ==> 0.0 <= r.percent <= 100.0
    {
      if !isTrained then Untrained
      else if Preprocess(message) == [] then Probability(50.0)
      else if totalSpam + totalHam == 0 || vocab == {} then Undefined
      else Probability(Clamp01(SpamShare(Preprocess(message))) * 100.0)
    }

    /** `predictSpamProbability`: the source sums logarithms of the prior and of
        each likelihood; here the loop multiplies the same factors, so that
        `spamScore` is `exp(logPSpam)`. */
    method PredictSpamProbability(message: string) returns (r: Prediction)
      requires Bounded()
      ensures r == Predict(message)
    {
      if !isTrained {
        return Untrained;
      }
      var words := Preprocess(message);
      if |words| == 0 {
        return Probability(50.0);
      }
      if totalSpam + totalHam == 0 || vocab == {} {
        return Undefined;
      }
      var spamScore := Prior(true);
      var hamScore := Prior(false);
      var i := 0;
      assert words[..0] == [];
      while i < |words|
        invariant 0 <= i <= |words|
        invariant spamScore == Evidence(words[..i], true)
        invariant hamScore == Evidence(words[..i], false)
      {
        EvidenceStep(words, i, true);
        EvidenceStep(words, i, false);
        spamScore := Mul(spamScore, WordProbability(words[i], true));
        hamScore := Mul(hamScore, WordProbability(words[i], false));
        i := i + 1;
      }
      assert words[..i] == words;
      ShareFacts(spamScore, hamScore);
      var p := Div(spamScore, spamScore + hamScore);
      p := Clamp01(p);
      return Probability(p * 100.0);
    }

    /** A message is scored above 50 exactly when its spam evidence exceeds its
        ham evidence, and exactly 50 when the two are equal. */
    lemma {:induction false} SpamIffMoreLikely(message: string)
      requires isTrained && CanScore() && totalSpam + totalHam > 0
      requires Preprocess(message) != []
      ensures var words := Preprocess(message);
              && (Predict(message).percent > 50.0 <==> Evidence(words, true) > Evidence(words, false))
              && (Predict(message).percent == 50.0 <==> Evidence(words, true) == Evidence(words, false))
    {
      var words := Preprocess(message);
      ShareFacts(Evidence(words, true), Evidence(words, false));
    }

    /** When no spam message was trained, every message that has tokens scores
        0, and when no ham message was trained, 100: the prior of the empty
        class is 0. */
    lemma {:induction false} OneSidedTraining(message: string)
      requires isTrained && CanScore() && totalSpam + totalHam > 0
      requires Preprocess(message) != []
      ensures totalSpam == 0 ==> Predict(message) == Probability(0.0)
      ensures totalHam == 0 ==> Predict(message) == Probability(100.0)
    {
      var words := Preprocess(message);
      ShareFacts(Evidence(words, true), Evidence(words, false));
    }

    /** `getStats`: the counts and, per class, at most ten top words. */
    function GetStats(): (st: Stats)
      reads this
      requires Valid()
      ensures st.totalSpam == totalSpam && st.totalHam == totalHam && st.vocabSize == |vocab|
      ensures |st.topSpamWords| <= TopCount && |st.topHamWords| <= TopCount
    {
      Stats(totalSpam, totalHam, |vocab|, TopWords(spamWords), TopWords(hamWords))
    }
  }
}
