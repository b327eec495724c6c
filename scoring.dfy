/** The arithmetic of naive Bayes scoring with add-one smoothing, over plain
    values: a word table's counts and the smoothing denominator
    `wordCount + vocabSize`. */
module Scoring {
  import opened Seqs
  import opened WordTable
  import opened Reals

  /** Every count, plus one, fits in the denominator. */
  ghost predicate Below(m: map<string, nat>, denom: nat) {
    forall w :: Lookup(m, w) < denom
  }

  /** `(count + 1) / denom`: strictly positive, at most one. */
  function Smoothed(count: nat, denom: nat): (p: real)
    requires count < denom
    ensures 0.0 < p <= 1.0
  {
    DivInUnit((count + 1) as real, denom as real);
    Div((count + 1) as real, denom as real)
  }

  lemma {:induction false} SmoothedValue(count: nat, denom: nat)
    requires count < denom
    ensures Mul(Smoothed(count, denom), denom as real) == (count + 1) as real
  {
    DivMul((count + 1) as real, denom as real);
  }

  /** The smoothed likelihoods of the listed words, added up. */
  function SmoothedSum(m: map<string, nat>, denom: nat, ws: seq<string>): real
    requires Below(m, denom)
  {
    if ws == [] then 0.0
    else SmoothedSum(m, denom, ws[..|ws| - 1]) + Smoothed(Lookup(m, ws[|ws| - 1]), denom)
  }

  /** The sum in closed form: the listed counts, plus one per word, over the
      denominator. */
  lemma {:induction false} SmoothedSumClosed(m: map<string, nat>, denom: nat, ws: seq<string>)
    requires Below(m, denom)
    ensures Mul(SmoothedSum(m, denom, ws), denom as real) == (SumCounts(ws, m) + |ws|) as real
  {
    if ws == [] {
      MulZero(denom as real);
    } else {
      var init := ws[..|ws| - 1];
      var k := Lookup(m, ws[|ws| - 1]);
      SmoothedSumClosed(m, denom, init);
      SmoothedValue(k, denom);
      MulDistributes(SmoothedSum(m, denom, init), Smoothed(k, denom), denom as real);
    }
  }

  /** Over a vocabulary that holds every key of a table, listed once per word,
      the smoothed likelihoods add up to one. */
  lemma {:induction false} SmoothedSumToOne(wc: WordCounts, vocab: set<string>, vs: seq<string>)
    requires wc.Valid() && wc.Keys() <= vocab && vocab != {}
    requires Distinct(vs) && Elems(vs) == vocab
    ensures Below(wc.count, wc.Total() + |vocab|)
    ensures SmoothedSum(wc.count, wc.Total() + |vocab|, vs) == 1.0
  {
    forall w ensures Lookup(wc.count, w) < wc.Total() + |vocab| {
      GetAtMostTotal(wc, w);
    }
    SumOverAllWords(wc, vs);
    DistinctCard(vs);
    SmoothedSumClosed(wc.count, wc.Total() + |vocab|, vs);
    ScaleCancel(SmoothedSum(wc.count, wc.Total() + |vocab|, vs), (wc.Total() + |vocab|) as real);
  }

  /** `prior · Π (count(w) + 1) / denom` over the words, multiplied in first to
      last: it never exceeds the prior and is 0 exactly when the prior is. */
  function Posterior(prior: real, m: map<string, nat>, denom: nat, words: seq<string>): (e: real)
    requires 0.0 <= prior <= 1.0 && Below(m, denom)
    ensures 0.0 <= e <= prior
    ensures e == 0.0 <==> prior == 0.0
  {
    if words == [] then prior
    else
      var rest := Posterior(prior, m, denom, words[..|words| - 1]);
      var p := Smoothed(Lookup(m, words[|words| - 1]), denom);
      ScaledStaysBelow(rest, p, prior);
      Mul(rest, p)
  }

  /** One more word multiplies the posterior by its smoothed likelihood. */
  lemma {:induction false} PosteriorStep(prior: real, m: map<string, nat>, denom: nat, words: seq<string>, i: nat)
    requires 0.0 <= prior <= 1.0 && Below(m, denom) && i < |words|
    ensures Posterior(prior, m, denom, words[..i + 1])
            == Mul(Posterior(prior, m, denom, words[..i]), Smoothed(Lookup(m, words[i]), denom))
  {
    assert words[..i + 1][..i] == words[..i];
  }
}
