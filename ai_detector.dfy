/** `AIDetector`: weighted counting of phrase and pattern hits in a message,
    normalised to a percentage of "machine-written" signal. Stateless: the
    pattern tables are constants. */
module AIDetection {
  import opened Seqs
  import opened Text
  import opened Reals

  // The regular expressions of the detector.

  /** One piece of a pattern: a run of literal characters, or `\s*`
      (`Space(0)`) / `\s+` (`Space(1)`). */
  datatype Piece = Lit(chars: string) | Space(min: nat)

  type Pattern = seq<Piece>

  /** The fewest characters a match of `p` can span. */
  function MinLength(p: Pattern): nat {
    if p == [] then 0
    else MinLength(p[..|p| - 1]) + (match p[|p| - 1] case Lit(l) => |l| case Space(m) => m)
  }

  /** The length of the whitespace run that starts at `i`. */
  function WhitespaceRun(s: string, i: nat): (n: nat)
    requires i <= |s|
    ensures i + n <= |s|
    decreases |s| - i
  {
    if i < |s| && IsWhitespace(s[i]) then 1 + WhitespaceRun(s, i + 1) else 0
  }

  /** The run is maximal: all whitespace, and not followed by whitespace. */
  lemma {:induction false} WhitespaceRunSpec(s: string, i: nat)
    requires i <= |s|
    ensures forall k :: i <= k < i + WhitespaceRun(s, i) ==> IsWhitespace(s[k])
    ensures i + WhitespaceRun(s, i) < |s| ==> !IsWhitespace(s[i + WhitespaceRun(s, i)])
    decreases |s| - i
  {
    if i < |s| && IsWhitespace(s[i]) {
      WhitespaceRunSpec(s, i + 1);
    }
  }

  /** The literal `lit` occurs at `i`, ignoring case (the `i` flag). */
  predicate LitAt(s: string, lit: string, i: nat) {
    i + |lit| <= |s| && forall k :: 0 <= k < |lit| ==> ToLower(s[i + k]) == lit[k]
  }

  /** Where a match of `p` that starts at `i` ends, if there is one. A
      whitespace piece takes the whole run, as the greedy `\s*` and `\s+` do;
      no piece of the detector's tables follows one with a literal that
      starts with whitespace, so backtracking into the run never helps. */
  function MatchEnd(p: Pattern, s: string, i: nat): (r: Option<nat>)
    requires i <= |s|
    ensures r.Some? ==> i + MinLength(p) <= r.value <= |s|
    decreases |p|
  {
    if p == [] then Some(i)
    else
      var init := p[..|p| - 1];
      var mid := MatchEnd(init, s, i);
      if mid.None? then None
      else match p[|p| - 1]
        case Lit(l) =>
          if LitAt(s, l, mid.value) then Some(mid.value + |l|) else None
        case Space(m) =>
          var n := WhitespaceRun(s, mid.value);
          if n >= m then Some(mid.value + n) else None
  }

  /** `text.match(/p/gi).length` from position `i`: a match is counted and
      the search goes on after it (one further on after an empty match); where
      nothing matches, it tries the next position. */
  function CountFrom(p: Pattern, s: string, i: nat): nat
    requires i <= |s|
    decreases |s| - i
  {
    var here := MatchEnd(p, s, i);
    if here.Some? && here.value > i then 1 + CountFrom(p, s, here.value)
    else if i == |s| then (if here.Some? then 1 else 0)
    else (if here.Some? then 1 else 0) + CountFrom(p, s, i + 1)
  }

  /** The pattern matches somewhere in `s` at or after position `i`. */
  predicate MatchesFrom(p: Pattern, s: string, i: nat) {
    exists j: nat :: i <= j <= |s| && MatchEnd(p, s, j).Some?
  }

  /** The search from `i` counts a match exactly when one starts at `i` or
      later. */
  lemma {:induction false} CountFromPositive(p: Pattern, s: string, i: nat)
    requires i <= |s|
    ensures CountFrom(p, s, i) > 0 <==> MatchesFrom(p, s, i)
    decreases |s| - i
  {
    if MatchEnd(p, s, i).Some? {
      assert CountFrom(p, s, i) > 0;
      assert i <= i <= |s| && MatchEnd(p, s, i).Some?;
    } else if i < |s| {
      CountFromPositive(p, s, i + 1);
      if MatchesFrom(p, s, i) {
        var j: nat :| i <= j <= |s| && MatchEnd(p, s, j).Some?;
        assert i + 1 <= j;
      }
    }
  }

  /** The number of matches `text.match(/p/gi)` returns (none for `null`):
      positive exactly when the pattern matches somewhere, which is when
      `text.match` is not `null`. */
  function CountMatches(p: Pattern, s: string): (n: nat)
    ensures n > 0 <==> MatchesFrom(p, s, 0)
  {
    CountFromPositive(p, s, 0);
    CountFrom(p, s, 0)
  }

  /** Matches never overlap: every counted match uses up at least
      `MinLength(p)` characters of its own. */
  lemma {:induction false} CountFromBound(p: Pattern, s: string, i: nat)
    requires i <= |s| && MinLength(p) > 0
    ensures CountFrom(p, s, i) * MinLength(p) <= |s| - i
    decreases |s| - i
  {
    var here := MatchEnd(p, s, i);
    var m := MinLength(p);
    if here.Some? && here.value > i {
      CountFromBound(p, s, here.value);
      assert (1 + CountFrom(p, s, here.value)) * m == m + CountFrom(p, s, here.value) * m;
    } else if i < |s| {
      assert here.None?;
      CountFromBound(p, s, i + 1);
    } else {
      assert here.None?;
    }
  }

  /** Case never matters: a pattern finds the same matches in a text and in
      its lower-cased form. */
  lemma {:induction false} WhitespaceRunLower(s: string, i: nat)
    requires i <= |s|
    ensures WhitespaceRun(Lower(s), i) == WhitespaceRun(s, i)
    decreases |s| - i
  {
    if i < |s| {
      assert IsWhitespace(Lower(s)[i]) <==> IsWhitespace(s[i]);
      WhitespaceRunLower(s, i + 1);
    }
  }

  lemma {:induction false} LitAtLower(s: string, l: string, j: nat)
    ensures LitAt(Lower(s), l, j) <==> LitAt(s, l, j)
  {
    if j + |l| <= |s| {
      assert forall m :: j <= m < j + |l| ==> ToLower(Lower(s)[m]) == ToLower(s[m]);
    }
  }

  lemma {:induction false} MatchEndLower(p: Pattern, s: string, i: nat)
    requires i <= |s|
    ensures MatchEnd(p, Lower(s), i) == MatchEnd(p, s, i)
    decreases |p|
  {
    if p != [] {
      var init := p[..|p| - 1];
      MatchEndLower(init, s, i);
      var mid := MatchEnd(init, s, i);
      if mid.Some? {
        var j := mid.value;
        match p[|p| - 1]
        case Lit(l) =>
          LitAtLower(s, l, j);
        case Space(_) =>
          WhitespaceRunLower(s, j);
      }
    }
  }

  lemma {:induction false} CountFromLower(p: Pattern, s: string, i: nat)
    requires i <= |s|
    ensures CountFrom(p, Lower(s), i) == CountFrom(p, s, i)
    decreases |s| - i
  {
    MatchEndLower(p, s, i);
    var here := MatchEnd(p, s, i);
    if here.Some? && here.value > i {
      CountFromLower(p, s, here.value);
    } else if i < |s| {
      CountFromLower(p, s, i + 1);
    }
  }

  /** "haha" is found once in "hahaha", not twice. */
  lemma {:induction false} LaughCountedOnce()
    ensures CountMatches([Lit("haha")], "hahaha") == 1
  {
    var p := [Lit("haha")];
    assert MinLength(p) == 4 by {
      assert p[..0] == [];
    }
    assert MatchEnd(p, "hahaha", 0) == Some(4) by {
      assert p[..0] == [];
      assert LitAt("hahaha", "haha", 0);
    }
    CountFromBound(p, "hahaha", 4);
  }

  // The pattern tables.

  /** Phrases that score once each if present. */
  const FormalPhrases: seq<string> := [
    "as an ai language model", "i am an ai", "as an artificial intelligence",
    "i don't have personal", "i cannot provide", "my knowledge cutoff",
    "based on my training data", "as a language model", "i'm designed to",
    "i don't have feelings"]

  const RepetitivePatterns: seq<Pattern> := [
    [Lit("however"), Space(0), Lit(",")], [Lit("additionally"), Space(0), Lit(",")],
    [Lit("furthermore"), Space(0), Lit(",")], [Lit("in conclusion"), Space(0), Lit(",")],
    [Lit("it is important to note")], [Lit("this suggests that")]]

  const ExcessiveFormality: seq<Pattern> := [
    [Lit("endeavor to")], [Lit("utilize")], [Lit("ascertain")], [Lit("elucidate")],
    [Lit("consequently")], [Lit("thus")], [Lit("hence")]]

  const InformalExpressions: seq<Pattern> := [
    [Lit("lol")], [Lit("omg")], [Lit("btw")], [Lit("imo")], [Lit("tbh")], [Lit("idk")],
    [Lit("afaik")]]

  const Contractions: seq<Pattern> := [
    [Lit("i'm")], [Lit("you're")], [Lit("they're")], [Lit("don't")], [Lit("can't")],
    [Lit("won't")], [Lit("isn't")], [Lit("aren't")]]

  const EmotionalExpressions: seq<Pattern> := [
    [Lit("haha")], [Lit("hehe")], [Lit("wow")], [Lit("awesome")], [Lit("crazy")],
    [Lit("unbelievable")]]

  /** The "X for Y" mistakes of `checkForCommonErrors`. */
  const CommonErrors: seq<Pattern> := [
    [Lit("their"), Space(1), Lit("for"), Space(1), Lit("there")],
    [Lit("your"), Space(1), Lit("for"), Space(1), Lit("you're")],
    [Lit("its"), Space(1), Lit("for"), Space(1), Lit("it's")],
    [Lit("then"), Space(1), Lit("for"), Space(1), Lit("than")]]

  // Scoring, stated as functions of the text.

  /** `preprocess`: `text.toLowerCase().trim()`, a text with no capital
      and with no whitespace at either end. */
  function Preprocess(text: string): (r: string)
    ensures NoUpper(r)
    ensures r == [] || (!IsWhitespace(r[0]) && !IsWhitespace(r[|r| - 1]))
  {
    TrimNoUpper(Lower(text));
    Trim(Lower(text))
  }

  /** The matches of every pattern of a table, added up. */
  function MatchTotal(s: string, patterns: seq<Pattern>): nat {
    if patterns == [] then 0
    else MatchTotal(s, patterns[..|patterns| - 1]) + CountMatches(patterns[|patterns| - 1], s)
  }

  /** `checkForCommonErrors`: one of the mistakes occurs in the raw text. */
  predicate HasCommonErrors(text: string) {
    exists k :: 0 <= k < |CommonErrors| && CountMatches(CommonErrors[k], text) > 0
  }

  predicate IsTerminator(c: char) { c == '.' || c == '!' || c == '?' }

  /** The first terminator at or after `i`, or `|s|`. */
  function NextTerminator(s: string, i: nat): (k: nat)
    requires i <= |s|
    ensures i <= k <= |s|
    ensures k < |s| ==> IsTerminator(s[k])
    decreases |s| - i
  {
    if i == |s| || IsTerminator(s[i]) then i else NextTerminator(s, i + 1)
  }

  /** No terminator comes before the one `NextTerminator` finds. */
  lemma {:induction false} NextTerminatorFirst(s: string, i: nat)
    requires i <= |s|
    ensures forall j :: i <= j < NextTerminator(s, i) ==> !IsTerminator(s[j])
    decreases |s| - i
  {
    if i < |s| && !IsTerminator(s[i]) {
      NextTerminatorFirst(s, i + 1);
    }
  }

  /** The length of the terminator run that starts at `i`. */
  function TerminatorRun(s: string, i: nat): (n: nat)
    requires i <= |s|
    ensures i + n <= |s|
    ensures i + n < |s| ==> !IsTerminator(s[i + n])
    decreases |s| - i
  {
    if i < |s| && IsTerminator(s[i]) then 1 + TerminatorRun(s, i + 1) else 0
  }

  /** The run holds terminators only. */
  lemma {:induction false} TerminatorRunAll(s: string, i: nat)
    requires i <= |s|
    ensures forall k :: i <= k < i + TerminatorRun(s, i) ==> IsTerminator(s[k])
    decreases |s| - i
  {
    if i < |s| && IsTerminator(s[i]) {
      TerminatorRunAll(s, i + 1);
    }
  }

  /** A maximal run of terminators starts at `k`. */
  predicate RunStartsAt(s: string, k: nat)
    requires k < |s|
  {
    IsTerminator(s[k]) && (k == 0 || !IsTerminator(s[k - 1]))
  }

  /** The number of maximal terminator runs that start at `i` or later. */
  function RunsFrom(s: string, i: nat): nat
    requires i <= |s|
    decreases |s| - i
  {
    if i == |s| then 0 else (if RunStartsAt(s, i) then 1 else 0) + RunsFrom(s, i + 1)
  }

  lemma {:induction false} RunsFromNone(s: string, i: nat, j: nat)
    requires i <= j <= |s|
    requires forall k :: i <= k < j ==> !RunStartsAt(s, k)
    ensures RunsFrom(s, i) == RunsFrom(s, j)
    decreases j - i
  {
    if i < j {
      RunsFromNone(s, i + 1, j);
    }
  }

  /** Past the end `e` of a run, `s[e..]` has the same runs as `s` has there. */
  lemma {:induction false} RunsFromShift(s: string, e: nat, j: nat)
    requires 0 < e <= |s| && IsTerminator(s[e - 1])
    requires e < |s| ==> !IsTerminator(s[e])
    requires j <= |s| - e
    ensures RunsFrom(s[e..], j) == RunsFrom(s, e + j)
    decreases |s| - e - j
  {
    if j < |s| - e {
      RunsFromShift(s, e, j + 1);
      assert s[e..][j] == s[e + j];
      if j > 0 {
        assert s[e..][j - 1] == s[e + j - 1];
      }
    }
  }

  /** A text without terminators has no run. */
  lemma {:induction false} RunsOfPlain(s: string)
    requires NextTerminator(s, 0) == |s|
    ensures RunsFrom(s, 0) == 0
  {
    NextTerminatorFirst(s, 0);
    RunsFromNone(s, 0, |s|);
  }

  /** The first run is one run; every other run lies after it. */
  lemma {:induction false} RunsAtFirstCut(s: string)
    requires NextTerminator(s, 0) < |s|
    ensures var k := NextTerminator(s, 0);
            RunsFrom(s, 0) == 1 + RunsFrom(s[k + TerminatorRun(s, k)..], 0)
  {
    var k := NextTerminator(s, 0);
    var e := k + TerminatorRun(s, k);
    NextTerminatorFirst(s, 0);
    TerminatorRunAll(s, k);
    RunsFromNone(s, 0, k);
    assert RunStartsAt(s, k);
    RunsFromNone(s, k + 1, e);
    RunsFromShift(s, e, 0);
  }

  /** `s.split(/[.!?]+/)`: the pieces between maximal terminator runs, with
      an empty piece before a leading run and after a trailing one; so there
      is one piece more than there are runs. */
  function Split(s: string): (r: seq<string>)
    ensures |r| == 1 + RunsFrom(s, 0)
    decreases |s|
  {
    var k := NextTerminator(s, 0);
    if k == |s| then
      RunsOfPlain(s);
      [s]
    else
      RunsAtFirstCut(s);
      [s[..k]] + Split(s[k + TerminatorRun(s, k)..])
  }

  /** The characters of `s` that are not terminators, in order. */
  function DropTerminators(s: string): string {
    if s == [] then []
    else DropTerminators(s[..|s| - 1]) + (if IsTerminator(s[|s| - 1]) then [] else [s[|s| - 1]])
  }

  function Concat(ps: seq<string>): string {
    if ps == [] then [] else ps[0] + Concat(ps[1..])
  }

  lemma {:induction false} DropTerminatorsAppend(a: string, b: string)
    ensures DropTerminators(a + b) == DropTerminators(a) + DropTerminators(b)
    decreases |b|
  {
    if b == [] {
      assert a + b == a;
    } else {
      var b' := b[..|b| - 1];
      assert (a + b)[..|a + b| - 1] == a + b';
      DropTerminatorsAppend(a, b');
    }
  }

  lemma {:induction false} DropTerminatorsNone(s: string)
    requires forall k :: 0 <= k < |s| ==> !IsTerminator(s[k])
    ensures DropTerminators(s) == s
  {
    if s != [] {
      DropTerminatorsNone(s[..|s| - 1]);
    }
  }

  lemma {:induction false} DropTerminatorsAll(s: string)
    requires forall k :: 0 <= k < |s| ==> IsTerminator(s[k])
    ensures DropTerminators(s) == []
  {
    if s != [] {
      DropTerminatorsAll(s[..|s| - 1]);
    }
  }

  lemma {:induction false} ConcatCons(p: string, ps: seq<string>)
    ensures Concat([p] + ps) == p + Concat(ps)
  {
    assert ([p] + ps)[1..] == ps;
  }

  /** Around a run of terminators `s[k..e]` with none before it,
      `DropTerminators` keeps the piece before the run and goes on after it. */
  lemma {:induction false} DropAround(s: string, k: nat, e: nat)
    requires k <= e <= |s|
    requires forall j :: 0 <= j < k ==> !IsTerminator(s[j])
    requires forall j :: k <= j < e ==> IsTerminator(s[j])
    ensures DropTerminators(s) == s[..k] + DropTerminators(s[e..])
  {
    var front, run, back := s[..k], s[k..e], s[e..];
    assert DropTerminators(s) == DropTerminators(front) + DropTerminators(run + back) by {
      ThreeParts(s, k, e);
      DropTerminatorsAppend(front, run + back);
    }
    assert DropTerminators(front) == front by {
      DropTerminatorsNone(front);
    }
    assert DropTerminators(run + back) == DropTerminators(back) by {
      DropTerminatorsAppend(run, back);
      DropTerminatorsAll(run);
    }
  }

  lemma {:induction false} DropAroundRun(s: string)
    requires NextTerminator(s, 0) < |s|
    ensures var k := NextTerminator(s, 0);
            DropTerminators(s) == s[..k] + DropTerminators(s[k + TerminatorRun(s, k)..])
  {
    var k := NextTerminator(s, 0);
    NextTerminatorFirst(s, 0);
    TerminatorRunAll(s, k);
    DropAround(s, k, k + TerminatorRun(s, k));
  }

  /** Splitting loses exactly the terminators: the pieces, joined, are the
      text without them. */
  lemma {:induction false} SplitJoins(s: string)
    ensures Concat(Split(s)) == DropTerminators(s)
    decreases |s|
  {
    var k := NextTerminator(s, 0);
    if k == |s| {
      NextTerminatorFirst(s, 0);
      DropTerminatorsNone(s);
      ConcatCons(s, []);
    } else {
      var rest := s[k + TerminatorRun(s, k)..];
      SplitJoins(rest);
      ConcatCons(s[..k], Split(rest));
      DropAroundRun(s);
    }
  }

  /** No piece of the split holds a terminator. */
  lemma {:induction false} SplitClean(s: string)
    ensures forall j, c :: 0 <= j < |Split(s)| && 0 <= c < |Split(s)[j]| ==> !IsTerminator(Split(s)[j][c])
    decreases |s|
  {
    var k := NextTerminator(s, 0);
    NextTerminatorFirst(s, 0);
    if k < |s| {
      var e := k + TerminatorRun(s, k);
      SplitClean(s[e..]);
      var ps := Split(s);
      assert ps == [s[..k]] + Split(s[e..]);
      forall j, c | 0 <= j < |ps| && 0 <= c < |ps[j]| ensures !IsTerminator(ps[j][c]) {
        if j > 0 {
          assert ps[j] == Split(s[e..])[j - 1];
        }
      }
    }
  }

  /** `.filter(s => s.trim().length > 0)`: a piece is kept exactly when it
      is not blank (order: `NonBlankAppend`). */
  function NonBlank(ps: seq<string>): (r: seq<string>)
    ensures |r| <= |ps|
    ensures forall j :: 0 <= j < |r| ==> Trim(r[j]) != []
    ensures forall p :: p in r <==> p in ps && Trim(p) != []
  {
    if ps == [] then []
    else
      assert ps == ps[..|ps| - 1] + [ps[|ps| - 1]];
      NonBlank(ps[..|ps| - 1]) + (if Trim(ps[|ps| - 1]) != [] then [ps[|ps| - 1]] else [])
  }

  /** Filtering goes piece by piece in order: the filter of a concatenation is
      the concatenation of the filters. */
  lemma {:induction false} NonBlankAppend(a: seq<string>, b: seq<string>)
    ensures NonBlank(a + b) == NonBlank(a) + NonBlank(b)
    decreases |b|
  {
    if b == [] {
      assert a + b == a;
    } else {
      var b' := b[..|b| - 1];
      assert (a + b)[..|a + b| - 1] == a + b';
      NonBlankAppend(a, b');
    }
  }

  /** The sentences the detector compares. */
  function Sentences(s: string): seq<string> {
    NonBlank(Split(s))
  }

  /** `s.split(' ').length`: one more than the number of spaces. */
  function SpaceSplitLength(s: string): (n: nat)
    ensures n == multiset(s)[' '] + 1
  {
    if s == [] then 1
    else
      assert s == s[..|s| - 1] + [s[|s| - 1]];
      SpaceSplitLength(s[..|s| - 1]) + (if s[|s| - 1] == ' ' then 1 else 0)
  }

  function SentenceLengths(ss: seq<string>): (r: seq<nat>)
    ensures |r| == |ss|
    ensures forall j :: 0 <= j < |r| ==> r[j] == SpaceSplitLength(ss[j])
  {
    seq(|ss|, j requires 0 <= j < |ss| => SpaceSplitLength(ss[j]))
  }

  /** `Math.max(...xs)`. */
  function MaxOf(xs: seq<nat>): (m: nat)
    requires xs != []
    ensures m in xs
    ensures forall j :: 0 <= j < |xs| ==> xs[j] <= m
  {
    if |xs| == 1 then xs[0]
    else
      var r := MaxOf(xs[..|xs| - 1]);
      if xs[|xs| - 1] > r then xs[|xs| - 1] else r
  }

  /** `Math.min(...xs)`. */
  function MinOf(xs: seq<nat>): (m: nat)
    requires xs != []
    ensures m in xs
    ensures forall j :: 0 <= j < |xs| ==> m <= xs[j]
  {
    if |xs| == 1 then xs[0]
    else
      var r := MinOf(xs[..|xs| - 1]);
      if xs[|xs| - 1] < r then xs[|xs| - 1] else r
  }

  /** More than three sentences whose `split(' ')` lengths differ by less
      than three. */
  predicate UniformSentences(s: string) {
    var ss := Sentences(s);
    |ss| > 3 && MaxOf(SentenceLengths(ss)) - MinOf(SentenceLengths(ss)) < 3
  }

  /** The machine-written signals of the preprocessed text: formal phrases,
      repetitive connectives, excessive formality, uniform sentences. */
  function MachineSignals(t: string): nat {
    15 * CountPresent(t, FormalPhrases)
    + 5 * MatchTotal(t, RepetitivePatterns)
    + 3 * MatchTotal(t, ExcessiveFormality)
    + (if UniformSentences(t) then 10 else 0)
  }

  /** The human-written signals of the preprocessed text. */
  function HumanSignals(t: string): nat {
    10 * MatchTotal(t, InformalExpressions)
    + 5 * MatchTotal(t, Contractions)
    + 8 * MatchTotal(t, EmotionalExpressions)
  }

  /** The machine-written side of `analyzeText`: its signals, plus 5 for a
      long raw text without any of the common mistakes. `|text|` counts code
      points, where JavaScript counts UTF-16 units. */
  function AIScore(text: string): nat {
    MachineSignals(Preprocess(text)) + (if !HasCommonErrors(text) && |text| > 100 then 5 else 0)
  }

  /** The human-written side of `analyzeText`. */
  function HumanScore(text: string): nat {
    HumanSignals(Preprocess(text))
  }

  /** `Math.min(Math.max(x, 0), 100)`: a percentage, equal to `x` when `x`
      already is one. */
  function ClampPercent(x: real): (r: real)
    ensures 0.0 <= r <= 100.0
    ensures 0.0 <= x <= 100.0 ==> r == x
  {
    if x < 0.0 then 0.0 else if x > 100.0 then 100.0 else x
  }

  /** The normalisation of `analyzeText`: 50 when neither side scored,
      otherwise the machine side's share in percent. It lies in [0, 100], is
      50 exactly when the sides tie, above 50 exactly when the machine side
      leads, 100 when only that side scored and 0 when only the human side
      did. */
  function Share(ai: nat, human: nat): (r: real)
    ensures 0.0 <= r <= 100.0
    ensures r == 50.0 <==> ai == human
    ensures r > 50.0 <==> ai > human
    ensures ai > 0 && human == 0 ==> r == 100.0
    ensures ai == 0 && human > 0 ==> r == 0.0
  {
    if ai + human == 0 then 50.0
    else
      ShareFacts(ai as real, human as real);
      ClampPercent(Mul(Div(ai as real, ai as real + human as real), 100.0))
  }

  /** `analyzeText`'s result: a percentage, 50 exactly when the two sides
      tie and above 50 exactly when the machine-written side leads. */
  function AIProbability(text: string): (r: real)
    ensures 0.0 <= r <= 100.0
    ensures r == 50.0 <==> AIScore(text) == HumanScore(text)
    ensures r > 50.0 <==> AIScore(text) > HumanScore(text)
  {
    Share(AIScore(text), HumanScore(text))
  }

  // The detector's loops.

  /** `w · (a + b) = w · a + w · b`, kept out of the loops' proofs. */
  lemma {:induction false} AddScaled(w: nat, a: nat, b: nat)
    ensures w * (a + b) == w * a + w * b
  {
  }

  /** One of `analyzeText`'s regex loops: `weight` per match of every pattern. */
  method PatternScore(text: string, patterns: seq<Pattern>, weight: nat) returns (score: nat)
    ensures score == weight * MatchTotal(text, patterns)
  {
    score := 0;
    var k := 0;
    while k < |patterns|
      invariant 0 <= k <= |patterns|
      invariant score == weight * MatchTotal(text, patterns[..k])
    {
      assert patterns[..k + 1][..k] == patterns[..k];
      var matches := CountMatches(patterns[k], text);
      AddScaled(weight, MatchTotal(text, patterns[..k]), matches);
      score := score + weight * matches;
      k := k + 1;
    }
    assert patterns[..k] == patterns;
  }

  /** `checkForCommonErrors`: stops at the first mistake that matches. */
  method CheckForCommonErrors(text: string) returns (found: bool)
    ensures found == HasCommonErrors(text)
  {
    var k := 0;
    while k < |CommonErrors|
      invariant 0 <= k <= |CommonErrors|
      invariant forall j :: 0 <= j < k ==> CountMatches(CommonErrors[j], text) == 0
    {
      if CountMatches(CommonErrors[k], text) > 0 {
        return true;
      }
      k := k + 1;
    }
    return false;
  }

  /** The machine-written loops of `analyzeText` and its sentence check. */
  method MachineSide(processed: string) returns (aiScore: nat)
    ensures aiScore == MachineSignals(processed)
  {
    aiScore := PresenceScore(processed, FormalPhrases, 15);
    var s := PatternScore(processed, RepetitivePatterns, 5);
    aiScore := aiScore + s;
    s := PatternScore(processed, ExcessiveFormality, 3);
    aiScore := aiScore + s;
    if UniformSentences(processed) {
      aiScore := aiScore + 10;
    }
  }

  /** The human-written loops of `analyzeText`. */
  method HumanSide(processed: string) returns (humanScore: nat)
    ensures humanScore == HumanSignals(processed)
  {
    humanScore := PatternScore(processed, InformalExpressions, 10);
    var s := PatternScore(processed, Contractions, 5);
    humanScore := humanScore + s;
    s := PatternScore(processed, EmotionalExpressions, 8);
    humanScore := humanScore + s;
  }

  /** The scoring part of `analyzeText`: both sides accumulated as the
      source does, then the grammar bonus on the raw text. */
  method ScoreSides(text: string) returns (aiScore: nat, humanScore: nat)
    ensures aiScore == AIScore(text) && humanScore == HumanScore(text)
  {
    var processed := Preprocess(text);
    aiScore := MachineSide(processed);
    humanScore := HumanSide(processed);
    var hasErrors := CheckForCommonErrors(text);
    if !hasErrors && |text| > 100 {
      aiScore := aiScore + 5;
    }
  }

  /** `analyzeText`: the scores, then the normalisation. */
  method AnalyzeText(text: string) returns (p: real)
    ensures p == AIProbability(text)
  {
    var aiScore, humanScore := ScoreSides(text);
    var total := aiScore + humanScore;
    if total == 0 {
      return 50.0;
    }
    p := ClampPercent(Mul(Div(aiScore as real, aiScore as real + humanScore as real), 100.0));
  }

  /** What `detectAI` returns; the source formats `probability` with two
      decimals. */
  datatype Detection = Detection(probability: real, isAIGenerated: bool, confidence: real)

  /** `detectAI`'s default threshold. */
  const DefaultThreshold: real := 70.0

  /** `Math.abs(p - 50) * 2`: twice the distance from 50. */
  function Confidence(p: real): (c: real)
    ensures c >= 0.0 && (c == 2.0 * (p - 50.0) || c == 2.0 * (50.0 - p))
    ensures 0.0 <= p <= 100.0 ==> 0.0 <= c <= 100.0
    ensures c == 0.0 <==> p == 50.0
    ensures 0.0 <= p <= 100.0 ==> (c == 100.0 <==> p == 0.0 || p == 100.0)
  {
    if p >= 50.0 then (p - 50.0) * 2.0 else (50.0 - p) * 2.0
  }

  /** `detectAI`: flags the text exactly when its probability reaches the
      threshold; the confidence is how far the probability is from 50, scaled
      to [0, 100]. */
  method DetectAI(text: string, threshold: real) returns (d: Detection)
    ensures d.probability == AIProbability(text)
    ensures d.isAIGenerated <==> AIProbability(text) >= threshold
    ensures 0.0 <= d.confidence <= 100.0
    ensures d.confidence == Confidence(d.probability)
    ensures d.confidence == 0.0 <==> AIScore(text) == HumanScore(text)
  {
    var p := AnalyzeText(text);
    d := Detection(p, p >= threshold, Confidence(p));
  }

  /** `detectAI(text)` without a threshold: the default of 70 applies. */
  method DetectAIByDefault(text: string) returns (d: Detection)
    ensures d.probability == AIProbability(text)
    ensures d.isAIGenerated <==> AIProbability(text) >= 70.0
    ensures d.confidence == Confidence(d.probability)
  {
    d := DetectAI(text, DefaultThreshold);
  }
}
