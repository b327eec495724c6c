/** `SpamClassifier.preprocess`: lower-case and trim the text, delete every
    character outside `[a-zа-яё0-9\s]` (case-insensitively), then take the
    matches of `/[a-zа-яё]+|\d+/gi`, that is, maximal letter runs and maximal
    digit runs. */
module Tokenizer {
  import opened Seqs
  import opened Text

  /** A character of the letter class `[a-zа-яё]` under the `i` flag. */
  predicate IsTokenLetter(c: char) { IsWordLetter(ToLower(c)) }

  /** A character the deletion step keeps. */
  predicate IsKept(c: char) { IsTokenLetter(c) || IsDigit(c) || IsWhitespace(c) }

  predicate AllLetters(t: string) { forall k :: 0 <= k < |t| ==> IsWordLetter(t[k]) }

  predicate AllDigits(t: string) { forall k :: 0 <= k < |t| ==> IsDigit(t[k]) }

  /** `text.replace(/[^a-zа-яё0-9\s]/gi, '')`. */
  function DeleteOthers(s: string): string {
    if s == [] then []
    else (if IsKept(s[0]) then [s[0]] else []) + DeleteOthers(s[1..])
  }

  /** The deletion step keeps only letters, digits and whitespace, and adds no
      upper-case letter. */
  lemma {:induction false} DeleteOthersSpec(s: string)
    ensures forall k :: 0 <= k < |DeleteOthers(s)| ==> IsKept(DeleteOthers(s)[k])
    ensures NoUpper(s) ==> NoUpper(DeleteOthers(s))
  {
    if s != [] {
      DeleteOthersSpec(s[1..]);
      var head := if IsKept(s[0]) then [s[0]] else [];
      assert DeleteOthers(s) == head + DeleteOthers(s[1..]);
    }
  }

  /** Length of the longest prefix of `s` made of letters. */
  function LetterRun(s: string): (n: nat)
    ensures n <= |s|
    ensures forall k :: 0 <= k < n ==> IsTokenLetter(s[k])
    ensures n < |s| ==> !IsTokenLetter(s[n])
  {
    if s != [] && IsTokenLetter(s[0]) then 1 + LetterRun(s[1..]) else 0
  }

  /** Length of the longest prefix of `s` made of digits. */
  function DigitRun(s: string): (n: nat)
    ensures n <= |s|
    ensures forall k :: 0 <= k < n ==> IsDigit(s[k])
    ensures n < |s| ==> !IsDigit(s[n])
  {
    if s != [] && IsDigit(s[0]) then 1 + DigitRun(s[1..]) else 0
  }

  /** The global match of `/[a-zа-яё]+|\d+/gi` on `s`: at each position the
      letter alternative is tried first, then the digit one, and anything else
      is skipped. */
  function Tokens(s: string): seq<string>
    decreases |s|
  {
    if s == [] then []
    else if IsTokenLetter(s[0]) then
      var n := LetterRun(s);
      [s[..n]] + Tokens(s[n..])
    else if IsDigit(s[0]) then
      var n := DigitRun(s);
      [s[..n]] + Tokens(s[n..])
    else Tokens(s[1..])
  }

  /** The length of the token `Tokens` takes at the front of `s`, or 1 when it
      skips the first character. */
  function FirstStep(s: string): (n: nat)
    requires s != []
    ensures 0 < n <= |s|
  {
    if IsTokenLetter(s[0]) then LetterRun(s) else if IsDigit(s[0]) then DigitRun(s) else 1
  }

  /** A run of letters or of digits. */
  predicate IsRun(t: string) {
    t != [] && ((forall k :: 0 <= k < |t| ==> IsTokenLetter(t[k])) || AllDigits(t))
  }

  /** Every token is a non-empty run of letters or of digits. */
  lemma {:induction false} TokensAreRuns(s: string)
    ensures forall i :: 0 <= i < |Tokens(s)| ==> IsRun(Tokens(s)[i])
    decreases |s|
  {
    if s != [] {
      var n := FirstStep(s);
      TokensAreRuns(s[n..]);
      if IsTokenLetter(s[0]) || IsDigit(s[0]) {
        var rest := Tokens(s[n..]);
        assert Tokens(s) == [s[..n]] + rest;
        assert IsRun(s[..n]);
      }
    }
  }

  /** A text without upper-case letters yields tokens without them. */
  lemma {:induction false} TokensNoUpper(s: string)
    requires NoUpper(s)
    ensures forall i :: 0 <= i < |Tokens(s)| ==> NoUpper(Tokens(s)[i])
    decreases |s|
  {
    if s != [] {
      var n := FirstStep(s);
      assert NoUpper(s[n..]);
      TokensNoUpper(s[n..]);
      if IsTokenLetter(s[0]) || IsDigit(s[0]) {
        var rest := Tokens(s[n..]);
        assert Tokens(s) == [s[..n]] + rest;
        assert NoUpper(s[..n]);
      }
    }
  }

  /** Two characters belong to the same alternative of the token pattern. */
  predicate SameKind(a: char, b: char) {
    (IsTokenLetter(a) && IsTokenLetter(b)) || (IsDigit(a) && IsDigit(b))
  }

  /** `t` occurs at `p` in `s` and cannot be extended: its neighbours on both
      sides are of another kind than its ends, or absent. */
  predicate MaximalAt(s: string, t: string, p: nat) {
    && t != [] && p + |t| <= |s| && s[p..p + |t|] == t
    && (p > 0 ==> !SameKind(s[p - 1], s[p]))
    && (p + |t| < |s| ==> !SameKind(s[p + |t| - 1], s[p + |t|]))
  }

  function Shift(st: seq<nat>, n: nat): (r: seq<nat>)
    ensures |r| == |st|
    ensures forall i :: 0 <= i < |st| ==> r[i] == st[i] + n
  {
    seq(|st|, i requires 0 <= i < |st| => st[i] + n)
  }

  /** Where in `s` each token of `Tokens(s)` starts. */
  function TokenStarts(s: string): (st: seq<nat>)
    ensures |st| == |Tokens(s)|
    decreases |s|
  {
    if s == [] then []
    else
      var n := FirstStep(s);
      var rest := Shift(TokenStarts(s[n..]), n);
      if IsTokenLetter(s[0]) || IsDigit(s[0]) then [0] + rest else rest
  }

  /** A whole run `t` of `s[n..]` at `p` is a whole run of `s` at `p + n`,
      once its left edge at `n` is known to be a change of kind; `t'` and
      `p'` are the names the caller knows them by. */
  lemma {:induction false} MaximalShift(s: string, n: nat, t: string, p: nat, t': string, p': nat)
    requires n <= |s| && MaximalAt(s[n..], t, p)
    requires 0 < n < |s| ==> !SameKind(s[n - 1], s[n])
    requires t' == t && p' == p + n
    ensures MaximalAt(s, t', p')
  {
    assert s[n..][p..p + |t|] == s[p + n..p + n + |t|];
    if p > 0 {
      assert s[n..][p - 1] == s[p + n - 1] && s[n..][p] == s[p + n];
    }
    if p + |t| < |s| - n {
      assert s[n..][p + |t| - 1] == s[p + n + |t| - 1] && s[n..][p + |t|] == s[p + n + |t|];
    }
  }

  /** The first step of the tokenizer stops where the kind of character
      changes. */
  lemma {:induction false} FirstStepEdge(s: string)
    requires s != []
    ensures 0 < FirstStep(s) < |s| ==> !SameKind(s[FirstStep(s) - 1], s[FirstStep(s)])
  {
  }

  /** A token taken at the front of `s` is a whole run. */
  lemma {:induction false} FirstTokenWhole(s: string)
    requires s != [] && (IsTokenLetter(s[0]) || IsDigit(s[0]))
    ensures MaximalAt(s, s[..FirstStep(s)], 0)
  {
  }

  /** One step of the tokenizer: a token taken at the front, or a character
      skipped. */
  lemma {:induction false} TokensStep(s: string)
    requires s != []
    ensures var n := FirstStep(s);
            if IsTokenLetter(s[0]) || IsDigit(s[0]) then
              Tokens(s) == [s[..n]] + Tokens(s[n..])
              && TokenStarts(s) == [0] + Shift(TokenStarts(s[n..]), n)
            else
              Tokens(s) == Tokens(s[n..]) && TokenStarts(s) == Shift(TokenStarts(s[n..]), n)
  {
  }

  /** The index in the rest of `s`, past the first step, of token `i` of `s`
      (token 0 itself when the first step takes it). */
  function RestIndex(s: string, i: nat): nat
    requires s != []
  {
    if (IsTokenLetter(s[0]) || IsDigit(s[0])) && i > 0 then i - 1 else i
  }

  /** Past the first step, token `i` of `s` is a token of the rest, with its
      start shifted by the step. */
  lemma {:induction false} TokenAfterStep(s: string, i: nat)
    requires s != [] && i < |Tokens(s)|
    requires IsTokenLetter(s[0]) || IsDigit(s[0]) ==> i > 0
    ensures var r, k := s[FirstStep(s)..], RestIndex(s, i);
            && k < |Tokens(r)| && Tokens(s)[i] == Tokens(r)[k]
            && TokenStarts(s)[i] == TokenStarts(r)[k] + FirstStep(s)
  {
    var n := FirstStep(s);
    var r := s[n..];
    TokensStep(s);
    if IsTokenLetter(s[0]) || IsDigit(s[0]) {
      var ts, st := [s[..n]] + Tokens(r), [0] + Shift(TokenStarts(r), n);
      assert Tokens(s)[i] == ts[i] == Tokens(r)[i - 1];
      assert TokenStarts(s)[i] == st[i] == TokenStarts(r)[i - 1] + n;
    }
  }

  /** `MaximalAt` of a token and start known by other names. */
  lemma {:induction false} MaximalRename(s: string, t: string, p: nat, t': string, p': nat)
    requires MaximalAt(s, t, p) && t' == t && p' == p
    ensures MaximalAt(s, t', p')
  {
  }

  /** The first token, when the first step takes one, is a whole run. */
  lemma {:induction false} FirstTokenAt(s: string)
    requires s != [] && (IsTokenLetter(s[0]) || IsDigit(s[0]))
    ensures 0 < |Tokens(s)| && MaximalAt(s, Tokens(s)[0], TokenStarts(s)[0])
  {
    var n := FirstStep(s);
    FirstTokenWhole(s);
    TokensStep(s);
    MaximalRename(s, s[..n], 0, Tokens(s)[0], TokenStarts(s)[0]);
  }

  /** A later token of `s` is a whole run of `s` when it is one of the rest. */
  lemma {:induction false} LaterTokenWhole(s: string, i: nat)
    requires s != [] && i < |Tokens(s)|
    requires IsTokenLetter(s[0]) || IsDigit(s[0]) ==> i > 0
    requires var r, k := s[FirstStep(s)..], RestIndex(s, i);
             k < |Tokens(r)| ==> MaximalAt(r, Tokens(r)[k], TokenStarts(r)[k])
    ensures MaximalAt(s, Tokens(s)[i], TokenStarts(s)[i])
  {
    var n := FirstStep(s);
    var k := RestIndex(s, i);
    var r := s[n..];
    assert k < |Tokens(r)| && Tokens(s)[i] == Tokens(r)[k] && TokenStarts(s)[i] == TokenStarts(r)[k] + n by {
      TokenAfterStep(s, i);
    }
    FirstStepEdge(s);
    MaximalShift(s, n, Tokens(r)[k], TokenStarts(r)[k], Tokens(s)[i], TokenStarts(s)[i]);
  }

  /** Token `i` is a whole letter run or a whole digit run of `s`, at the
      position `TokenStarts` gives. */
  lemma {:induction false} TokenWholeAt(s: string, i: nat)
    requires i < |Tokens(s)|
    ensures MaximalAt(s, Tokens(s)[i], TokenStarts(s)[i])
    decreases |s|
  {
    var n := FirstStep(s);
    var taken := IsTokenLetter(s[0]) || IsDigit(s[0]);
    if taken && i == 0 {
      FirstTokenAt(s);
    } else {
      TokenAfterStep(s, i);
      TokenWholeAt(s[n..], RestIndex(s, i));
      LaterTokenWhole(s, i);
    }
  }

  /** Every token is a whole letter run or a whole digit run of `s`. */
  lemma {:induction false} TokensWhole(s: string)
    ensures forall i :: 0 <= i < |Tokens(s)| ==> MaximalAt(s, Tokens(s)[i], TokenStarts(s)[i])
  {
    forall i | 0 <= i < |Tokens(s)| ensures MaximalAt(s, Tokens(s)[i], TokenStarts(s)[i]) {
      TokenWholeAt(s, i);
    }
  }

  /** The first token, when the first step takes one, ends before the
      second starts. */
  lemma {:induction false} FirstTokenOrder(s: string)
    requires s != [] && (IsTokenLetter(s[0]) || IsDigit(s[0])) && 1 < |Tokens(s)|
    ensures TokenStarts(s)[0] + |Tokens(s)[0]| <= TokenStarts(s)[1]
  {
    var n := FirstStep(s);
    assert TokenStarts(s)[1] >= n by { TokenAfterStep(s, 1); }
    assert Tokens(s)[0] == s[..n] && TokenStarts(s)[0] == 0 by { TokensStep(s); }
  }

  /** A later pair of tokens of `s` is in order when it is in order in the
      rest. */
  lemma {:induction false} LaterTokenOrder(s: string, i: nat)
    requires s != [] && i + 1 < |Tokens(s)|
    requires IsTokenLetter(s[0]) || IsDigit(s[0]) ==> i > 0
    requires var r, k := s[FirstStep(s)..], RestIndex(s, i);
             k + 1 < |Tokens(r)| ==> TokenStarts(r)[k] + |Tokens(r)[k]| <= TokenStarts(r)[k + 1]
    ensures TokenStarts(s)[i] + |Tokens(s)[i]| <= TokenStarts(s)[i + 1]
  {
    var n := FirstStep(s);
    var k := RestIndex(s, i);
    var r := s[n..];
    assert k < |Tokens(r)| && Tokens(s)[i] == Tokens(r)[k] && TokenStarts(s)[i] == TokenStarts(r)[k] + n by {
      TokenAfterStep(s, i);
    }
    assert k + 1 < |Tokens(r)| && TokenStarts(s)[i + 1] == TokenStarts(r)[k + 1] + n by {
      TokenAfterStep(s, i + 1);
    }
  }

  /** Token order in `s` follows from token order in the rest. */
  lemma {:induction false} TokenOrderStep(s: string, i: nat)
    requires s != []
    requires var r, k := s[FirstStep(s)..], RestIndex(s, i);
             k + 1 < |Tokens(r)| ==> TokenStarts(r)[k] + |Tokens(r)[k]| <= TokenStarts(r)[k + 1]
    ensures i + 1 < |Tokens(s)| ==> TokenStarts(s)[i] + |Tokens(s)[i]| <= TokenStarts(s)[i + 1]
  {
    if i + 1 < |Tokens(s)| {
      if (IsTokenLetter(s[0]) || IsDigit(s[0])) && i == 0 {
        FirstTokenOrder(s);
      } else {
        LaterTokenOrder(s, i);
      }
    }
  }

  /** Token `i`, when it is not the last, ends before token `i + 1` starts. */
  lemma {:induction false} TokenOrderAt(s: string, i: nat)
    ensures i + 1 < |Tokens(s)| ==> TokenStarts(s)[i] + |Tokens(s)[i]| <= TokenStarts(s)[i + 1]
    decreases |s|
  {
    if s != [] {
      TokenOrderAt(s[FirstStep(s)..], RestIndex(s, i));
      TokenOrderStep(s, i);
    }
  }

  /** The tokens follow one another through `s` without overlapping. */
  lemma {:induction false} TokensInOrder(s: string)
    ensures forall i :: 0 <= i < |Tokens(s)| - 1 ==>
              TokenStarts(s)[i] + |Tokens(s)[i]| <= TokenStarts(s)[i + 1]
  {
    forall i | 0 <= i < |Tokens(s)| - 1
      ensures TokenStarts(s)[i] + |Tokens(s)[i]| <= TokenStarts(s)[i + 1]
    {
      TokenOrderAt(s, i);
    }
  }

  /** The tokens are exactly the whole letter runs and whole digit runs of
      `s`, in order and without overlap: each token starts where the kind of
      character changes and ends where it changes again. */
  lemma {:induction false} TokensMaximal(s: string)
    ensures |TokenStarts(s)| == |Tokens(s)|
    ensures forall i :: 0 <= i < |Tokens(s)| ==> IsRun(Tokens(s)[i])
    ensures forall i :: 0 <= i < |Tokens(s)| ==> MaximalAt(s, Tokens(s)[i], TokenStarts(s)[i])
    ensures forall i :: 0 <= i < |Tokens(s)| - 1 ==>
              TokenStarts(s)[i] + |Tokens(s)[i]| <= TokenStarts(s)[i + 1]
  {
    TokensAreRuns(s);
    TokensWhole(s);
    TokensInOrder(s);
  }

  /** `preprocess(text)`: every token is non-empty and consists only of
      lower-case letters (a-z, а-я, ё) or only of digits. */
  function Preprocess(text: string): (ts: seq<string>)
    ensures forall i :: 0 <= i < |ts| ==> ts[i] != [] && (AllLetters(ts[i]) || AllDigits(ts[i]))
  {
    var lowered := Lower(text);
    var kept := DeleteOthers(Trim(lowered));
    assert NoUpper(lowered);
    TrimNoUpper(lowered);
    DeleteOthersSpec(Trim(lowered));
    TokensAreRuns(kept);
    TokensNoUpper(kept);
    var ts := Tokens(kept);
    assert forall i :: 0 <= i < |ts| ==> AllLetters(ts[i]) || AllDigits(ts[i]) by {
      forall i | 0 <= i < |ts| ensures AllLetters(ts[i]) || AllDigits(ts[i]) {
        assert IsRun(ts[i]) && NoUpper(ts[i]);
      }
    }
    ts
  }

  /** The letters and digits of `s`, in order. */
  function Alnums(s: string): string {
    if s == [] then []
    else (if IsTokenLetter(s[0]) || IsDigit(s[0]) then [s[0]] else []) + Alnums(s[1..])
  }

  /** All tokens laid end to end. */
  function Concat(ts: seq<string>): string {
    if ts == [] then [] else ts[0] + Concat(ts[1..])
  }

  lemma {:induction false} AlnumsAppend(a: string, b: string)
    ensures Alnums(a + b) == Alnums(a) + Alnums(b)
  {
    if a == [] {
      assert a + b == b;
    } else {
      var head := if IsTokenLetter(a[0]) || IsDigit(a[0]) then [a[0]] else [];
      calc {
        Alnums(a + b);
        { assert (a + b)[0] == a[0] && (a + b)[1..] == a[1..] + b; }
        head + Alnums(a[1..] + b);
        { AlnumsAppend(a[1..], b); }
        head + (Alnums(a[1..]) + Alnums(b));
        (head + Alnums(a[1..])) + Alnums(b);
        Alnums(a) + Alnums(b);
      }
    }
  }

  lemma {:induction false} AlnumsOfRun(t: string)
    requires (forall k :: 0 <= k < |t| ==> IsTokenLetter(t[k])) || AllDigits(t)
    ensures Alnums(t) == t
  {
    if t != [] {
      AlnumsOfRun(t[1..]);
    }
  }

  /** Tokenising loses no letter and no digit and keeps nothing else: the
      tokens laid end to end are exactly the letters and digits of the text. */
  lemma {:induction false} TokensCover(s: string)
    ensures Concat(Tokens(s)) == Alnums(s)
    decreases |s|
  {
    if s != [] {
      var n := if IsTokenLetter(s[0]) then LetterRun(s)
               else if IsDigit(s[0]) then DigitRun(s) else 1;
      assert s == s[..n] + s[n..];
      AlnumsAppend(s[..n], s[n..]);
      TokensCover(s[n..]);
      if IsTokenLetter(s[0]) || IsDigit(s[0]) {
        AlnumsOfRun(s[..n]);
      }
    }
  }

  lemma {:induction false} AlnumsDeleteOthers(s: string)
    ensures Alnums(DeleteOthers(s)) == Alnums(s)
  {
    if s != [] {
      var head := if IsKept(s[0]) then [s[0]] else [];
      AlnumsAppend(head, DeleteOthers(s[1..]));
      AlnumsDeleteOthers(s[1..]);
    }
  }

  lemma {:induction false} AlnumsOfBlank(s: string)
    requires forall k :: 0 <= k < |s| ==> IsWhitespace(s[k])
    ensures Alnums(s) == []
  {
    if s != [] {
      assert !IsTokenLetter(s[0]) && !IsDigit(s[0]);
      AlnumsOfBlank(s[1..]);
    }
  }

  /** `trim` cuts `s` into three pieces, and the two it throws away hold no
      letter and no digit. */
  lemma {:induction false} TrimCutsNoAlnums(s: string)
    ensures var r, a := Trim(s), |s| - |TrimStart(s)|;
            && 0 <= a <= |s| - |r|
            && s == s[..a] + (r + s[a + |r|..])
            && Alnums(s[..a]) == [] && Alnums(s[a + |r|..]) == []
  {
    var r := Trim(s);
    var a := |s| - |TrimStart(s)|;
    assert 0 <= a <= |s| - |r| && r == s[a..a + |r|] by { TrimPiece(s); }
    assert s == s[..a] + (r + s[a + |r|..]) by { ThreeParts(s, a, a + |r|); }
    var lead, trail := s[..a], s[a + |r|..];
    assert Alnums(lead) == [] by {
      TrimPiece(s);
      assert forall k :: 0 <= k < |lead| ==> lead[k] == s[k];
      AlnumsOfBlank(lead);
    }
    assert Alnums(trail) == [] by {
      TrimPiece(s);
      assert forall k :: 0 <= k < |trail| ==> trail[k] == s[a + |r| + k];
      AlnumsOfBlank(trail);
    }
  }

  lemma {:induction false} AlnumsTrim(s: string)
    ensures Alnums(Trim(s)) == Alnums(s)
  {
    var r := Trim(s);
    var a := |s| - |TrimStart(s)|;
    TrimCutsNoAlnums(s);
    var lead, trail := s[..a], s[a + |r|..];
    calc {
      Alnums(s);
      Alnums(lead + (r + trail));
      { AlnumsAppend(lead, r + trail); }
      Alnums(lead) + Alnums(r + trail);
      { AlnumsAppend(r, trail); }
      [] + (Alnums(r) + []);
      { assert [] + (Alnums(r) + []) == Alnums(r); }
      Alnums(r);
    }
  }

  /** `preprocess` keeps every letter and digit of the lower-cased text, in
      order, and nothing else: punctuation inside a word is deleted and joins
      its pieces, and the token boundaries fall only where letters meet digits
      or a deleted-or-blank character. */
  lemma {:induction false} PreprocessKeepsAlnums(text: string)
    ensures Concat(Preprocess(text)) == Alnums(Lower(text))
  {
    var kept := DeleteOthers(Trim(Lower(text)));
    TokensCover(kept);
    AlnumsDeleteOthers(Trim(Lower(text)));
    AlnumsTrim(Lower(text));
  }

  /** Where `preprocess` cuts: its tokens are the whole letter runs and whole
      digit runs of the lower-cased, trimmed and filtered text, in order. */
  lemma {:induction false} PreprocessMaximal(text: string)
    ensures var kept, ts := DeleteOthers(Trim(Lower(text))), Preprocess(text);
            && |TokenStarts(kept)| == |ts|
            && (forall i :: 0 <= i < |ts| ==> MaximalAt(kept, ts[i], TokenStarts(kept)[i]))
            && (forall i :: 0 <= i < |ts| - 1 ==>
                  TokenStarts(kept)[i] + |ts[i]| <= TokenStarts(kept)[i + 1])
  {
    var kept := DeleteOthers(Trim(Lower(text)));
    assert Preprocess(text) == Tokens(kept);
    TokensMaximal(kept);
  }

  // Two worked inputs, each proved one stage at a time.

  lemma {:induction false} ApostropheTrimmed()
    ensures Lower("Don't!") == "don't!" && Trim("don't!") == "don't!"
  {
    var low := "don't!";
    assert !IsWhitespace(low[0]);
    assert TrimStart(low) == low;
    assert !IsWhitespace(low[5]);
    assert TrimEnd(low) == low;
  }

  /** The deletion step on one character followed by the rest. */
  lemma {:induction false} DeleteOthersCons(c: char, s: string)
    ensures DeleteOthers([c] + s) == (if IsKept(c) then [c] else []) + DeleteOthers(s)
  {
    assert ([c] + s)[1..] == s;
  }

  lemma {:induction false} ApostropheTailDeleted()
    ensures DeleteOthers("'t!") == "t"
  {
    assert DeleteOthers("!") == [] by { DeleteOthersCons('!', []); }
    assert DeleteOthers("t!") == "t" by { DeleteOthersCons('t', "!"); }
    DeleteOthersCons('\'', "t!");
  }

  lemma {:induction false} ApostropheDeleted()
    ensures DeleteOthers("don't!") == "dont"
  {
    assert DeleteOthers("n't!") == "nt" by {
      ApostropheTailDeleted();
      DeleteOthersCons('n', "'t!");
    }
    assert DeleteOthers("on't!") == "ont" by { DeleteOthersCons('o', "n't!"); }
    DeleteOthersCons('d', "on't!");
  }

  lemma {:induction false} OneWordToken()
    ensures Tokens("dont") == ["dont"]
  {
    assert LetterRun("dont") == 4;
    assert "dont"[..4] == "dont";
    assert "dont"[4..] == [];
  }

  /** Punctuation is deleted before the split, so it joins the pieces around it. */
  lemma {:induction false} ApostropheJoins()
    ensures Preprocess("Don't!") == ["dont"]
  {
    ApostropheTrimmed();
    ApostropheDeleted();
    OneWordToken();
  }

  lemma {:induction false} MixedTrimmed()
    ensures Lower("abc123") == "abc123" && Trim("abc123") == "abc123"
  {
    var s := "abc123";
    assert !IsWhitespace(s[0]);
    assert TrimStart(s) == s;
    assert !IsWhitespace(s[5]);
    assert TrimEnd(s) == s;
  }

  /** Text made only of kept characters passes the deletion step unchanged. */
  lemma {:induction false} DeleteNothing(s: string)
    requires forall k :: 0 <= k < |s| ==> IsKept(s[k])
    ensures DeleteOthers(s) == s
  {
    if s != [] {
      DeleteNothing(s[1..]);
    }
  }

  lemma {:induction false} MixedKept()
    ensures DeleteOthers("abc123") == "abc123"
  {
    var s := "abc123";
    assert forall k :: 0 <= k < |s| ==> IsTokenLetter(s[k]) || IsDigit(s[k]);
    DeleteNothing(s);
  }

  lemma {:induction false} DigitToken()
    ensures Tokens("123") == ["123"]
  {
    assert LetterRun("123") == 0;
    assert DigitRun("123") == 3;
    assert "123"[..3] == "123";
    assert "123"[3..] == [];
  }

  /** The letter run of one letter followed by the rest. */
  lemma {:induction false} LetterRunCons(c: char, s: string)
    requires IsTokenLetter(c)
    ensures LetterRun([c] + s) == 1 + LetterRun(s)
  {
    assert ([c] + s)[1..] == s;
  }

  lemma {:induction false} MixedTokens()
    ensures Tokens("abc123") == ["abc", "123"]
  {
    var s := "abc123";
    assert LetterRun(s) == 3 by {
      assert LetterRun("123") == 0;
      LetterRunCons('c', "123");
      LetterRunCons('b', "c123");
      LetterRunCons('a', "bc123");
    }
    assert Tokens(s) == ["abc"] + Tokens("123") by {
      TokensStep(s);
      assert s[..3] == "abc" && s[3..] == "123";
    }
    DigitToken();
  }

  /** A letter run next to a digit run is split into two tokens. */
  lemma {:induction false} LettersAndDigitsSplit()
    ensures Preprocess("abc123") == ["abc", "123"]
  {
    MixedTrimmed();
    MixedKept();
    MixedTokens();
  }
}
