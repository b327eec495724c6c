/** Characters and strings as the scoring engine sees them: the case mapping of
    `String.prototype.toLowerCase` on A-Z and U+0400-U+042F, the ECMAScript
    whitespace class used by `trim` and by `\s`, and substring search. */
module Text {

  predicate IsLatinUpper(c: char) { 'A' <= c <= 'Z' }

  predicate IsLatinLower(c: char) { 'a' <= c <= 'z' }

  /** The capitals of the basic Cyrillic block, U+0400 (Ѐ) to U+042F (Я). */
  predicate IsCyrillicUpper(c: char) { '\U{400}' <= c <= '\U{42F}' }

  /** The capitals the model lowers. Others, such as À or Ґ, keep their case. */
  predicate IsUpper(c: char) { IsLatinUpper(c) || IsCyrillicUpper(c) }

  /** The lower-case letters of the tokenizer's class `[a-zа-яё]`. */
  predicate IsWordLetter(c: char) {
    IsLatinLower(c) || ('\U{430}' <= c <= '\U{44F}') || c == '\U{451}'
  }

  /** `\d`: ASCII digits only. */
  predicate IsDigit(c: char) { '0' <= c <= '9' }

  /** ECMAScript WhiteSpace and LineTerminator: the set `\s` matches and `trim` removes. */
  predicate IsWhitespace(c: char) {
    c == '\t' || c == '\n' || c == '\U{B}' || c == '\U{C}' || c == '\r' || c == ' '
    || c == '\U{A0}' || c == '\U{1680}' || ('\U{2000}' <= c <= '\U{200A}')
    || c == '\U{2028}' || c == '\U{2029}' || c == '\U{202F}' || c == '\U{205F}'
    || c == '\U{3000}' || c == '\U{FEFF}'
  }

  /** `toLowerCase` on one character: A-Z to a-z, А-Я to а-я, Ѐ-Џ to ѐ-џ; every
      other character is left as it is. */
  function ToLower(c: char): (l: char)
    ensures !IsUpper(l)
    ensures !IsUpper(c) ==> l == c
    ensures IsUpper(c) ==> l != c
  {
    if IsLatinUpper(c) then (c as int + 0x20) as char
    else if '\U{410}' <= c <= '\U{42F}' then (c as int + 0x20) as char
    else if IsCyrillicUpper(c) then (c as int + 0x50) as char
    else c
  }

  /** No character of `s` is an upper-case letter. */
  predicate NoUpper(s: string) {
    forall k :: 0 <= k < |s| ==> !IsUpper(s[k])
  }

  /** `text.toLowerCase()`, character by character: no capital survives and
      every other character is left as it was. */
  function Lower(s: string): (r: string)
    ensures |r| == |s|
    ensures NoUpper(r)
    ensures forall i :: 0 <= i < |s| && !IsUpper(s[i]) ==> r[i] == s[i]
    ensures forall i :: 0 <= i < |s| ==> r[i] == ToLower(s[i])
  {
    seq(|s|, i requires 0 <= i < |s| => ToLower(s[i]))
  }

  /** The leading-whitespace half of `trim`. */
  function TrimStart(s: string): string {
    if s != [] && IsWhitespace(s[0]) then TrimStart(s[1..]) else s
  }

  /** The trailing-whitespace half of `trim`. */
  function TrimEnd(s: string): string {
    if s != [] && IsWhitespace(s[|s| - 1]) then TrimEnd(s[..|s| - 1]) else s
  }

  /** `TrimStart` drops exactly the maximal whitespace prefix. */
  lemma {:induction false} TrimStartSpec(s: string)
    ensures var r := TrimStart(s);
            && |r| <= |s| && r == s[|s| - |r|..]
            && (forall k :: 0 <= k < |s| - |r| ==> IsWhitespace(s[k]))
            && (r != [] ==> !IsWhitespace(r[0]))
  {
    if s != [] && IsWhitespace(s[0]) {
      var t := s[1..];
      TrimStartSpec(t);
      var r := TrimStart(t);
      assert TrimStart(s) == r;
      assert r == s[|s| - |r|..] by {
        assert t[|t| - |r|..] == s[|s| - |r|..];
      }
      forall k | 0 <= k < |s| - |r| ensures IsWhitespace(s[k]) {
        if k > 0 {
          assert s[k] == t[k - 1];
        }
      }
    }
  }

  /** `TrimEnd` drops exactly the maximal whitespace suffix. */
  lemma {:induction false} TrimEndSpec(s: string)
    ensures var r := TrimEnd(s);
            && |r| <= |s| && r == s[..|r|]
            && (forall k :: |r| <= k < |s| ==> IsWhitespace(s[k]))
            && (r != [] ==> !IsWhitespace(r[|r| - 1]))
  {
    if s != [] && IsWhitespace(s[|s| - 1]) {
      TrimEndSpec(s[..|s| - 1]);
    }
  }

  /** Trimming never introduces an upper-case letter. */
  lemma {:induction false} TrimNoUpper(s: string)
    requires NoUpper(s)
    ensures NoUpper(Trim(s))
  {
    var t := TrimStart(s);
    TrimStartSpec(s);
    TrimEndSpec(t);
    assert forall k :: 0 <= k < |t| ==> t[k] == s[|s| - |t| + k];
  }

  /** `text.trim()`: no longer than `s`, and neither starting nor ending
      with whitespace (`TrimPiece` states what is cut away). */
  function Trim(s: string): (r: string)
    ensures |r| <= |s|
    ensures r == [] || (!IsWhitespace(r[0]) && !IsWhitespace(r[|r| - 1]))
  {
    TrimStartSpec(s);
    TrimEndSpec(TrimStart(s));
    TrimEnd(TrimStart(s))
  }

  /** `trim` keeps a contiguous piece of `s` and cuts away only whitespace on
      either side. */
  lemma {:induction false} TrimPiece(s: string)
    ensures var r, a := Trim(s), |s| - |TrimStart(s)|;
            && 0 <= a <= |s| - |r| && r == s[a..a + |r|]
            && (forall k :: 0 <= k < a ==> IsWhitespace(s[k]))
            && (forall k :: a + |r| <= k < |s| ==> IsWhitespace(s[k]))
  {
    var t := TrimStart(s);
    TrimStartSpec(s);
    var r := TrimEnd(t);
    TrimEndSpec(t);
    var a := |s| - |t|;
    assert r == s[a..a + |r|] by {
      assert t == s[a..] && r == t[..|r|];
    }
    forall k | a + |r| <= k < |s| ensures IsWhitespace(s[k]) {
      assert s[k] == t[k - a];
    }
  }

  /** The trimmed string is empty exactly when every character is whitespace,
      which is how `s.trim().length > 0` reads. */
  lemma {:induction false} TrimEmptyIffBlank(s: string)
    ensures Trim(s) == [] <==> forall k :: 0 <= k < |s| ==> IsWhitespace(s[k])
  {
    var t := TrimStart(s);
    TrimStartSpec(s);
    TrimEndSpec(t);
    if Trim(s) == [] {
      assert |t| == 0;
    } else {
      var r := Trim(s);
      assert r == t[..|r|];
      assert !IsWhitespace(t[0]);
      assert t[0] == s[|s| - |t|];
    }
  }

  /** `sub` occurs in `s` starting at index `i`. */
  predicate OccursAt(s: string, sub: string, i: nat) {
    i + |sub| <= |s| && s[i..i + |sub|] == sub
  }

  /** `s.includes(sub)`. */
  predicate Contains(s: string, sub: string) {
    exists i :: 0 <= i <= |s| - |sub| && OccursAt(s, sub, i)
  }

  /** How many entries of `phrases` occur in `text`; a phrase counts once
      however often it occurs. */
  function CountPresent(text: string, phrases: seq<string>): (n: nat)
    ensures n <= |phrases|
  {
    if phrases == [] then 0
    else CountPresent(text, phrases[..|phrases| - 1])
         + (if Contains(text, phrases[|phrases| - 1]) then 1 else 0)
  }

  /** A phrase list whose every entry occurs scores every entry; one none of
      whose entries occurs scores nothing. */
  lemma {:induction false} CountPresentExtremes(text: string, phrases: seq<string>)
    ensures CountPresent(text, phrases) == |phrases|
            <==> forall k :: 0 <= k < |phrases| ==> Contains(text, phrases[k])
    ensures CountPresent(text, phrases) == 0
            <==> forall k :: 0 <= k < |phrases| ==> !Contains(text, phrases[k])
  {
    if phrases != [] {
      var init := phrases[..|phrases| - 1];
      CountPresentExtremes(text, init);
      assert forall k :: 0 <= k < |init| ==> init[k] == phrases[k];
    }
  }

  /** One more unit of `w`, kept out of the loops' proofs. */
  lemma {:induction false} ScaleStep(w: nat, n: nat)
    ensures w * (n + 1) == w * n + w
  {
  }

  lemma {:induction false} ScaleMonotone(w: nat, a: nat, b: nat)
    requires a <= b
    ensures w * a <= w * b
  {
    assert w * b == w * a + w * (b - a);
  }

  /** The presence-only loop of the source: `weight` for every listed phrase
      that `text.includes`. */
  method PresenceScore(text: string, phrases: seq<string>, weight: nat) returns (score: nat)
    ensures score == weight * CountPresent(text, phrases)
    ensures score <= weight * |phrases|
  {
    score := 0;
    var k := 0;
    while k < |phrases|
      invariant 0 <= k <= |phrases|
      invariant score == weight * CountPresent(text, phrases[..k])
    {
      assert phrases[..k + 1][..k] == phrases[..k];
      if Contains(text, phrases[k]) {
        ScaleStep(weight, CountPresent(text, phrases[..k]));
        score := score + weight;
      }
      k := k + 1;
    }
    assert phrases[..k] == phrases;
    ScaleMonotone(weight, CountPresent(text, phrases), |phrases|);
  }
}
