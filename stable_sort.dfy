/** `entries.sort((a, b) => b[1] - a[1])` on (word, count) pairs:
    `Array.prototype.sort` is stable, so the result is ordered by descending
    count and pairs with equal counts keep their original order. */
module StableSort {

  type Entry = (string, nat)

  ghost predicate SortedDesc(s: seq<Entry>) {
    forall i, j :: 0 <= i < j < |s| ==> s[i].1 >= s[j].1
  }

  lemma {:induction false} SortedPrefix(s: seq<Entry>, n: nat)
    requires SortedDesc(s) && n <= |s|
    ensures SortedDesc(s[..n])
  {
    forall i, j | 0 <= i < j < n ensures s[..n][i].1 >= s[..n][j].1 {
      assert s[..n][i] == s[i] && s[..n][j] == s[j];
    }
  }

  /** Puts `x` after every leading entry whose count is at least `x`'s. */
  function Insert(s: seq<Entry>, x: Entry): (r: seq<Entry>)
    ensures |r| == |s| + 1
  {
    if s == [] then [x]
    else if s[0].1 >= x.1 then [s[0]] + Insert(s[1..], x)
    else [x] + s
  }

  /** Insertion sort, taking the entries first to last. */
  function SortDesc(s: seq<Entry>): (r: seq<Entry>)
    ensures |r| == |s|
  {
    if s == [] then [] else Insert(SortDesc(s[..|s| - 1]), s[|s| - 1])
  }

  /** The entries with count `k`, in order. */
  function WithCount(s: seq<Entry>, k: nat): seq<Entry> {
    if s == [] then [] else (if s[0].1 == k then [s[0]] else []) + WithCount(s[1..], k)
  }

  lemma {:induction false} InsertPermutes(s: seq<Entry>, x: Entry)
    ensures multiset(Insert(s, x)) == multiset(s) + multiset{x}
  {
    if s != [] && s[0].1 >= x.1 {
      var h, t := s[0], s[1..];
      InsertPermutes(t, x);
      assert s == [h] + t;
      assert multiset(s) == multiset{h} + multiset(t);
      assert multiset([h] + Insert(t, x)) == multiset{h} + multiset(Insert(t, x));
    }
  }

  lemma {:induction false} InsertBounded(s: seq<Entry>, x: Entry, b: nat)
    requires forall i :: 0 <= i < |s| ==> s[i].1 <= b
    requires x.1 <= b
    ensures forall i :: 0 <= i < |Insert(s, x)| ==> Insert(s, x)[i].1 <= b
  {
    if s != [] && s[0].1 >= x.1 {
      InsertBounded(s[1..], x, b);
    }
  }

  lemma {:induction false} InsertSorted(s: seq<Entry>, x: Entry)
    requires SortedDesc(s)
    ensures SortedDesc(Insert(s, x))
  {
    if s != [] && s[0].1 >= x.1 {
      InsertSorted(s[1..], x);
      InsertBounded(s[1..], x, s[0].1);
      var r := Insert(s, x);
      assert r == [s[0]] + Insert(s[1..], x);
      forall i, j | 0 <= i < j < |r| ensures r[i].1 >= r[j].1 {
        if i > 0 {
          assert r[i] == Insert(s[1..], x)[i - 1];
        }
        assert r[j] == Insert(s[1..], x)[j - 1];
      }
    }
  }

  /** The sort orders by descending count and is a permutation. */
  lemma {:induction false} SortDescSpec(s: seq<Entry>)
    ensures SortedDesc(SortDesc(s))
    ensures multiset(SortDesc(s)) == multiset(s)
  {
    if s != [] {
      SortDescSpec(s[..|s| - 1]);
      InsertSorted(SortDesc(s[..|s| - 1]), s[|s| - 1]);
      InsertPermutes(SortDesc(s[..|s| - 1]), s[|s| - 1]);
      assert s == s[..|s| - 1] + [s[|s| - 1]];
    }
  }

  lemma {:induction false} WithCountCons(e: Entry, t: seq<Entry>, k: nat)
    ensures WithCount([e] + t, k) == (if e.1 == k then [e] else []) + WithCount(t, k)
  {
    assert ([e] + t)[0] == e && ([e] + t)[1..] == t;
  }

  lemma {:induction false} WithCountAppend(a: seq<Entry>, b: seq<Entry>, k: nat)
    ensures WithCount(a + b, k) == WithCount(a, k) + WithCount(b, k)
  {
    if a == [] {
      assert a + b == b;
    } else {
      var h, t := a[0], a[1..];
      assert a == [h] + t;
      assert a + b == [h] + (t + b);
      WithCountAppend(t, b, k);
      WithCountCons(h, t + b, k);
      WithCountCons(h, t, k);
    }
  }

  lemma {:induction false} WithCountNone(s: seq<Entry>, k: nat)
    requires forall i :: 0 <= i < |s| ==> s[i].1 < k
    ensures WithCount(s, k) == []
  {
    if s != [] {
      WithCountNone(s[1..], k);
    }
  }

  /** The tail of a sorted list is sorted, and no entry exceeds the head. */
  lemma {:induction false} SortedTail(s: seq<Entry>)
    requires SortedDesc(s) && s != []
    ensures SortedDesc(s[1..])
    ensures forall i :: 0 <= i < |s| ==> s[i].1 <= s[0].1
  {
    forall i, j | 0 <= i < j < |s| - 1 ensures s[1..][i].1 >= s[1..][j].1 {
      assert s[1..][i] == s[i + 1] && s[1..][j] == s[j + 1];
    }
  }

  /** Inserting into a sorted list puts `x` after every entry of equal count. */
  lemma {:induction false} InsertWithCount(s: seq<Entry>, x: Entry, k: nat)
    requires SortedDesc(s)
    ensures WithCount(Insert(s, x), k) == WithCount(s, k) + (if x.1 == k then [x] else [])
  {
    if s == [] {
      WithCountCons(x, [], k);
    } else {
      var h, t := s[0], s[1..];
      assert s == [h] + t;
      WithCountCons(h, t, k);
      SortedTail(s);
      if h.1 >= x.1 {
        InsertWithCount(t, x, k);
        WithCountCons(h, Insert(t, x), k);
      } else {
        WithCountCons(x, s, k);
        if x.1 == k {
          WithCountNone(s, k);
        }
      }
    }
  }

  /** Stability: among the entries of any one count, the sort keeps the
      original order. */
  lemma {:induction false} SortDescStable(s: seq<Entry>, k: nat)
    ensures WithCount(SortDesc(s), k) == WithCount(s, k)
  {
    if s != [] {
      var init := s[..|s| - 1];
      var last := s[|s| - 1];
      var tail := if last.1 == k then [last] else [];
      calc {
        WithCount(SortDesc(s), k);
        WithCount(Insert(SortDesc(init), last), k);
        { SortDescSpec(init); InsertWithCount(SortDesc(init), last, k); }
        WithCount(SortDesc(init), k) + tail;
        { SortDescStable(init, k); }
        WithCount(init, k) + tail;
        { WithCountCons(last, [], k); assert [last] + [] == [last]; }
        WithCount(init, k) + WithCount([last], k);
        { assert s == init + [last]; WithCountAppend(init, [last], k); }
        WithCount(s, k);
      }
    }
  }
}
