/** The classifier's per-class word counts: a JavaScript `Map` from word to
    count, which remembers the order in which its keys were first set. */
module WordTable {
  import opened Seqs

  /** `m.get(w) || 0`. */
  function Lookup(m: map<string, nat>, w: string): nat {
    if w in m then m[w] else 0
  }

  /** The counts of the listed words, added up. */
  function SumCounts(ws: seq<string>, m: map<string, nat>): nat {
    if ws == [] then 0 else SumCounts(ws[..|ws| - 1], m) + Lookup(m, ws[|ws| - 1])
  }

  /** How often `w` occurs in `ws`. */
  function CountOf(ws: seq<string>, w: string): nat {
    if ws == [] then 0 else CountOf(ws[..|ws| - 1], w) + (if ws[|ws| - 1] == w then 1 else 0)
  }

  datatype WordCounts = WordCounts(order: seq<string>, count: map<string, nat>) {

    /** The keys in insertion order, each once, every stored count positive. */
    ghost predicate Valid() {
      && Distinct(order)
      && count.Keys == Elems(order)
      && (forall w :: w in count ==> count[w] > 0)
    }

    function Get(w: string): nat {
      Lookup(count, w)
    }

    function Keys(): set<string> {
      count.Keys
    }

    /** The sum of all stored counts. */
    function Total(): nat {
      SumCounts(order, count)
    }

    /** `map.set(w, (map.get(w) || 0) + 1)`: a new key goes to the end of the
        insertion order, an existing key keeps its place. */
    function Add(w: string): (r: WordCounts)
      ensures r.Get(w) == Get(w) + 1
    {
      if w in count then WordCounts(order, count[w := count[w] + 1])
      else WordCounts(order + [w], count[w := 1])
    }

    /** `[...map.entries()]`: the (word, count) pairs in insertion order. */
    function Entries(): (es: seq<(string, nat)>)
      ensures |es| == |order|
      ensures forall i :: 0 <= i < |es| ==> es[i] == (order[i], Get(order[i]))
    {
      seq(|order|, i requires 0 <= i < |order| => (order[i], Get(order[i])))
    }
  }

  /** `Add` bumps only its own word, adds it to the keys, appends it to the
      insertion order exactly when it is new, and keeps the table valid. */
  lemma {:induction false} AddFacts(wc: WordCounts, w: string)
    ensures forall v :: v != w ==> wc.Add(w).Get(v) == wc.Get(v)
    ensures wc.Add(w).Keys() == wc.Keys() + {w}
    ensures wc.Valid() ==> wc.Add(w).Valid()
    ensures w in wc.count ==> wc.Add(w).order == wc.order
    ensures w !in wc.count ==> wc.Add(w).order == wc.order + [w]
  {
    ElemsMember(wc.order);
    AppendFresh(wc.order, w);
  }

  /** What `[...map.entries()]` lists for a valid table: every stored word
      exactly once, nothing else, each paired with its stored count. */
  lemma {:induction false} EntriesSpec(wc: WordCounts)
    requires wc.Valid()
    ensures var es := wc.Entries();
            && (forall i, j :: 0 <= i < j < |es| ==> es[i].0 != es[j].0)
            && (forall w :: w in wc.count <==> exists i :: 0 <= i < |es| && es[i].0 == w)
            && (forall i :: 0 <= i < |es| ==> es[i].0 in wc.count && es[i].1 == wc.count[es[i].0])
  {
    var es := wc.Entries();
    DistinctIndices(wc.order);
    ElemsMember(wc.order);
    forall w | w in wc.count ensures exists i :: 0 <= i < |es| && es[i].0 == w {
      var i :| 0 <= i < |wc.order| && wc.order[i] == w;
      assert es[i].0 == w;
    }
  }

  /** `new Map()`. */
  const Empty: WordCounts := WordCounts([], map[])

  /** `Add` applied to every word of `ws`, first to last. */
  function AddTokens(wc: WordCounts, ws: seq<string>): WordCounts {
    if ws == [] then wc else AddTokens(wc, ws[..|ws| - 1]).Add(ws[|ws| - 1])
  }

  lemma {:induction false} SumAppend(a: seq<string>, b: seq<string>, m: map<string, nat>)
    ensures SumCounts(a + b, m) == SumCounts(a, m) + SumCounts(b, m)
    decreases |b|
  {
    if b == [] {
      assert a + b == a;
    } else {
      var b' := b[..|b| - 1];
      assert (a + b)[..|a + b| - 1] == a + b';
      SumAppend(a, b', m);
    }
  }

  /** Removing the entry at `k` removes exactly its count from the sum. */
  lemma {:induction false} SumDropAt(a: seq<string>, k: nat, m: map<string, nat>)
    requires k < |a|
    ensures SumCounts(a, m) == SumCounts(a[..k] + a[k + 1..], m) + Lookup(m, a[k])
  {
    assert a == a[..k] + [a[k]] + a[k + 1..];
    SumAppend(a[..k] + [a[k]], a[k + 1..], m);
    SumAppend(a[..k], [a[k]], m);
    SumAppend(a[..k], a[k + 1..], m);
    assert SumCounts([a[k]], m) == Lookup(m, a[k]) by {
      assert [a[k]][..0] == [];
    }
  }

  /** Changing the count of a word that is not listed leaves the sum alone. */
  lemma {:induction false} SumUnlisted(ws: seq<string>, m: map<string, nat>, w: string, v: nat)
    requires w !in ws
    ensures SumCounts(ws, m[w := v]) == SumCounts(ws, m)
  {
    if ws != [] {
      SumUnlisted(ws[..|ws| - 1], m, w, v);
    }
  }

  /** Adding one to the count of a word listed once adds one to the sum. */
  lemma {:induction false} SumBumped(ws: seq<string>, m: map<string, nat>, w: string)
    requires Distinct(ws) && w in ws
    ensures SumCounts(ws, m[w := Lookup(m, w) + 1]) == SumCounts(ws, m) + 1
  {
    var init := ws[..|ws| - 1];
    assert Distinct(init);
    if ws[|ws| - 1] == w {
      assert w !in init;
      SumUnlisted(init, m, w, Lookup(m, w) + 1);
    } else {
      SumBumped(init, m, w);
    }
  }

  /** Each `Add` grows the total by exactly one. */
  lemma {:induction false} AddTotal(wc: WordCounts, w: string)
    requires wc.Valid()
    ensures wc.Add(w).Total() == wc.Total() + 1
  {
    ElemsMember(wc.order);
    if w in wc.count {
      SumBumped(wc.order, wc.count, w);
    } else {
      var m := wc.count[w := 1];
      SumUnlisted(wc.order, wc.count, w, 1);
      assert (wc.order + [w])[..|wc.order|] == wc.order;
    }
  }

  /** No single count exceeds the total. */
  lemma {:induction false} GetAtMostTotal(wc: WordCounts, w: string)
    requires wc.Valid()
    ensures wc.Get(w) <= wc.Total()
  {
    ElemsMember(wc.order);
    if w in wc.count {
      var k :| 0 <= k < |wc.order| && wc.order[k] == w;
      SumDropAt(wc.order, k, wc.count);
    }
  }

  /** Dropping the entry at `k` of a duplicate-free list leaves a
      duplicate-free list holding every other entry. */
  lemma {:induction false} DropAt(a: seq<string>, k: nat)
    requires Distinct(a) && k < |a|
    ensures Distinct(a[..k] + a[k + 1..])
    ensures forall w :: w in a[..k] + a[k + 1..] <==> w in a && w != a[k]
  {
    var a' := a[..k] + a[k + 1..];
    DistinctIndices(a);
    DistinctIndices(a');
    forall i, j | 0 <= i < j < |a'| ensures a'[i] != a'[j] {
      var i' := if i < k then i else i + 1;
      var j' := if j < k then j else j + 1;
      assert a'[i] == a[i'] && a'[j] == a[j'];
    }
    forall w | w in a' ensures w in a && w != a[k] {
      var i :| 0 <= i < |a'| && a'[i] == w;
      var i' := if i < k then i else i + 1;
      assert a[i'] == w;
    }
    forall w | w in a && w != a[k] ensures w in a' {
      var i :| 0 <= i < |a| && a[i] == w;
      if i < k { assert a'[i] == w; } else { assert a'[i - 1] == w; }
    }
  }

  /** Summing over a duplicate-free list `b` that contains every word of the
      duplicate-free list `a`, and only zero-count words besides, gives the
      same total as summing over `a`. */
  lemma {:induction false} SumOverSuperset(a: seq<string>, b: seq<string>, m: map<string, nat>)
    requires Distinct(a) && Distinct(b)
    requires forall w :: w in a ==> w in b
    requires forall w :: w in b && w !in a ==> Lookup(m, w) == 0
    ensures SumCounts(b, m) == SumCounts(a, m)
    decreases |b|
  {
    if b == [] {
      DistinctCard(a);
      ElemsMember(a);
      assert Elems(a) == {};
    } else {
      var b' := b[..|b| - 1];
      var x := b[|b| - 1];
      assert Distinct(b');
      assert x !in b';
      assert forall w :: w in b ==> w == x || w in b';
      if x in a {
        var k :| 0 <= k < |a| && a[k] == x;
        DropAt(a, k);
        SumOverSuperset(a[..k] + a[k + 1..], b', m);
        SumDropAt(a, k, m);
      } else {
        SumOverSuperset(a, b', m);
      }
    }
  }

  /** Summing over a duplicate-free list of words that includes every key of
      a table gives the table's total. */
  lemma {:induction false} SumOverAllWords(wc: WordCounts, vs: seq<string>)
    requires wc.Valid() && Distinct(vs) && wc.Keys() <= Elems(vs)
    ensures SumCounts(vs, wc.count) == wc.Total()
  {
    ElemsMember(vs);
    ElemsMember(wc.order);
    assert forall w :: w in wc.order ==> w in vs by {
      forall w | w in wc.order ensures w in vs {
        assert w in wc.count;
      }
    }
    SumOverSuperset(wc.order, vs, wc.count);
  }

  /** Adding a list of words keeps the table valid and grows the total by the
      list's length. */
  lemma {:induction false} AddTokensTotal(wc: WordCounts, ws: seq<string>)
    requires wc.Valid()
    ensures AddTokens(wc, ws).Valid()
    ensures AddTokens(wc, ws).Total() == wc.Total() + |ws|
  {
    if ws != [] {
      var init := ws[..|ws| - 1];
      AddTokensTotal(wc, init);
      AddFacts(AddTokens(wc, init), ws[|ws| - 1]);
      AddTotal(AddTokens(wc, init), ws[|ws| - 1]);
    }
  }

  /** Adding a list of words grows every word's count by its number of
      occurrences in the list. */
  lemma {:induction false} AddTokensGet(wc: WordCounts, ws: seq<string>, w: string)
    ensures AddTokens(wc, ws).Get(w) == wc.Get(w) + CountOf(ws, w)
  {
    if ws != [] {
      AddTokensGet(wc, ws[..|ws| - 1], w);
    }
  }

  /** Adding a list of words adds exactly its words to the keys. */
  lemma {:induction false} AddTokensKeys(wc: WordCounts, ws: seq<string>)
    ensures AddTokens(wc, ws).Keys() == wc.Keys() + Elems(ws)
  {
    if ws != [] {
      var init := ws[..|ws| - 1];
      AddTokensKeys(wc, init);
      AddFacts(AddTokens(wc, init), ws[|ws| - 1]);
      assert ws == init + [ws[|ws| - 1]];
      AppendFresh(init, ws[|ws| - 1]);
    }
  }
}
