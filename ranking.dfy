/** main: every ticker is processed in order and the records are sorted by
    the mid-term composite, highest first. Python's list.sort is stable,
    also with reverse=True, so records with equal mid scores keep their
    processing order. */
module Ranking {
  import opened Composite
  import opened Pipeline
  import opened Audit

  /** The sort key of main: the rounded mid-term composite. */
  function Key(st: Stock): real
  {
    st.composites.mid
  }

  /** Keys never increase from one element to the next. */
  predicate SortedBy<T>(s: seq<T>, key: T -> real)
  {
    |s| < 2 || (key(s[0]) >= key(s[1]) && SortedBy(s[1..], key))
  }

  /** Every element's key is at least every later element's. */
  predicate Descending<T>(s: seq<T>, key: T -> real)
  {
    forall i, j :: 0 <= i < j < |s| ==> key(s[i]) >= key(s[j])
  }

  /** Neighbour order gives the order of all pairs. */
  lemma {:induction false} SortedIsDescending<T>(s: seq<T>, key: T -> real)
    requires SortedBy(s, key)
    ensures Descending(s, key)
  {
    if |s| > 1 {
      var t := s[1..];
      SortedIsDescending(t, key);
      forall i, j | 0 <= i < j < |s|
        ensures key(s[i]) >= key(s[j])
      {
        assert s[j] == t[j - 1];
        if i > 0 {
          assert s[i] == t[i - 1];
        } else if j > 1 {
          assert s[1] == t[0];
        }
      }
    }
  }

  /** The elements whose key is k, in list order. */
  function WithKey<T>(s: seq<T>, key: T -> real, k: real): seq<T>
  {
    if s == [] then [] else (if key(s[0]) == k then [s[0]] else []) + WithKey(s[1..], key, k)
  }

  /** Places x after every leading element whose key is at least x's: in a
      sorted list, after all elements with a higher or equal key. */
  function InsertBy<T>(s: seq<T>, x: T, key: T -> real): (r: seq<T>)
    ensures |r| == |s| + 1
    ensures r[0] == if s != [] && key(s[0]) >= key(x) then s[0] else x
  {
    if s == [] then [x]
    else if key(s[0]) >= key(x) then [s[0]] + InsertBy(s[1..], x, key)
    else [x] + s
  }

  /** Insertion adds exactly x. */
  lemma {:induction false} InsertByPermutes<T>(s: seq<T>, x: T, key: T -> real)
    ensures multiset(InsertBy(s, x, key)) == multiset(s) + multiset{x}
  {
    if s != [] && key(s[0]) >= key(x) {
      var rest := s[1..];
      calc {
        multiset(InsertBy(s, x, key));
        multiset([s[0]] + InsertBy(rest, x, key));
        multiset([s[0]]) + multiset(InsertBy(rest, x, key));
        { InsertByPermutes(rest, x, key); }
        multiset([s[0]]) + multiset(rest) + multiset{x};
        { assert s == [s[0]] + rest; }
        multiset(s) + multiset{x};
      }
    }
  }

  /** A sorted list stays sorted under a head whose key bounds the next. */
  lemma ConsSorted<T>(h: T, rest: seq<T>, key: T -> real)
    requires SortedBy(rest, key)
    requires rest != [] ==> key(rest[0]) <= key(h)
    ensures SortedBy([h] + rest, key)
  {
    assert ([h] + rest)[1..] == rest;
  }

  /** Insertion keeps a sorted list sorted. */
  lemma {:induction false} InsertBySorted<T>(s: seq<T>, x: T, key: T -> real)
    requires SortedBy(s, key)
    ensures SortedBy(InsertBy(s, x, key), key)
  {
    if s == [] {
    } else if key(s[0]) >= key(x) {
      InsertBySorted(s[1..], x, key);
      if |s| > 1 {
        assert s[1..][0] == s[1];
      }
      ConsSorted(s[0], InsertBy(s[1..], x, key), key);
    } else {
      ConsSorted(x, s, key);
    }
  }

  /** The stable descending sort: each element inserted, in order, into the
      sorted prefix before it. */
  function SortBy<T>(s: seq<T>, key: T -> real): seq<T>
  {
    if s == [] then [] else InsertBy(SortBy(s[..|s| - 1], key), s[|s| - 1], key)
  }

  /** The sort orders by key. */
  lemma {:induction false} SortBySorted<T>(s: seq<T>, key: T -> real)
    ensures SortedBy(SortBy(s, key), key)
  {
    if s != [] {
      var init, last := s[..|s| - 1], s[|s| - 1];
      SortBySorted(init, key);
      InsertBySorted(SortBy(init, key), last, key);
    }
  }

  /** The sort permutes its input. */
  lemma {:induction false} SortByPermutes<T>(s: seq<T>, key: T -> real)
    ensures |SortBy(s, key)| == |s|
    ensures multiset(SortBy(s, key)) == multiset(s)
  {
    if s != [] {
      var init, last := s[..|s| - 1], s[|s| - 1];
      calc {
        multiset(SortBy(s, key));
        multiset(InsertBy(SortBy(init, key), last, key));
        { InsertByPermutes(SortBy(init, key), last, key); }
        multiset(SortBy(init, key)) + multiset{last};
        { SortByPermutes(init, key); }
        multiset(init) + multiset{last};
        { assert s == init + [last]; }
        multiset(s);
      }
      SortByPermutes(init, key);
    }
  }

  lemma WithKeySingleton<T>(x: T, key: T -> real, k: real)
    ensures WithKey([x], key, k) == if key(x) == k then [x] else []
  {
    assert [x][1..] == [];
  }

  lemma WithKeyCons<T>(h: T, t: seq<T>, key: T -> real, k: real)
    ensures WithKey([h] + t, key, k) == (if key(h) == k then [h] else []) + WithKey(t, key, k)
  {
    assert ([h] + t)[1..] == t;
  }

  lemma {:induction false} WithKeyAppend<T>(a: seq<T>, b: seq<T>, key: T -> real, k: real)
    ensures WithKey(a + b, key, k) == WithKey(a, key, k) + WithKey(b, key, k)
  {
    if a != [] {
      assert a + b == [a[0]] + (a[1..] + b);
      assert a == [a[0]] + a[1..];
      WithKeyCons(a[0], a[1..] + b, key, k);
      WithKeyCons(a[0], a[1..], key, k);
      WithKeyAppend(a[1..], b, key, k);
    } else {
      assert a + b == b;
    }
  }

  /** In a sorted list whose first key is below k, no key is k. */
  lemma {:induction false} NoneWithHigherKey<T>(s: seq<T>, key: T -> real, k: real)
    requires SortedBy(s, key)
    requires s != [] ==> key(s[0]) < k
    ensures WithKey(s, key, k) == []
  {
    if s != [] {
      if |s| > 1 {
        assert s[1..][0] == s[1];
      }
      NoneWithHigherKey(s[1..], key, k);
    }
  }

  /** Inserting into a sorted list adds x at the end of its equal-key run. */
  lemma {:induction false} WithKeyInsert<T>(s: seq<T>, x: T, key: T -> real, k: real)
    requires SortedBy(s, key)
    ensures WithKey(InsertBy(s, x, key), key, k) == WithKey(s, key, k) + (if key(x) == k then [x] else [])
  {
    var tail := if key(x) == k then [x] else [];
    if s == [] {
      WithKeySingleton(x, key, k);
    } else if key(s[0]) >= key(x) {
      var head := if key(s[0]) == k then [s[0]] else [];
      var rest := s[1..];
      calc {
        WithKey(InsertBy(s, x, key), key, k);
        WithKey([s[0]] + InsertBy(rest, x, key), key, k);
        { WithKeyCons(s[0], InsertBy(rest, x, key), key, k); }
        head + WithKey(InsertBy(rest, x, key), key, k);
        { WithKeyInsert(rest, x, key, k); }
        head + (WithKey(rest, key, k) + tail);
        (head + WithKey(rest, key, k)) + tail;
        { WithKeyCons(s[0], rest, key, k); assert [s[0]] + rest == s; }
        WithKey(s, key, k) + tail;
      }
    } else {
      WithKeyCons(x, s, key, k);
      if key(x) == k {
        NoneWithHigherKey(s, key, k);
      }
    }
  }

  /** Stability: the elements of each key appear in input order. */
  lemma {:induction false} SortByStable<T>(s: seq<T>, key: T -> real, k: real)
    ensures WithKey(SortBy(s, key), key, k) == WithKey(s, key, k)
  {
    if s != [] {
      var init, last := s[..|s| - 1], s[|s| - 1];
      var sorted := SortBy(init, key);
      var tail := if key(last) == k then [last] else [];
      calc {
        WithKey(SortBy(s, key), key, k);
        WithKey(InsertBy(sorted, last, key), key, k);
        { SortBySorted(init, key); WithKeyInsert(sorted, last, key, k); }
        WithKey(sorted, key, k) + tail;
        { SortByStable(init, key, k); }
        WithKey(init, key, k) + tail;
        { WithKeySingleton(last, key, k); }
        WithKey(init, key, k) + WithKey([last], key, k);
        { WithKeyAppend(init, [last], key, k); }
        WithKey(init + [last], key, k);
        { assert init + [last] == s; }
        WithKey(s, key, k);
      }
    }
  }

  /** stocks.sort(key=mid_score, reverse=True), as insertions into the
      already sorted front of the list. */
  method SortStocks(stocks: seq<Stock>) returns (sorted: seq<Stock>)
    ensures sorted == SortBy(stocks, Key)
  {
    sorted := [];
    var i := 0;
    while i < |stocks|
      invariant 0 <= i <= |stocks|
      invariant sorted == SortBy(stocks[..i], Key)
    {
      assert stocks[..i + 1][..i] == stocks[..i];
      sorted := InsertBy(sorted, stocks[i], Key);
      i := i + 1;
    }
    assert stocks[..|stocks|] == stocks;
  }

  /** f applied to every element, built front to back. */
  function MapInOrder<A, B>(s: seq<A>, f: A -> B): (r: seq<B>)
    ensures |r| == |s|
    ensures forall i :: 0 <= i < |s| ==> r[i] == f(s[i])
  {
    if s == [] then []
    else
      var front := s[..|s| - 1];
      assert forall i :: 0 <= i < |front| ==> front[i] == s[i];
      MapInOrder(front, f) + [f(s[|s| - 1])]
  }

  lemma MapInOrderSnoc<A, B>(s: seq<A>, i: int, f: A -> B)
    requires 0 <= i < |s|
    ensures MapInOrder(s[..i + 1], f) == MapInOrder(s[..i], f) + [f(s[i])]
  {
    assert s[..i + 1][..i] == s[..i];
  }

  /** Processing every fetched ticker, in order: one record per ticker, the
      record process_ticker returns for it. */
  function ProcessAll(inputs: seq<TickerInput>, samples: map<string, Sample>,
                      expectedCaps: map<string, CapRange>): (r: seq<Stock>)
    ensures |r| == |inputs|
    ensures forall i :: 0 <= i < |inputs| ==> r[i] == ProcessedStock(inputs[i], samples, expectedCaps)
  {
    MapInOrder(inputs, input => ProcessedStock(input, samples, expectedCaps))
  }

  /** The loop of main: process_ticker for every ticker, appending each
      record (it never returns None, so every ticker is kept). */
  method ProcessTickers(inputs: seq<TickerInput>, samples: map<string, Sample>,
                        expectedCaps: map<string, CapRange>) returns (processed: seq<Stock>)
    ensures processed == ProcessAll(inputs, samples, expectedCaps)
  {
    processed := [];
    var i := 0;
    while i < |inputs|
      invariant 0 <= i <= |inputs|
      invariant processed == ProcessAll(inputs[..i], samples, expectedCaps)
    {
      var stock := ProcessTicker(inputs[i], samples, expectedCaps);
      ProcessAllSnoc(inputs, i, samples, expectedCaps);
      processed := processed + [stock];
      i := i + 1;
    }
    assert inputs[..|inputs|] == inputs;
  }

  lemma ProcessAllSnoc(inputs: seq<TickerInput>, i: int, samples: map<string, Sample>,
                       expectedCaps: map<string, CapRange>)
    requires 0 <= i < |inputs|
    ensures ProcessAll(inputs[..i + 1], samples, expectedCaps)
         == ProcessAll(inputs[..i], samples, expectedCaps) + [ProcessedStock(inputs[i], samples, expectedCaps)]
  {
    MapInOrderSnoc(inputs, i, input => ProcessedStock(input, samples, expectedCaps));
  }

  /** main: the processed records sorted by mid score; the result is
      ordered, a permutation of the processed records, and stable among
      equal mid scores. */
  method RunBatch(inputs: seq<TickerInput>, samples: map<string, Sample>,
                  expectedCaps: map<string, CapRange>) returns (stocks: seq<Stock>)
    ensures stocks == SortBy(ProcessAll(inputs, samples, expectedCaps), Key)
    ensures |stocks| == |inputs|
    ensures Descending(stocks, Key)
    ensures multiset(stocks) == multiset(ProcessAll(inputs, samples, expectedCaps))
    ensures forall k :: WithKey(stocks, Key, k) == WithKey(ProcessAll(inputs, samples, expectedCaps), Key, k)
  {
    var processed := ProcessTickers(inputs, samples, expectedCaps);
    stocks := SortStocks(processed);
    SortBySorted(processed, Key);
    SortByPermutes(processed, Key);
    SortedIsDescending(stocks, Key);
    forall k {
      SortByStable(processed, Key, k);
    }
  }
}
