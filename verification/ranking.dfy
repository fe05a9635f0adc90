/** Ranking the strategy pool: every strategy paired with its mean race
    time, sorted ascending by mean with a stable sort (ties keep pool
    order), and the head taken as best. */
module Ranking {
  import opened Results
  import opened Stats
  import opened Strategies

  /** A strategy of the pool with its position there and its mean time. */
  datatype Ranked = Ranked(index: nat, strategy: Strategy, mean: real)

  /** The pool paired with the means of its samples, in pool order. */
  function Tabulate(pool: seq<Strategy>, samples: seq<seq<real>>): (table: seq<Ranked>)
    requires |samples| == |pool|
    requires forall i :: 0 <= i < |samples| ==> |samples[i]| > 0
    ensures |table| == |pool|
    ensures forall i :: 0 <= i < |table| ==>
              table[i].index == i && table[i].strategy == pool[i] && table[i].mean == Mean(samples[i])
  {
    seq(|pool|, (i: int) requires 0 <= i < |pool| => Ranked(i, pool[i], Mean(samples[i])))
  }

  predicate SortedByMean(xs: seq<Ranked>)
  {
    forall i, j :: 0 <= i < j < |xs| ==> xs[i].mean <= xs[j].mean
  }

  /** Equal means appear in increasing pool position. */
  predicate TiesInPoolOrder(xs: seq<Ranked>)
  {
    forall i, j :: 0 <= i < j < |xs| && xs[i].mean == xs[j].mean ==> xs[i].index < xs[j].index
  }

  /** Pool positions strictly increase along the sequence. */
  predicate IndicesAscending(xs: seq<Ranked>)
  {
    forall i, j :: 0 <= i < j < |xs| ==> xs[i].index < xs[j].index
  }

  /** Place `x` before the first entry whose mean is not below its own. */
  function Insert(x: Ranked, sorted: seq<Ranked>): (r: seq<Ranked>)
    ensures multiset(r) == multiset(sorted) + multiset{x}
    decreases |sorted|
  {
    if |sorted| == 0 then [x]
    else if x.mean <= sorted[0].mean then [x] + sorted
    else
      assert sorted == [sorted[0]] + sorted[1..];
      [sorted[0]] + Insert(x, sorted[1..])
  }

  /** `sort(key=mean)`: insertion from the back, so an earlier entry goes in
      front of the later ones it ties with. */
  function SortByMean(xs: seq<Ranked>): (r: seq<Ranked>)
    ensures multiset(r) == multiset(xs)
    decreases |xs|
  {
    if |xs| == 0 then []
    else
      assert xs == [xs[0]] + xs[1..];
      Insert(xs[0], SortByMean(xs[1..]))
  }

  /** Insertion adds `x` and nothing else. */
  lemma InsertMembers(x: Ranked, sorted: seq<Ranked>, y: Ranked)
    requires y in Insert(x, sorted)
    ensures y == x || y in sorted
  {
    assert y in multiset(Insert(x, sorted));
  }

  /** An entry not above any mean of a sorted sequence can go in front. */
  lemma PrependSorted(x: Ranked, xs: seq<Ranked>)
    requires SortedByMean(xs)
    requires forall y :: y in xs ==> x.mean <= y.mean
    ensures SortedByMean([x] + xs)
  {
    var r := [x] + xs;
    forall i, j | 0 <= i < j < |r| ensures r[i].mean <= r[j].mean {
      if i == 0 {
        assert r[j] == xs[j - 1] && r[j] in xs;
      } else {
        assert r[i] == xs[i - 1] && r[j] == xs[j - 1];
      }
    }
  }

  /** The first entry of a sorted sequence is not above any other. */
  lemma HeadIsLeast(xs: seq<Ranked>, y: Ranked)
    requires SortedByMean(xs) && |xs| > 0 && y in xs
    ensures xs[0].mean <= y.mean
  {
    var k :| 0 <= k < |xs| && xs[k] == y;
    if k > 0 {
      assert xs[0].mean <= xs[k].mean;
    }
  }

  /** Inserting into a sorted sequence keeps it sorted. */
  lemma {:induction false} InsertSorted(x: Ranked, sorted: seq<Ranked>)
    requires SortedByMean(sorted)
    ensures SortedByMean(Insert(x, sorted))
    decreases |sorted|
  {
    if |sorted| == 0 {
    } else if x.mean <= sorted[0].mean {
      forall y | y in sorted ensures x.mean <= y.mean {
        HeadIsLeast(sorted, y);
      }
      PrependSorted(x, sorted);
    } else {
      var first, tail := sorted[0], sorted[1..];
      var rest := Insert(x, tail);
      assert SortedByMean(tail);
      InsertSorted(x, tail);
      forall y | y in rest ensures first.mean <= y.mean {
        InsertMembers(x, tail, y);
        if y != x {
          assert y in sorted;
          HeadIsLeast(sorted, y);
        }
      }
      PrependSorted(first, rest);
    }
  }

  /** An entry that precedes, in the pool, every entry it ties with can go
      in front without breaking the pool order of ties. */
  lemma PrependStable(x: Ranked, xs: seq<Ranked>)
    requires TiesInPoolOrder(xs)
    requires forall y :: y in xs && y.mean == x.mean ==> x.index < y.index
    ensures TiesInPoolOrder([x] + xs)
  {
    var r := [x] + xs;
    forall i, j | 0 <= i < j < |r| && r[i].mean == r[j].mean ensures r[i].index < r[j].index {
      if i == 0 {
        assert r[j] == xs[j - 1] && r[j] in xs;
      } else {
        assert r[i] == xs[i - 1] && r[j] == xs[j - 1];
      }
    }
  }

  /** The first entry of a sequence with ties in pool order precedes every
      later entry it ties with. */
  lemma HeadPrecedesTies(xs: seq<Ranked>, y: Ranked)
    requires TiesInPoolOrder(xs) && |xs| > 0 && y in xs[1..] && y.mean == xs[0].mean
    ensures xs[0].index < y.index
  {
    var k :| 0 <= k < |xs[1..]| && xs[1..][k] == y;
    assert xs[k + 1] == y;
  }

  /** Inserting an entry that precedes every other in the pool, into a
      stable sorted sequence, keeps ties in pool order. */
  lemma {:induction false} InsertStable(x: Ranked, sorted: seq<Ranked>)
    requires SortedByMean(sorted) && TiesInPoolOrder(sorted)
    requires forall y :: y in sorted ==> x.index < y.index
    ensures TiesInPoolOrder(Insert(x, sorted))
    decreases |sorted|
  {
    if |sorted| == 0 {
    } else if x.mean <= sorted[0].mean {
      PrependStable(x, sorted);
    } else {
      var first, tail := sorted[0], sorted[1..];
      var rest := Insert(x, tail);
      assert SortedByMean(tail) && TiesInPoolOrder(tail);
      assert forall y :: y in tail ==> y in sorted;
      InsertStable(x, tail);
      forall y | y in rest && y.mean == first.mean ensures first.index < y.index {
        InsertMembers(x, tail, y);
        HeadPrecedesTies(sorted, y);
      }
      PrependStable(first, rest);
    }
  }

  /** The ranking is sorted ascending by mean. */
  lemma {:induction false} SortSorted(xs: seq<Ranked>)
    ensures SortedByMean(SortByMean(xs))
    decreases |xs|
  {
    if |xs| > 0 {
      SortSorted(xs[1..]);
      InsertSorted(xs[0], SortByMean(xs[1..]));
    }
  }

  /** The sort is stable: for a pool listed in order, equal means keep their
      pool order. */
  lemma {:induction false} SortStable(xs: seq<Ranked>)
    requires IndicesAscending(xs)
    ensures TiesInPoolOrder(SortByMean(xs))
    decreases |xs|
  {
    if |xs| > 0 {
      var rest := SortByMean(xs[1..]);
      assert IndicesAscending(xs[1..]);
      SortStable(xs[1..]);
      SortSorted(xs[1..]);
      forall y | y in rest ensures xs[0].index < y.index {
        assert y in multiset(rest);
        assert y in multiset(xs[1..]);
        var k :| 0 <= k < |xs[1..]| && xs[1..][k] == y;
        assert xs[k + 1] == y;
      }
      InsertStable(xs[0], rest);
    }
  }

  /** Two non-empty sequences holding the same entries, both sorted by mean
      with ties in pool order, start with the same entry. */
  lemma SameHead(a: seq<Ranked>, b: seq<Ranked>)
    requires |a| > 0 && multiset(a) == multiset(b)
    requires SortedByMean(a) && TiesInPoolOrder(a)
    requires SortedByMean(b) && TiesInPoolOrder(b)
    ensures |b| > 0 && a[0] == b[0]
  {
    assert a[0] in multiset(a);
    assert a[0] in multiset(b) && b[0] in multiset(a);
    var k :| 0 <= k < |a| && a[k] == b[0];
    var m :| 0 <= m < |b| && b[m] == a[0];
  }

  /** Removing the same first entry leaves the same entries. */
  lemma SameTail(a: seq<Ranked>, b: seq<Ranked>)
    requires |a| > 0 && |b| > 0 && a[0] == b[0] && multiset(a) == multiset(b)
    ensures multiset(a[1..]) == multiset(b[1..])
  {
    assert a == [a[0]] + a[1..] && b == [b[0]] + b[1..];
    var ta, tb := multiset(a[1..]), multiset(b[1..]);
    assert multiset(a) == multiset{a[0]} + ta;
    assert multiset(b) == multiset{a[0]} + tb;
    forall z ensures ta[z] == tb[z] {
      assert (multiset{a[0]} + ta)[z] == (multiset{a[0]} + tb)[z];
    }
    assert ta == tb;
  }

  /** Two sequences holding the same entries, both sorted by mean with ties
      in pool order, are equal: the order is strict, so each position is
      determined. */
  lemma {:induction false} RankOrderUnique(a: seq<Ranked>, b: seq<Ranked>)
    requires multiset(a) == multiset(b)
    requires SortedByMean(a) && TiesInPoolOrder(a)
    requires SortedByMean(b) && TiesInPoolOrder(b)
    ensures a == b
    decreases |a|
  {
    if |a| == 0 {
      assert |multiset(b)| == 0;
    } else {
      SameHead(a, b);
      SameTail(a, b);
      RankOrderUnique(a[1..], b[1..]);
      assert a == [a[0]] + a[1..] && b == [b[0]] + b[1..];
    }
  }

  /** The ranking is the stable sort by mean: any reordering of a pool
      listed in order that is sorted by mean with ties in pool order is
      exactly `SortByMean`. */
  lemma StableSortIsUnique(xs: seq<Ranked>, r: seq<Ranked>)
    requires IndicesAscending(xs)
    requires multiset(r) == multiset(xs)
    requires SortedByMean(r) && TiesInPoolOrder(r)
    ensures r == SortByMean(xs)
  {
    SortSorted(xs);
    SortStable(xs);
    RankOrderUnique(r, SortByMean(xs));
  }

  /** `strategy_results[0]`: the head of the ranking, absent for an empty
      pool, where the program raises an index error. */
  function Best(ranked: seq<Ranked>): (b: Option<Ranked>)
    ensures b.None? <==> |ranked| == 0
    ensures b.Some? ==> b.value in ranked
  {
    if |ranked| == 0 then None else Some(ranked[0])
  }

  /** The chosen best has the least mean of the pool, and among equal
      means it is the earliest in the pool. */
  lemma BestIsMinimal(xs: seq<Ranked>)
    requires IndicesAscending(xs)
    ensures Best(SortByMean(xs)).None? <==> |xs| == 0
    ensures Best(SortByMean(xs)).Some? ==>
              var b := Best(SortByMean(xs)).value;
              b in xs &&
              forall y :: y in xs ==> b.mean <= y.mean && (y.mean == b.mean ==> b.index <= y.index)
  {
    var r := SortByMean(xs);
    assert |r| == |multiset(r)| == |multiset(xs)| == |xs|;
    if |xs| > 0 {
      SortSorted(xs);
      SortStable(xs);
      var b := r[0];
      assert b in multiset(r);
      forall y | y in xs ensures b.mean <= y.mean && (y.mean == b.mean ==> b.index <= y.index) {
        assert y in multiset(xs);
        assert y in multiset(r);
        var k :| 0 <= k < |r| && r[k] == y;
        if k > 0 {
          assert r[0].mean <= r[k].mean;
        }
      }
    }
  }

  /** The sort and the pick of the head together: the ranking holds the
      table's entries once each, sorted by mean with ties in pool order,
      and the best has the least mean, the earliest in the pool among
      equals, absent only for an empty table. */
  method Rank(table: seq<Ranked>) returns (ranked: seq<Ranked>, best: Option<Ranked>)
    requires IndicesAscending(table)
    ensures multiset(ranked) == multiset(table)
    ensures SortedByMean(ranked) && TiesInPoolOrder(ranked)
    ensures best.None? <==> |table| == 0
    ensures best.Some? ==>
              best.value in table &&
              forall y :: y in table ==>
                best.value.mean <= y.mean && (y.mean == best.value.mean ==> best.value.index <= y.index)
  {
    ranked := SortByMean(table);
    SortSorted(table);
    SortStable(table);
    BestIsMinimal(table);
    best := Best(ranked);
  }
}
