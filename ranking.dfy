/** Ordering of scored vendors: a stable sort, descending by score and by nothing else. This is
    the behaviour of Python's `list.sort(key=score, reverse=True)`, which keeps the input order
    of entries with equal scores. */
module Ranking {
  import opened VendorTypes
  import opened Seqs

  /** Non-increasing by score. */
  predicate SortedByScore(s: seq<ScoredVendor>)
  {
    forall i, j :: 0 <= i < j < |s| ==> s[i].score >= s[j].score
  }

  /** The entries of `s` whose score is exactly `v`, in their order in `s`. */
  function WithScore(s: seq<ScoredVendor>, v: real): seq<ScoredVendor>
  {
    Filter(s, (e: ScoredVendor) => e.score == v)
  }

  /** Insert `x` after every leading entry whose score is at least its own. */
  function InsertByScore(x: ScoredVendor, t: seq<ScoredVendor>): (r: seq<ScoredVendor>)
    ensures |r| == |t| + 1
  {
    if t == [] then [x]
    else if t[0].score >= x.score then [t[0]] + InsertByScore(x, t[1..])
    else [x] + t
  }

  /** The stable descending sort, as repeated insertion of the input's elements in order. */
  function SortByScore(s: seq<ScoredVendor>): (r: seq<ScoredVendor>)
    ensures |r| == |s|
  {
    if s == [] then []
    else InsertByScore(s[|s| - 1], SortByScore(s[..|s| - 1]))
  }

  lemma {:induction false} InsertKeepsSorted(x: ScoredVendor, t: seq<ScoredVendor>)
    requires SortedByScore(t)
    ensures SortedByScore(InsertByScore(x, t))
    ensures forall e :: e in InsertByScore(x, t) ==> e in t || e == x
  {
    if t != [] && t[0].score >= x.score {
      InsertKeepsSorted(x, t[1..]);
      var r := InsertByScore(x, t);
      assert r == [t[0]] + InsertByScore(x, t[1..]);
      forall i, j | 0 <= i < j < |r| ensures r[i].score >= r[j].score {
        if i == 0 {
          assert r[j] in InsertByScore(x, t[1..]);
        }
      }
    }
  }

  lemma {:induction false} InsertPermutes(x: ScoredVendor, t: seq<ScoredVendor>)
    ensures multiset(InsertByScore(x, t)) == multiset(t) + multiset{x}
  {
    if t != [] && t[0].score >= x.score {
      InsertPermutes(x, t[1..]);
      assert t == [t[0]] + t[1..];
    }
  }

  /** Inserting into a sorted sequence adds `x` after every entry of equal score. */
  lemma {:induction false} InsertStable(x: ScoredVendor, t: seq<ScoredVendor>, v: real)
    requires SortedByScore(t)
    ensures WithScore(InsertByScore(x, t), v) == WithScore(t, v) + (if x.score == v then [x] else [])
  {
    var p := (e: ScoredVendor) => e.score == v;
    if t == [] {
      assert InsertByScore(x, t) == [] + [x];
      FilterSnoc([], x, p);
    } else if t[0].score >= x.score {
      InsertStable(x, t[1..], v);
      FilterConcat([t[0]], InsertByScore(x, t[1..]), p);
      FilterConcat([t[0]], t[1..], p);
      assert t == [t[0]] + t[1..];
    } else {
      FilterConcat([x], t, p);
      if x.score == v {
        NoneWithScore(t, v);
        FilterSnoc([], x, p);
        assert [] + [x] == [x];
      } else {
        FilterSnoc([], x, p);
        assert [] + [x] == [x];
      }
    }
  }

  /** A sorted sequence whose head scores below `v` has no entry of score `v`. */
  lemma NoneWithScore(t: seq<ScoredVendor>, v: real)
    requires SortedByScore(t) && t != [] && t[0].score < v
    ensures WithScore(t, v) == []
  {
    var p := (e: ScoredVendor) => e.score == v;
    if WithScore(t, v) != [] {
      FilterMembership(t, p, WithScore(t, v)[0]);
      assert false;
    }
  }

  /** The sort orders by score, is a permutation of its input, and is stable: for every score,
      the entries with that score appear in the output exactly as in the input. */
  lemma {:induction false} SortByScoreCorrect(s: seq<ScoredVendor>)
    ensures SortedByScore(SortByScore(s))
    ensures multiset(SortByScore(s)) == multiset(s)
    ensures forall v :: WithScore(SortByScore(s), v) == WithScore(s, v)
  {
    if s != [] {
      var s' := s[..|s| - 1];
      var x := s[|s| - 1];
      assert s == s' + [x];
      SortByScoreCorrect(s');
      InsertKeepsSorted(x, SortByScore(s'));
      InsertPermutes(x, SortByScore(s'));
      forall v ensures WithScore(SortByScore(s), v) == WithScore(s, v) {
        InsertStable(x, SortByScore(s'), v);
        FilterSnoc(s', x, (e: ScoredVendor) => e.score == v);
      }
    }
  }

  /** Dropping entries from a sorted sequence leaves it sorted. */
  lemma {:induction false} FilterKeepsSorted(s: seq<ScoredVendor>, p: ScoredVendor -> bool)
    requires SortedByScore(s)
    ensures SortedByScore(Filter(s, p))
  {
    if s != [] {
      var s' := s[..|s| - 1];
      var x := s[|s| - 1];
      FilterKeepsSorted(s', p);
      var f := Filter(s', p);
      forall e | e in f ensures e.score >= x.score {
        FilterMembership(s', p, e);
      }
    }
  }

  /** `InsertByScore` places `x` just before the first entry scoring strictly less. */
  lemma {:induction false} InsertAt(x: ScoredVendor, t: seq<ScoredVendor>, j: nat)
    requires j <= |t|
    requires forall k :: 0 <= k < j ==> t[k].score >= x.score
    requires j == |t| || t[j].score < x.score
    ensures InsertByScore(x, t) == t[..j] + [x] + t[j..]
  {
    if j > 0 {
      InsertAt(x, t[1..], j - 1);
      assert t[1..][..j - 1] == t[1..j];
      assert t[1..][j - 1..] == t[j..];
      assert t[..j] == [t[0]] + t[1..j];
    }
  }

  /** Sorts scored vendors by score, highest first, keeping the input order among equal scores:
      an insertion sort that walks the input forwards. */
  method SortDescending(s: seq<ScoredVendor>) returns (r: seq<ScoredVendor>)
    ensures r == SortByScore(s)
    ensures SortedByScore(r) && multiset(r) == multiset(s)
    ensures forall v :: WithScore(r, v) == WithScore(s, v)
  {
    r := [];
    for i := 0 to |s|
      invariant r == SortByScore(s[..i])
    {
      var x := s[i];
      var j := 0;
      while j < |r| && r[j].score >= x.score
        invariant 0 <= j <= |r|
        invariant forall k :: 0 <= k < j ==> r[k].score >= x.score
      {
        j := j + 1;
      }
      InsertAt(x, r, j);
      r := r[..j] + [x] + r[j..];
      assert s[..i + 1][..i] == s[..i];
    }
    assert s[..|s|] == s;
    SortByScoreCorrect(s);
  }
}
