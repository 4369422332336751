/** `Array.prototype.filter` and the facts about it that the list updates
    of the views rely on. */
module Seqs {

  /** `s.filter(keep)`: the elements of `s` that `keep` accepts, in order. */
  function Filter<T(==)>(s: seq<T>, keep: T -> bool): (r: seq<T>)
    ensures |r| <= |s|
    ensures forall i :: 0 <= i < |r| ==> keep(r[i]) && r[i] in s
    ensures forall i :: 0 <= i < |s| && keep(s[i]) ==> s[i] in r
  {
    if s == [] then [] else (if keep(s[0]) then [s[0]] else []) + Filter(s[1..], keep)
  }

  /** Filtering works element by element, so it keeps relative order. */
  lemma {:induction false} FilterAppend<T>(a: seq<T>, b: seq<T>, keep: T -> bool)
    ensures Filter(a + b, keep) == Filter(a, keep) + Filter(b, keep)
  {
    if a == [] {
      assert a + b == b;
    } else {
      assert (a + b)[1..] == a[1..] + b;
      FilterAppend(a[1..], b, keep);
      assert (a + b)[0] == a[0];
    }
  }

  /** A filter that accepts every element changes nothing. */
  lemma {:induction false} FilterKeepsAll<T>(s: seq<T>, keep: T -> bool)
    requires forall i :: 0 <= i < |s| ==> keep(s[i])
    ensures Filter(s, keep) == s
  {
    if s != [] {
      FilterKeepsAll(s[1..], keep);
      assert [s[0]] + s[1..] == s;
    }
  }

  /** A filter that rejects exactly one position drops exactly that element. */
  lemma {:induction false} FilterDropsOne<T>(s: seq<T>, i: int, keep: T -> bool)
    requires 0 <= i < |s| && !keep(s[i])
    requires forall j :: 0 <= j < |s| && j != i ==> keep(s[j])
    ensures Filter(s, keep) == s[..i] + s[i + 1..]
  {
    if i == 0 {
      FilterKeepsAll(s[1..], keep);
    } else {
      FilterDropsOne(s[1..], i - 1, keep);
      assert s[..i] + s[i + 1..] == [s[0]] + (s[1..][..i - 1] + s[1..][i..]);
    }
  }

  /** Every element lands on exactly one side of a filter and of its
      complement `drop`. */
  lemma FilterSplitsCount<T>(s: seq<T>, keep: T -> bool, drop: T -> bool)
    requires forall i :: 0 <= i < |s| ==> drop(s[i]) == !keep(s[i])
    ensures |Filter(s, keep)| + |Filter(s, drop)| == |s|
    ensures multiset(Filter(s, keep)) + multiset(Filter(s, drop)) == multiset(s)
  {
    FilterSplits(s, keep, drop);
    assert |multiset(Filter(s, keep)) + multiset(Filter(s, drop))| == |multiset(s)|;
  }

  lemma {:induction false} FilterSplits<T>(s: seq<T>, keep: T -> bool, drop: T -> bool)
    requires forall i :: 0 <= i < |s| ==> drop(s[i]) == !keep(s[i])
    ensures multiset(Filter(s, keep)) + multiset(Filter(s, drop)) == multiset(s)
  {
    if s != [] {
      var rest := s[1..];
      FilterSplits(rest, keep, drop);
      var fk, fd := Filter(rest, keep), Filter(rest, drop);
      assert multiset(s) == multiset{s[0]} + multiset(rest) by {
        assert s == [s[0]] + rest;
      }
      if keep(s[0]) {
        assert Filter(s, keep) == [s[0]] + fk;
        assert Filter(s, drop) == fd;
        assert multiset([s[0]] + fk) == multiset{s[0]} + multiset(fk);
      } else {
        assert Filter(s, keep) == fk;
        assert Filter(s, drop) == [s[0]] + fd;
        assert multiset([s[0]] + fd) == multiset{s[0]} + multiset(fd);
      }
    }
  }

  /** No element occurs twice. */
  predicate Distinct<T(==)>(s: seq<T>) {
    forall i, j :: 0 <= i < j < |s| ==> s[i] != s[j]
  }

  function Elements<T(==)>(s: seq<T>): set<T> {
    set x | x in s
  }

  /** A sequence without repetitions has as many elements as its set. */
  lemma {:induction false} DistinctCardinality<T>(s: seq<T>)
    requires Distinct(s)
    ensures |Elements(s)| == |s|
  {
    if s != [] {
      DistinctCardinality(s[1..]);
      assert Elements(s) == Elements(s[1..]) + {s[0]};
      assert forall j :: 0 <= j < |s| - 1 ==> s[1..][j] == s[j + 1];
      assert s[0] !in Elements(s[1..]);
    }
  }

  /** A subset as large as its superset is the whole set. */
  lemma SubsetSameSize<T>(s: set<T>, b: set<T>)
    requires s <= b && |s| == |b|
    ensures s == b
  {
    assert b == s + (b - s);
    assert |b| == |s| + |b - s|;
  }

  /** For repetition-free sequences whose elements all occur in `all`,
      being as long as `all` is the same as holding every element of it. */
  lemma CoversAllIffSameLength<T>(sub: seq<T>, all: seq<T>)
    requires Distinct(sub) && Distinct(all)
    requires forall i :: 0 <= i < |sub| ==> sub[i] in all
    ensures |sub| == |all| <==> forall i :: 0 <= i < |all| ==> all[i] in sub
  {
    DistinctCardinality(sub);
    DistinctCardinality(all);
    var s, b := Elements(sub), Elements(all);
    assert s <= b;
    if |sub| == |all| {
      SubsetSameSize(s, b);
      forall i | 0 <= i < |all| ensures all[i] in sub {
        assert all[i] in b;
      }
    }
    if forall i :: 0 <= i < |all| ==> all[i] in sub {
      assert b <= s;
      assert s == b;
    }
  }
}
