/**
  Order-preserving sequence operations: the `Array.prototype.filter` the card
  and connection stores are built on, and the subsequence relation that says
  "relative order is kept".
 */
module Seqs {

  /** `a` is obtained from `b` by deleting zero or more elements; the survivors keep their order. */
  predicate Subsequence<T(==)>(a: seq<T>, b: seq<T>)
    decreases |b|
  {
    if |a| == 0 then true
    else if |b| == 0 then false
    else (a[0] == b[0] && Subsequence(a[1..], b[1..])) || Subsequence(a, b[1..])
  }

  /**
    The elements of `s` that satisfy `keep`, in their original order.
    The result contains every kept element exactly as often as `s` does and
    no other element.
   */
  function Filter<T(==,!new)>(s: seq<T>, keep: T -> bool): (r: seq<T>)
    ensures forall i :: 0 <= i < |r| ==> keep(r[i])
    ensures forall x :: multiset(r)[x] == if keep(x) then multiset(s)[x] else 0
    ensures Subsequence(r, s)
    ensures |r| <= |s|
  {
    if |s| == 0 then []
    else
      assert s == [s[0]] + s[1..];
      if keep(s[0]) then [s[0]] + Filter(s[1..], keep)
      else Filter(s[1..], keep)
  }

  /** A filter that rejects nothing returns its input unchanged. */
  lemma {:induction false} FilterKeepsAll<T(!new)>(s: seq<T>, keep: T -> bool)
    requires forall i :: 0 <= i < |s| ==> keep(s[i])
    ensures Filter(s, keep) == s
  {
    if |s| > 0 {
      FilterKeepsAll(s[1..], keep);
      assert s == [s[0]] + s[1..];
    }
  }

  /** Every element of a subsequence occurs in the larger sequence. */
  lemma {:induction false} SubsequenceMembers<T>(a: seq<T>, b: seq<T>)
    requires Subsequence(a, b)
    ensures forall x :: x in a ==> x in b
    decreases |b|
  {
    if |a| > 0 {
      if a[0] == b[0] && Subsequence(a[1..], b[1..]) {
        SubsequenceMembers(a[1..], b[1..]);
        assert a == [a[0]] + a[1..];
        assert b == [b[0]] + b[1..];
      } else {
        SubsequenceMembers(a, b[1..]);
        assert b == [b[0]] + b[1..];
      }
    }
  }

  /** A subsequence occurs in the larger sequence no more often, element by element. */
  lemma {:induction false} SubsequenceMultiset<T>(a: seq<T>, b: seq<T>)
    requires Subsequence(a, b)
    ensures multiset(a) <= multiset(b)
    decreases |b|
  {
    if |a| > 0 {
      assert b == [b[0]] + b[1..];
      if a[0] == b[0] && Subsequence(a[1..], b[1..]) {
        SubsequenceMultiset(a[1..], b[1..]);
        assert a == [a[0]] + a[1..];
      } else {
        SubsequenceMultiset(a, b[1..]);
      }
    }
  }

  /** A relation that holds between every earlier and later element of `s`. */
  predicate Pairwise<T>(s: seq<T>, rel: (T, T) -> bool)
  {
    forall i, j :: 0 <= i < j < |s| ==> rel(s[i], s[j])
  }

  /** Deleting elements keeps every ordered pair that survives in the same order. */
  lemma {:induction false} SubsequencePairwise<T>(a: seq<T>, b: seq<T>, rel: (T, T) -> bool)
    requires Subsequence(a, b)
    requires Pairwise(b, rel)
    ensures Pairwise(a, rel)
    decreases |b|
  {
    if |a| > 0 {
      if a[0] == b[0] && Subsequence(a[1..], b[1..]) {
        SubsequencePairwise(a[1..], b[1..], rel);
        SubsequenceMembers(a[1..], b[1..]);
        forall i, j | 0 <= i < j < |a|
          ensures rel(a[i], a[j])
        {
          if i == 0 {
            assert a[j] == a[1..][j - 1];
            assert a[j] in a[1..];
            var k :| 0 <= k < |b[1..]| && b[1..][k] == a[j];
            assert rel(b[0], b[k + 1]);
          } else {
            assert a[i] == a[1..][i - 1] && a[j] == a[1..][j - 1];
          }
        }
      } else {
        SubsequencePairwise(a, b[1..], rel);
      }
    }
  }

  /**
    Filter is the only order-preserving selection: any subsequence of `s`
    that holds each kept element exactly as often as `s` and nothing else
    is `Filter(s, keep)`.
   */
  lemma {:induction false} FilterUnique<T(!new)>(s: seq<T>, keep: T -> bool, r: seq<T>)
    requires Subsequence(r, s)
    requires forall x :: multiset(r)[x] == if keep(x) then multiset(s)[x] else 0
    ensures r == Filter(s, keep)
    decreases |s|
  {
    if |s| == 0 {
      assert |r| == 0;
    } else {
      assert s == [s[0]] + s[1..];
      var rest := s[1..];
      if keep(s[0]) {
        assert multiset(r)[s[0]] == multiset(s)[s[0]] > 0;
        assert |r| > 0;
        if !(r[0] == s[0] && Subsequence(r[1..], rest)) {
          SubsequenceMultiset(r, rest);
          assert false;
        }
        assert r == [r[0]] + r[1..];
        forall x ensures multiset(r[1..])[x] == if keep(x) then multiset(rest)[x] else 0 {
          assert multiset(r)[x] == multiset(r[1..])[x] + (if x == s[0] then 1 else 0);
          assert multiset(s)[x] == multiset(rest)[x] + (if x == s[0] then 1 else 0);
        }
        FilterUnique(rest, keep, r[1..]);
      } else {
        assert multiset(r)[s[0]] == 0;
        if |r| > 0 {
          assert r[0] in multiset(r);
        }
        assert Subsequence(r, rest);
        forall x ensures multiset(r)[x] == if keep(x) then multiset(rest)[x] else 0 {
          assert multiset(s)[x] == multiset(rest)[x] + (if x == s[0] then 1 else 0);
        }
        FilterUnique(rest, keep, r);
      }
    }
  }
}
