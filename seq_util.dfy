/**
 * Sequence operations the ledger and its views are built from: JavaScript's
 * `Array.prototype.filter` and `Array.prototype.find` (first match), the
 * "is a subsequence of" relation used to state that a view keeps order,
 * uniqueness of identifiers, and the `Option` type standing for JavaScript's
 * nullable values (a `find` result, a missing borrower, no account).
 */
module SeqUtil {

  /** JavaScript's `T | null` and `T | undefined`. */
  datatype Option<T> = None | Some(value: T)

  /** `s.filter(p)`: the elements of `s` satisfying `p`, in their original order. */
  function Filter<T(==,!new)>(s: seq<T>, p: T -> bool): (r: seq<T>)
    ensures |r| <= |s|
    ensures forall x :: x in r <==> x in s && p(x)
  {
    if s == [] then []
    else
      var rest := Filter(s[1..], p);
      assert s == [s[0]] + s[1..];
      if p(s[0]) then [s[0]] + rest else rest
  }

  /** A filter keeps every element satisfying `p` as often as it occurs, and drops the others. */
  lemma {:induction false} FilterMultiplicity<T(!new)>(s: seq<T>, p: T -> bool, x: T)
    ensures multiset(Filter(s, p))[x] == if p(x) then multiset(s)[x] else 0
    decreases |s|
  {
    if s != [] {
      FilterMultiplicity(s[1..], p, x);
      assert s == [s[0]] + s[1..];
    }
  }

  lemma FilterMultiplicities<T(!new)>(s: seq<T>, p: T -> bool)
    ensures forall x :: multiset(Filter(s, p))[x] == if p(x) then multiset(s)[x] else 0
  {
    forall x ensures multiset(Filter(s, p))[x] == if p(x) then multiset(s)[x] else 0 {
      FilterMultiplicity(s, p, x);
    }
  }

  /** Two filters with predicates that never hold together select at most `|s|` elements between them. */
  lemma {:induction false} FilterDisjointSizes<T(!new)>(s: seq<T>, p: T -> bool, q: T -> bool)
    requires forall i :: 0 <= i < |s| ==> !(p(s[i]) && q(s[i]))
    ensures |Filter(s, p)| + |Filter(s, q)| <= |s|
    decreases |s|
  {
    if s != [] {
      FilterDisjointSizes(s[1..], p, q);
    }
  }

  /** `a` can be obtained from `b` by deleting elements (order is kept). */
  predicate Subseq<T(==)>(a: seq<T>, b: seq<T>)
    decreases |b|
  {
    if b == [] then a == []
    else (a != [] && a[0] == b[0] && Subseq(a[1..], b[1..])) || Subseq(a, b[1..])
  }

  /** Every sequence is a subsequence of itself. */
  lemma {:induction false} SubseqRefl<T>(s: seq<T>)
    ensures Subseq(s, s)
    decreases |s|
  {
    if s != [] {
      SubseqRefl(s[1..]);
    }
  }

  /** A filter result is an order-preserving selection of its input. */
  lemma {:induction false} FilterIsSubseq<T(!new)>(s: seq<T>, p: T -> bool)
    ensures Subseq(Filter(s, p), s)
    decreases |s|
  {
    if s != [] {
      FilterIsSubseq(s[1..], p);
    }
  }

  /** Filtering distributes over concatenation. */
  lemma {:induction false} FilterAppend<T(!new)>(a: seq<T>, b: seq<T>, p: T -> bool)
    ensures Filter(a + b, p) == Filter(a, p) + Filter(b, p)
    decreases |a|
  {
    if a != [] {
      var ab := a + b;
      assert ab[0] == a[0] && ab[1..] == a[1..] + b;
      FilterAppend(a[1..], b, p);
      var head := if p(a[0]) then [a[0]] else [];
      assert Filter(ab, p) == head + Filter(ab[1..], p);
      assert Filter(a, p) == head + Filter(a[1..], p);
    } else {
      assert a + b == b;
    }
  }

  /** Filtering with a predicate every element satisfies changes nothing. */
  lemma {:induction false} FilterKeepsAll<T(!new)>(s: seq<T>, p: T -> bool)
    requires forall i :: 0 <= i < |s| ==> p(s[i])
    ensures Filter(s, p) == s
    decreases |s|
  {
    if s != [] {
      FilterKeepsAll(s[1..], p);
    }
  }

  /** Filtering with a predicate no element satisfies leaves nothing. */
  lemma {:induction false} FilterKeepsNone<T(!new)>(s: seq<T>, p: T -> bool)
    requires forall i :: 0 <= i < |s| ==> !p(s[i])
    ensures Filter(s, p) == []
    decreases |s|
  {
    if s != [] {
      FilterKeepsNone(s[1..], p);
    }
  }

  /** Two successive filters may be applied in either order. */
  lemma {:induction false} FilterCommutes<T(!new)>(s: seq<T>, p: T -> bool, q: T -> bool)
    ensures Filter(Filter(s, p), q) == Filter(Filter(s, q), p)
    decreases |s|
  {
    if s != [] {
      FilterCommutes(s[1..], p, q);
      var x := s[0];
      var fp, fq := Filter(s[1..], p), Filter(s[1..], q);
      if p(x) {
        assert Filter(s, p) == [x] + fp;
        assert Filter([x] + fp, q) == (if q(x) then [x] else []) + Filter(fp, q) by {
          assert ([x] + fp)[1..] == fp;
        }
      } else {
        assert Filter(s, p) == fp;
      }
      if q(x) {
        assert Filter(s, q) == [x] + fq;
        assert Filter([x] + fq, p) == (if p(x) then [x] else []) + Filter(fq, p) by {
          assert ([x] + fq)[1..] == fq;
        }
      } else {
        assert Filter(s, q) == fq;
      }
    }
  }

  /** `s.findIndex(x => x === key)` as an option: the FIRST position holding `key`. */
  function FirstIndex<T(==)>(s: seq<T>, key: T): (r: Option<nat>)
    ensures r.Some? ==> r.value < |s| && s[r.value] == key
    ensures r.Some? ==> forall j :: 0 <= j < r.value ==> s[j] != key
    ensures r.None? <==> key !in s
  {
    if s == [] then None
    else if s[0] == key then Some(0)
    else
      match FirstIndex(s[1..], key)
      case None => None
      case Some(k) => Some(k + 1)
  }

  /** No value occurs twice. */
  predicate Unique<T(==)>(s: seq<T>) {
    forall i, j :: 0 <= i < j < |s| ==> s[i] != s[j]
  }

  /** In a sequence without repetitions the first position of an element is its only one. */
  lemma FirstIndexOfUnique<T>(s: seq<T>, k: nat)
    requires Unique(s) && k < |s|
    ensures FirstIndex(s, s[k]) == Some(k)
  {
    assert s[k] in s;
  }

  /** Appending an element that is not yet present keeps a sequence free of repetitions. */
  lemma UniqueAppend<T>(s: seq<T>, x: T)
    requires Unique(s) && x !in s
    ensures Unique(s + [x])
  {
    forall i, j | 0 <= i < j < |s + [x]|
      ensures (s + [x])[i] != (s + [x])[j]
    {
      if j == |s| {
        assert (s + [x])[i] == s[i];
      }
    }
  }
}
