/** The array operations the forms use, as functions on sequences:
    `Array.prototype.filter`, `filter` by position, and `slice(0, end)`. */
module Lists {

  /** `s.filter(p)`: the elements satisfying `p`, in their original order. */
  function Filter<T>(s: seq<T>, p: T -> bool): (r: seq<T>)
  {
    if s == [] then [] else (if p(s[0]) then [s[0]] else []) + Filter(s[1..], p)
  }

  /** An element survives the filter exactly when it was there and satisfies `p`. */
  lemma {:induction false} FilterMembership<T>(s: seq<T>, p: T -> bool, x: T)
    ensures x in Filter(s, p) <==> x in s && p(x)
  {
    if s != [] {
      FilterMembership(s[1..], p, x);
      assert s == [s[0]] + s[1..];
    }
  }

  /** Filtering distributes over concatenation, which is what "keeps the original
      order" means for a filter. */
  lemma {:induction false} FilterAppend<T>(a: seq<T>, b: seq<T>, p: T -> bool)
    ensures Filter(a + b, p) == Filter(a, p) + Filter(b, p)
  {
    if a == [] {
      assert a + b == b;
    } else {
      FilterAppend(a[1..], b, p);
      assert (a + b)[0] == a[0] && (a + b)[1..] == a[1..] + b;
    }
  }

  /** A filter every element passes returns the sequence itself. */
  lemma {:induction false} FilterKeepsAll<T>(s: seq<T>, p: T -> bool)
    requires forall i :: 0 <= i < |s| ==> p(s[i])
    ensures Filter(s, p) == s
  {
    if s != [] {
      FilterKeepsAll(s[1..], p);
    }
  }

  /** A filter never lengthens a sequence, and it keeps the full length
      exactly when every element passes. */
  lemma {:induction false} FilterLength<T>(s: seq<T>, p: T -> bool)
    ensures |Filter(s, p)| <= |s|
    ensures |Filter(s, p)| == |s| <==> forall i :: 0 <= i < |s| ==> p(s[i])
  {
    if s != [] {
      var t := s[1..];
      FilterLength(t, p);
      assert Filter(s, p) == (if p(s[0]) then [s[0]] else []) + Filter(t, p);
      if forall i :: 0 <= i < |t| ==> p(t[i]) {
        if p(s[0]) {
          forall i | 0 <= i < |s| ensures p(s[i]) {
            if i > 0 { assert s[i] == t[i - 1]; }
          }
        }
      } else {
        var j :| 0 <= j < |t| && !p(t[j]);
        assert s[j + 1] == t[j];
      }
    }
  }

  /** Two predicates that agree on every element filter alike. */
  lemma {:induction false} FilterCongruent<T>(s: seq<T>, p: T -> bool, q: T -> bool)
    requires forall i :: 0 <= i < |s| ==> p(s[i]) == q(s[i])
    ensures Filter(s, p) == Filter(s, q)
  {
    if s != [] {
      FilterCongruent(s[1..], p, q);
    }
  }

  /** `s.map(f)`. */
  function Map<T, U>(s: seq<T>, f: T -> U): (r: seq<U>)
    ensures |r| == |s|
    ensures forall i :: 0 <= i < |s| ==> r[i] == f(s[i])
  {
    if s == [] then [] else [f(s[0])] + Map(s[1..], f)
  }

  /** `s.filter((_, k) => k !== i)`: drop the element at position `i`. */
  function DropIndex<T>(s: seq<T>, i: int): (r: seq<T>)
  {
    if s == [] then []
    else if i == 0 then s[1..]
    else [s[0]] + DropIndex(s[1..], i - 1)
  }

  /** Dropping position `i` removes exactly that element and keeps the others
      in order; an index outside the sequence removes nothing. */
  lemma {:induction false} DropIndexSpec<T>(s: seq<T>, i: int)
    ensures 0 <= i < |s| ==> DropIndex(s, i) == s[..i] + s[i + 1..]
    ensures !(0 <= i < |s|) ==> DropIndex(s, i) == s
  {
    if s != [] && i != 0 {
      DropIndexSpec(s[1..], i - 1);
      if 0 < i < |s| {
        assert s[1..][..i - 1] == s[1..i];
        assert s[1..][i..] == s[i + 1..];
        assert [s[0]] + s[1..i] == s[..i];
      } else {
        assert [s[0]] + s[1..] == s;
      }
    }
  }

  /** Dropping a position inside the sequence loses exactly that element. */
  lemma {:induction false} DropIndexMultiset<T>(s: seq<T>, i: nat)
    requires i < |s|
    ensures multiset(DropIndex(s, i)) + multiset{s[i]} == multiset(s)
  {
    assert s == [s[0]] + s[1..];
    if i > 0 {
      DropIndexMultiset(s[1..], i - 1);
      assert DropIndex(s, i) == [s[0]] + DropIndex(s[1..], i - 1);
    }
  }

  /** `s.filter(y => y !== x)`: every occurrence of `x` removed. */
  function RemoveAll<T(==)>(s: seq<T>, x: T): (r: seq<T>)
  {
    if s == [] then [] else (if s[0] == x then [] else [s[0]]) + RemoveAll(s[1..], x)
  }

  /** After removal `x` is gone and every other value keeps its membership. */
  lemma {:induction false} RemoveAllMembership<T>(s: seq<T>, x: T, y: T)
    ensures y in RemoveAll(s, x) <==> y in s && y != x
  {
    if s != [] {
      RemoveAllMembership(s[1..], x, y);
      assert s == [s[0]] + s[1..];
    }
  }

  /** Removing a value that does not occur returns the very same sequence. */
  lemma {:induction false} RemoveAllAbsent<T>(s: seq<T>, x: T)
    requires x !in s
    ensures RemoveAll(s, x) == s
  {
    if s != [] {
      RemoveAllAbsent(s[1..], x);
      assert s == [s[0]] + s[1..];
    }
  }

  lemma {:induction false} RemoveAllAppend<T>(a: seq<T>, b: seq<T>, x: T)
    ensures RemoveAll(a + b, x) == RemoveAll(a, x) + RemoveAll(b, x)
  {
    if a == [] {
      assert a + b == b;
    } else {
      var h := if a[0] == x then [] else [a[0]];
      assert (a + b)[0] == a[0] && (a + b)[1..] == a[1..] + b;
      assert RemoveAll(a + b, x) == h + RemoveAll(a[1..] + b, x);
      RemoveAllAppend(a[1..], b, x);
      assert RemoveAll(a, x) == h + RemoveAll(a[1..], x);
    }
  }

  /** `s.slice(0, end)` with JavaScript's rule that a negative end counts
      back from the end of the sequence. */
  function SliceTo<T>(s: seq<T>, end: int): (r: seq<T>)
    ensures |r| <= |s| && r == s[..|r|]
  {
    if end >= 0 then (if end <= |s| then s[..end] else s)
    else if |s| + end >= 0 then s[..|s| + end]
    else []
  }

  /** A non-negative `end` keeps the first `end` elements, or all of them
      when there are fewer. */
  lemma SliceToCap<T>(s: seq<T>, end: int)
    requires end >= 0
    ensures |SliceTo(s, end)| <= end
    ensures |s| <= end ==> SliceTo(s, end) == s
    ensures |s| > end ==> |SliceTo(s, end)| == end
  {
  }
}
