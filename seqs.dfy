/** The order-preserving collection operations the rules are written with:
    Swift's `filter`, `first(where:)` and `flatMap` over arrays. */
module Seqs {
  import opened Wrappers

  /** The elements of `s` that satisfy `p`, in their original order. */
  function Filter<T(!new)>(s: seq<T>, p: T -> bool): (r: seq<T>)
    ensures |r| <= |s|
    ensures forall x :: x in r <==> x in s && p(x)
  {
    if s == [] then []
    else (if p(s[0]) then [s[0]] else []) + Filter(s[1..], p)
  }

  /** Filtering distributes over concatenation, so the kept elements stay in
      document order: those from `a` all come before those from `b`. */
  lemma {:induction false} FilterAppend<T(!new)>(a: seq<T>, b: seq<T>, p: T -> bool)
    ensures Filter(a + b, p) == Filter(a, p) + Filter(b, p)
  {
    if a == [] {
      assert a + b == b;
    } else {
      assert (a + b)[1..] == a[1..] + b;
      FilterAppend(a[1..], b, p);
    }
  }

  /** Nothing is kept of a sequence none of whose elements satisfy `p`. */
  lemma {:induction false} FilterNone<T(!new)>(s: seq<T>, p: T -> bool)
    requires forall i :: 0 <= i < |s| ==> !p(s[i])
    ensures Filter(s, p) == []
  {
    if s != [] {
      FilterNone(s[1..], p);
    }
  }

  /** A sequence all of whose elements satisfy `p` is left as it is. */
  lemma {:induction false} FilterAll<T(!new)>(s: seq<T>, p: T -> bool)
    requires forall i :: 0 <= i < |s| ==> p(s[i])
    ensures Filter(s, p) == s
  {
    if s != [] {
      FilterAll(s[1..], p);
    }
  }

  /** The first element of `s` that satisfies `p`: the head of the filtered sequence. */
  function First<T(!new)>(s: seq<T>, p: T -> bool): (r: Option<T>)
    ensures r.None? <==> Filter(s, p) == []
    ensures r.Some? ==> r.value == Filter(s, p)[0]
  {
    if s == [] then None
    else if p(s[0]) then Some(s[0])
    else First(s[1..], p)
  }

  /** `First` finds the earliest element that satisfies `p`, whatever follows it. */
  lemma {:induction false} FirstIsEarliest<T(!new)>(s: seq<T>, p: T -> bool, i: nat)
    requires i < |s| && p(s[i])
    requires forall j :: 0 <= j < i ==> !p(s[j])
    ensures First(s, p) == Some(s[i])
  {
    if i > 0 {
      FirstIsEarliest(s[1..], p, i - 1);
    }
  }

  /** `First` finds nothing exactly when no element satisfies `p`. */
  lemma FirstNone<T(!new)>(s: seq<T>, p: T -> bool)
    ensures First(s, p).None? <==> forall i :: 0 <= i < |s| ==> !p(s[i])
  {
    if First(s, p).None? {
      forall i | 0 <= i < |s| ensures !p(s[i]) {
        assert s[i] in s;
      }
    } else {
      assert Filter(s, p)[0] in Filter(s, p);
    }
  }

  /** The concatenation of `f(x)` for every `x` of `s`, in order. */
  function FlatMap<T, U(!new)>(s: seq<T>, f: T -> seq<U>): (r: seq<U>)
    ensures r == [] <==> forall i :: 0 <= i < |s| ==> f(s[i]) == []
    ensures forall y :: y in r <==> exists i :: 0 <= i < |s| && y in f(s[i])
  {
    if s == [] then []
    else
      var rest := FlatMap(s[1..], f);
      assert forall y :: y in rest <==> exists i :: 1 <= i < |s| && y in f(s[i]) by {
        forall y | y in rest ensures exists i :: 1 <= i < |s| && y in f(s[i]) {
          var j :| 0 <= j < |s[1..]| && y in f(s[1..][j]);
          assert s[1..][j] == s[j + 1];
        }
        forall y, i | 1 <= i < |s| && y in f(s[i]) ensures y in rest {
          assert s[i] == s[1..][i - 1];
        }
      }
      assert (forall i :: 0 <= i < |s| ==> f(s[i]) == []) <==>
             f(s[0]) == [] && forall i :: 0 <= i < |s[1..]| ==> f(s[1..][i]) == [] by {
        if forall i :: 0 <= i < |s[1..]| ==> f(s[1..][i]) == [] {
          forall i | 1 <= i < |s| ensures f(s[i]) == [] {
            assert s[i] == s[1..][i - 1];
          }
        }
      }
      f(s[0]) + rest
  }

  /** Flat-mapping distributes over concatenation: the parts produced for `a`
      come first, in order, followed by those for `b`. */
  lemma {:induction false} FlatMapAppend<T, U(!new)>(a: seq<T>, b: seq<T>, f: T -> seq<U>)
    ensures FlatMap(a + b, f) == FlatMap(a, f) + FlatMap(b, f)
  {
    if a == [] {
      assert a + b == b;
    } else {
      assert (a + b)[1..] == a[1..] + b;
      FlatMapAppend(a[1..], b, f);
    }
  }

  /** Flat-mapping with two functions that agree on every element gives the same result. */
  lemma {:induction false} FlatMapAgree<T, U(!new)>(s: seq<T>, f: T -> seq<U>, g: T -> seq<U>)
    requires forall i :: 0 <= i < |s| ==> f(s[i]) == g(s[i])
    ensures FlatMap(s, f) == FlatMap(s, g)
  {
    if s != [] {
      FlatMapAgree(s[1..], f, g);
    }
  }
}
