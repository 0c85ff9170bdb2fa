// Shared vocabulary: optional values and a few facts about sequences.
module Prelude {

  datatype Option<+T> = None | Some(value: T)

  // JavaScript's slice(-n): the last n elements for a positive n, the whole
  // sequence for n == 0, and all but the first -n elements for a negative n.
  function SliceFromEnd<T>(s: seq<T>, n: int): (r: seq<T>)
    ensures n > 0 ==> |r| == if n < |s| then n else |s|
    ensures n <= 0 ==> |r| == if -n < |s| then |s| + n else 0
    ensures exists k :: 0 <= k <= |s| && r == s[k..]
  {
    var k := if n > 0 then (if n < |s| then |s| - n else 0) else (if -n < |s| then -n else |s|);
    s[k..]
  }

  // The elements of "a" occur in "b" in the same order; elements of "b" may be missing.
  predicate Subsequence<T(==)>(a: seq<T>, b: seq<T>) {
    if a == [] then true
    else if b == [] then false
    else if a[0] == b[0] then Subsequence(a[1..], b[1..])
    else Subsequence(a, b[1..])
  }

  lemma {:induction false} SubsequenceRefl<T>(a: seq<T>)
    ensures Subsequence(a, a)
  {
    if a != [] { SubsequenceRefl(a[1..]); }
  }

  // Dropping the first element of a subsequence leaves a subsequence.
  lemma {:induction false} SubsequenceTail<T>(a: seq<T>, b: seq<T>)
    requires a != [] && Subsequence(a, b)
    ensures Subsequence(a[1..], b)
    decreases |b|, 0
  {
    if a[0] == b[0] {
      SubsequenceSkip(a[1..], b[0], b[1..]);
      assert [b[0]] + b[1..] == b;
    } else {
      SubsequenceTail(a, b[1..]);
      SubsequenceSkip(a[1..], b[0], b[1..]);
      assert [b[0]] + b[1..] == b;
    }
  }

  lemma {:induction false} SubsequenceSkip<T>(a: seq<T>, x: T, b: seq<T>)
    requires Subsequence(a, b)
    ensures Subsequence(a, [x] + b)
    decreases |b|, 1
  {
    assert ([x] + b)[1..] == b;
    if a != [] && a[0] == x {
      SubsequenceTail(a, b);
    }
  }

  // Appending the same elements to both sides.
  lemma {:induction false} SubsequenceAppend<T>(a: seq<T>, b: seq<T>, c: seq<T>)
    requires Subsequence(a, b)
    ensures Subsequence(a + c, b + c)
    decreases |b|
  {
    if a == [] {
      SubsequenceSuffix(b, c);
      assert a + c == c;
    } else {
      assert (a + c)[1..] == a[1..] + c;
      assert (b + c)[1..] == b[1..] + c;
      if a[0] == b[0] {
        SubsequenceAppend(a[1..], b[1..], c);
      } else {
        SubsequenceAppend(a, b[1..], c);
      }
    }
  }

  lemma {:induction false} SubsequenceSuffix<T>(b: seq<T>, c: seq<T>)
    ensures Subsequence(c, b + c)
  {
    if b == [] {
      assert b + c == c;
      SubsequenceRefl(c);
    } else {
      SubsequenceSuffix(b[1..], c);
      SubsequenceSkip(c, b[0], b[1..] + c);
      assert [b[0]] + (b[1..] + c) == b + c;
    }
  }

  // Forgetting a suffix of a subsequence leaves a subsequence.
  lemma {:induction false} SubsequencePrefix<T>(a: seq<T>, c: seq<T>, b: seq<T>)
    requires Subsequence(a + c, b)
    ensures Subsequence(a, b)
    decreases |b|
  {
    if a != [] {
      assert (a + c)[1..] == a[1..] + c;
      if a[0] == b[0] {
        SubsequencePrefix(a[1..], c, b[1..]);
      } else {
        SubsequencePrefix(a, c, b[1..]);
      }
    }
  }

  // One more element at the end of the longer, taken or left out.
  lemma SubsequenceSnoc<T>(a: seq<T>, b: seq<T>, x: T)
    requires Subsequence(a, b)
    ensures Subsequence(a + [x], b + [x]) && Subsequence(a, b + [x])
  {
    SubsequenceAppend(a, b, [x]);
    SubsequencePrefix(a, [x], b + [x]);
  }

  // A subsequence is shorter unless nothing is missing.
  lemma {:induction false} SubsequenceLength<T>(a: seq<T>, b: seq<T>)
    requires Subsequence(a, b)
    ensures |a| <= |b|
    ensures |a| == |b| ==> a == b
    decreases |b|
  {
    if a != [] {
      if a[0] == b[0] {
        SubsequenceLength(a[1..], b[1..]);
        assert a == [a[0]] + a[1..] && b == [b[0]] + b[1..];
      } else {
        SubsequenceLength(a, b[1..]);
      }
    }
  }

  // Folding from the first element, and by taking off the last one.
  function FoldFirst<S, E>(f: (S, E) -> S, s: S, es: seq<E>): S
    decreases |es|
  {
    if es == [] then s else FoldFirst(f, f(s, es[0]), es[1..])
  }

  function FoldLast<S, E>(f: (S, E) -> S, s: S, es: seq<E>): S {
    if es == [] then s else f(FoldLast(f, s, es[..|es| - 1]), es[|es| - 1])
  }

  lemma {:induction false} FoldFirstSnoc<S, E>(f: (S, E) -> S, s: S, es: seq<E>, e: E)
    ensures FoldFirst(f, s, es + [e]) == f(FoldFirst(f, s, es), e)
    decreases |es|
  {
    if es == [] {
      assert es + [e] == [e] && [e][1..] == [];
    } else {
      assert (es + [e])[1..] == es[1..] + [e];
      FoldFirstSnoc(f, f(s, es[0]), es[1..], e);
    }
  }

  lemma {:induction false} FoldsAgree<S, E>(f: (S, E) -> S, s: S, es: seq<E>)
    ensures FoldLast(f, s, es) == FoldFirst(f, s, es)
  {
    if es != [] {
      var n := |es| - 1;
      FoldsAgree(f, s, es[..n]);
      FoldFirstSnoc(f, s, es[..n], es[n]);
      assert es == es[..n] + [es[n]];
    }
  }
}
