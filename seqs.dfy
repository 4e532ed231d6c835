/** Order-preserving selection from a sequence: the shape of every `for ... { if p { append } }`
    loop in the program. */
module Seqs {

  /** The elements of `s` that satisfy `p`, in the order they occur in `s`. */
  function Filter<T(!new)>(p: T -> bool, s: seq<T>): (r: seq<T>)
    ensures |r| <= |s|
  {
    if s == [] then []
    else (if p(s[0]) then [s[0]] else []) + Filter(p, s[1..])
  }

  /** Exactly the elements of `s` that satisfy `p` are selected. */
  lemma {:induction false} FilterMembers<T(!new)>(p: T -> bool, s: seq<T>)
    ensures forall x :: x in Filter(p, s) <==> x in s && p(x)
  {
    if s != [] {
      FilterMembers(p, s[1..]);
      assert s == [s[0]] + s[1..];
    }
  }

  /** Nothing is selected when no element satisfies `p`. */
  lemma {:induction false} FilterNone<T(!new)>(p: T -> bool, s: seq<T>)
    requires forall x :: x in s ==> !p(x)
    ensures Filter(p, s) == []
  {
    if s != [] {
      assert s[0] in s;
      assert forall x :: x in s[1..] ==> x in s;
      FilterNone(p, s[1..]);
    }
  }

  /** Selecting from a concatenation selects from each part, keeping the parts in order. */
  lemma {:induction false} FilterAppend<T(!new)>(p: T -> bool, a: seq<T>, b: seq<T>)
    ensures Filter(p, a + b) == Filter(p, a) + Filter(p, b)
  {
    if a == [] {
      assert a + b == b;
    } else {
      var head := if p(a[0]) then [a[0]] else [];
      assert (a + b)[0] == a[0];
      assert (a + b)[1..] == a[1..] + b;
      assert Filter(p, a + b) == head + Filter(p, a[1..] + b);
      assert Filter(p, a) == head + Filter(p, a[1..]);
      FilterAppend(p, a[1..], b);
      assert head + (Filter(p, a[1..]) + Filter(p, b)) == (head + Filter(p, a[1..])) + Filter(p, b);
    }
  }

  /** Every occurrence of a selected value is kept, and no other value occurs. */
  lemma {:induction false} FilterCount<T(!new)>(p: T -> bool, s: seq<T>, x: T)
    ensures multiset(Filter(p, s))[x] == if p(x) then multiset(s)[x] else 0
  {
    if s != [] {
      assert s == [s[0]] + s[1..];
      FilterCount(p, s[1..], x);
    }
  }

  /** `idx` picks, at strictly increasing positions of `b`, the elements of `a`. */
  ghost predicate Embeds<T>(a: seq<T>, b: seq<T>, idx: seq<nat>)
  {
    && |idx| == |a|
    && (forall i :: 0 <= i < |idx| ==> idx[i] < |b| && a[i] == b[idx[i]])
    && (forall i, j :: 0 <= i < j < |idx| ==> idx[i] < idx[j])
  }

  /** `a` is `b` with some elements left out and none moved. */
  ghost predicate IsSubsequence<T>(a: seq<T>, b: seq<T>)
  {
    exists idx :: Embeds(a, b, idx)
  }

  /** Every position moved one place to the right. */
  function Shift(idx: seq<nat>): seq<nat>
  {
    seq(|idx|, k requires 0 <= k < |idx| => idx[k] + 1)
  }

  /** An embedding into the tail of `b` is one into `b`, and the first element of `b` can go in front of it. */
  lemma EmbedsInTail<T>(a: seq<T>, b: seq<T>, idx: seq<nat>)
    requires b != [] && Embeds(a, b[1..], idx)
    ensures Embeds(a, b, Shift(idx))
    ensures Embeds([b[0]] + a, b, [0] + Shift(idx))
  {
  }

  /** Selection neither adds nor reorders elements. */
  lemma {:induction false} FilterIsSubsequence<T(!new)>(p: T -> bool, s: seq<T>)
    ensures IsSubsequence(Filter(p, s), s)
  {
    if s == [] {
      assert Embeds(Filter(p, s), s, []);
    } else {
      FilterIsSubsequence(p, s[1..]);
      var rest := Filter(p, s[1..]);
      var idx :| Embeds(rest, s[1..], idx);
      EmbedsInTail(rest, s, idx);
      if p(s[0]) {
        assert Filter(p, s) == [s[0]] + rest;
        assert Embeds(Filter(p, s), s, [0] + Shift(idx));
      } else {
        assert Filter(p, s) == rest;
        assert Embeds(Filter(p, s), s, Shift(idx));
      }
    }
  }
}
