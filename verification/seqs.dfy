/** Sequence helpers mirroring the Python list and deque operations the
    backend relies on. */
module Seqs {

  /** The last `n` elements of `s` (all of `s` when it is shorter): what a
      `deque(maxlen=n)` keeps and what `s[-n:]` returns for `n > 0`. */
  function Suffix<T>(s: seq<T>, n: nat): (r: seq<T>)
    ensures |r| == if |s| <= n then |s| else n
    ensures r == s[|s| - |r|..]
  {
    if |s| <= n then s else s[|s| - n..]
  }

  /** Python's `s[start:]`: a negative start counts from the end, and both
      ends are clamped to the list. */
  function SliceFrom<T>(s: seq<T>, start: int): (r: seq<T>)
    ensures start >= 0 ==> r == (if start <= |s| then s[start..] else [])
    ensures start < 0 ==> r == Suffix(s, -start)
  {
    var from := if start < 0 then |s| + start else start;
    if from <= 0 then s
    else if from >= |s| then []
    else s[from..]
  }

  /** Python's `list.remove(x)` guarded by `x in list`: drops the first
      occurrence of `x`, and leaves a list without `x` unchanged. */
  function Remove<T(==)>(s: seq<T>, x: T): (r: seq<T>)
    ensures x !in s ==> r == s
    ensures x in s ==> |r| == |s| - 1
    ensures multiset(r) == multiset(s) - multiset{x}
  {
    if s == [] then []
    else if s[0] == x then assert s == [s[0]] + s[1..]; s[1..]
    else assert s == [s[0]] + s[1..]; [s[0]] + Remove(s[1..], x)
  }

  /** Position of the first occurrence of `x` in `s`: Python's `list.index`. */
  function FirstIndex<T(==)>(s: seq<T>, x: T): (i: nat)
    requires x in s
    ensures i < |s| && s[i] == x
    ensures x !in s[..i]
  {
    if s[0] == x then 0
    else
      assert x in s[1..] by { assert s == [s[0]] + s[1..]; }
      var k := FirstIndex(s[1..], x);
      assert s[..k + 1] == [s[0]] + s[1..][..k];
      k + 1
  }

  /** Cutting the tail of `s` at `k` and putting the head back is cutting
      `s` at `k + 1`. */
  lemma HeadAroundCut<T>(s: seq<T>, k: nat)
    requires k + 1 < |s|
    ensures [s[0]] + (s[1..][..k] + s[1..][k + 1..]) == s[..k + 1] + s[k + 2..]
  {
    assert s[..k + 1] == [s[0]] + s[1..][..k];
    assert s[k + 2..] == s[1..][k + 1..];
    AppendAssoc([s[0]], s[1..][..k], s[1..][k + 1..]);
  }

  /** `Remove` takes out exactly the first occurrence of `x`: everything
      before it and everything after it stays, in order. */
  lemma {:induction false} RemoveFirst<T>(s: seq<T>, x: T)
    requires x in s
    ensures Remove(s, x) == s[..FirstIndex(s, x)] + s[FirstIndex(s, x) + 1..]
  {
    if s[0] == x {
      assert s[..0] + s[1..] == s[1..];
    } else {
      var t := s[1..];
      assert x in t by { assert s == [s[0]] + t; }
      var k := FirstIndex(t, x);
      assert FirstIndex(s, x) == k + 1;
      calc {
        Remove(s, x);
        [s[0]] + Remove(t, x);
        { RemoveFirst(t, x); }
        [s[0]] + (t[..k] + t[k + 1..]);
        { HeadAroundCut(s, k); }
        s[..k + 1] + s[k + 2..];
      }
    }
  }

  /** Removes, one after another, the first occurrence of each element of `xs`. */
  function RemoveEach<T(==)>(s: seq<T>, xs: seq<T>): seq<T>
    decreases |xs|
  {
    if xs == [] then s else RemoveEach(Remove(s, xs[0]), xs[1..])
  }

  /** The elements of `s` that are not in `drop`, in their original order. */
  function Without<T(==,!new)>(s: seq<T>, drop: set<T>): (r: seq<T>)
    ensures forall x :: x in r <==> x in s && x !in drop
    ensures |r| <= |s|
  {
    if s == [] then []
    else if s[0] in drop then Without(s[1..], drop)
    else [s[0]] + Without(s[1..], drop)
  }

  /** The elements of `s` that are in `keep`, in their original order. */
  function Within<T(==,!new)>(s: seq<T>, keep: set<T>): (r: seq<T>)
    ensures forall x :: x in r <==> x in s && x in keep
  {
    if s == [] then []
    else if s[0] in keep then [s[0]] + Within(s[1..], keep)
    else Within(s[1..], keep)
  }

  /** Removing a value that differs from the head leaves the head in place. */
  lemma RemovePastHead<T>(a: T, t: seq<T>, x: T)
    requires x != a
    ensures Remove([a] + t, x) == [a] + Remove(t, x)
  {
    assert ([a] + t)[1..] == t;
  }

  /** Removing values none of which is the head leaves the head in place. */
  lemma {:induction false} RemoveEachPastHead<T>(a: T, t: seq<T>, xs: seq<T>)
    requires a !in xs
    ensures RemoveEach([a] + t, xs) == [a] + RemoveEach(t, xs)
    decreases |xs|
  {
    if xs != [] {
      RemovePastHead(a, t, xs[0]);
      RemoveEachPastHead(a, Remove(t, xs[0]), xs[1..]);
    }
  }

  /** Removing, one by one, the elements of `s` that lie in `drop` (first
      occurrence each time) leaves exactly the others, in order. */
  lemma {:induction false} RemoveEachWithin<T(!new)>(s: seq<T>, drop: set<T>)
    ensures RemoveEach(s, Within(s, drop)) == Without(s, drop)
  {
    if s != [] {
      var a, t := s[0], s[1..];
      assert s == [a] + t;
      RemoveEachWithin(t, drop);
      if a in drop {
        assert Within(s, drop) == [a] + Within(t, drop);
        assert Remove(s, a) == t;
      } else {
        assert a !in Within(t, drop);
        RemoveEachPastHead(a, t, Within(t, drop));
      }
    }
  }

  /** Concatenation is associative. */
  lemma AppendAssoc<T>(a: seq<T>, b: seq<T>, c: seq<T>)
    ensures a + (b + c) == a + b + c
  {
  }

  /** A non-empty slice is its first element followed by the rest. */
  lemma SliceCons<T>(s: seq<T>, i: nat, j: nat)
    requires i < j <= |s|
    ensures s[i..j] == [s[i]] + s[i + 1..j]
  {
  }

  /** Keeping the last `n` of a list and then adding one element keeps the
      same as adding the element first: the bounded buffer forgets nothing it
      would later need. */
  lemma SuffixAppend<T>(s: seq<T>, e: T, n: nat)
    ensures Suffix(Suffix(s, n) + [e], n) == Suffix(s + [e], n)
  {
    var r := Suffix(s, n);
    var lhs := Suffix(r + [e], n);
    var rhs := Suffix(s + [e], n);
    assert |lhs| == |rhs|;
    forall i | 0 <= i < |lhs|
      ensures lhs[i] == rhs[i]
    {
    }
  }
}
