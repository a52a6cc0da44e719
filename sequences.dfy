/** Facts about Swift array operations used by the view models: order-preserving filters and `remove(atOffsets:)`. */
module Sequences {

  /** `a` is `b` with some elements dropped and the rest kept in order. */
  predicate IsSubsequence<T(==)>(a: seq<T>, b: seq<T>)
    decreases |b|
  {
    if a == [] then true
    else if b == [] then false
    else if a[0] == b[0] then IsSubsequence(a[1..], b[1..])
    else IsSubsequence(a, b[1..])
  }

  /** Every subsequence is at most as long as its source and draws its elements from it. */
  lemma {:induction false} SubsequenceElements<T>(a: seq<T>, b: seq<T>)
    requires IsSubsequence(a, b)
    ensures |a| <= |b|
    ensures forall x :: x in a ==> x in b
    decreases |b|
  {
    if a != [] && b != [] {
      if a[0] == b[0] {
        SubsequenceElements(a[1..], b[1..]);
        assert a == [a[0]] + a[1..] && b == [b[0]] + b[1..];
      } else {
        SubsequenceElements(a, b[1..]);
      }
    }
  }

  /** Extending a subsequence and its source at the end keeps the relation. */
  lemma {:induction false} SubsequenceAppend<T>(a: seq<T>, b: seq<T>, tail: seq<T>, x: T)
    requires IsSubsequence(a, b)
    requires tail == [] || tail == [x]
    ensures IsSubsequence(a + tail, b + [x])
    decreases |b|
  {
    if a == [] {
      if tail != [] {
        assert a + tail == [x];
        SubsequenceOfSingle(b, x);
      }
    } else if b == [] {
    } else if a[0] == b[0] {
      SubsequenceAppend(a[1..], b[1..], tail, x);
      assert (a + tail)[1..] == a[1..] + tail;
      assert (b + [x])[1..] == b[1..] + [x];
    } else {
      SubsequenceAppend(a, b[1..], tail, x);
      assert (b + [x])[1..] == b[1..] + [x];
    }
  }

  /** The last element alone is a subsequence. */
  lemma {:induction false} SubsequenceOfSingle<T>(b: seq<T>, x: T)
    ensures IsSubsequence([x], b + [x])
    decreases |b|
  {
    if b != [] {
      assert (b + [x])[1..] == b[1..] + [x];
      SubsequenceOfSingle(b[1..], x);
    }
  }

  /** The indices below `n` that are not in `offsets`, in increasing order. */
  function KeptIndices(n: nat, offsets: set<int>): (ks: seq<nat>)
    ensures |ks| <= n
  {
    if n == 0 then [] else KeptIndices(n - 1, offsets) + (if n - 1 in offsets then [] else [n - 1])
  }

  /** `KeptIndices(n, offsets)` lists exactly the positions below `n` outside `offsets`, ascending. */
  lemma {:induction false} KeptIndicesExact(n: nat, offsets: set<int>)
    ensures var ks := KeptIndices(n, offsets);
      && (forall k :: 0 <= k < |ks| ==> ks[k] < n && ks[k] !in offsets)
      && (forall i :: 0 <= i < n && i !in offsets ==> i in ks)
      && (forall a, b :: 0 <= a < b < |ks| ==> ks[a] < ks[b])
  {
    if n > 0 {
      KeptIndicesExact(n - 1, offsets);
      var kf := KeptIndices(n - 1, offsets);
      var ks := KeptIndices(n, offsets);
      assert ks == kf + (if n - 1 in offsets then [] else [n - 1]);
      forall i | 0 <= i < n && i !in offsets
        ensures i in ks
      {
        if i < n - 1 {
          assert i in kf;
        } else {
          assert ks[|ks| - 1] == i;
        }
      }
    }
  }

  /** Only the offsets below `n` matter to `KeptIndices(n, _)`. */
  lemma {:induction false} KeptIndicesLocal(n: nat, o1: set<int>, o2: set<int>)
    requires forall i :: 0 <= i < n ==> (i in o1 <==> i in o2)
    ensures KeptIndices(n, o1) == KeptIndices(n, o2)
  {
    if n > 0 {
      KeptIndicesLocal(n - 1, o1, o2);
    }
  }

  /** Removing a set of valid offsets from `n` positions keeps `n - |offsets|` of them. */
  lemma {:induction false} KeptIndicesCount(n: nat, offsets: set<int>)
    requires forall o :: o in offsets ==> 0 <= o < n
    ensures |KeptIndices(n, offsets)| == n - |offsets|
  {
    if n == 0 {
      assert forall o :: o !in offsets;
      assert offsets == {};
    } else {
      var rest := offsets - {n - 1};
      var dropped := if n - 1 in offsets then 1 else 0;
      assert |KeptIndices(n - 1, offsets)| == n - 1 - |rest| by {
        KeptIndicesLocal(n - 1, offsets, rest);
        KeptIndicesCount(n - 1, rest);
      }
      assert |KeptIndices(n, offsets)| == |KeptIndices(n - 1, offsets)| + 1 - dropped;
      assert |offsets| == |rest| + dropped by {
        if n - 1 in offsets {
          assert offsets == rest + {n - 1};
        } else {
          assert rest == offsets;
        }
      }
    }
  }

  /** `remove(atOffsets:)`: the elements whose positions are not in `offsets`, in their original order. */
  function RemoveOffsets<T>(s: seq<T>, offsets: set<int>): (r: seq<T>)
    ensures |r| <= |s|
  {
    if s == [] then []
    else RemoveOffsets(s[..|s| - 1], offsets) + (if |s| - 1 in offsets then [] else [s[|s| - 1]])
  }

  /** Position `k` of the result holds the element at the `k`-th kept index. */
  lemma {:induction false} RemoveOffsetsKeeps<T>(s: seq<T>, offsets: set<int>)
    ensures var r, ks := RemoveOffsets(s, offsets), KeptIndices(|s|, offsets);
      |r| == |ks| && forall k :: 0 <= k < |r| ==> ks[k] < |s| && r[k] == s[ks[k]]
  {
    if s != [] {
      var n := |s|;
      var front := s[..n - 1];
      RemoveOffsetsKeeps(front, offsets);
      var rf, kf := RemoveOffsets(front, offsets), KeptIndices(n - 1, offsets);
      var r, ks := RemoveOffsets(s, offsets), KeptIndices(n, offsets);
      assert r == rf + (if n - 1 in offsets then [] else [s[n - 1]]);
      assert ks == kf + (if n - 1 in offsets then [] else [n - 1]);
      forall k | 0 <= k < |r|
        ensures ks[k] < |s| && r[k] == s[ks[k]]
      {
        if k < |rf| {
          assert ks[k] == kf[k] < |front|;
          assert r[k] == rf[k] == front[kf[k]];
        }
      }
    }
  }

  /** Removing valid offsets shortens the array by exactly their number. */
  lemma RemoveOffsetsLength<T>(s: seq<T>, offsets: set<int>)
    requires forall o :: o in offsets ==> 0 <= o < |s|
    ensures |RemoveOffsets(s, offsets)| == |s| - |offsets|
  {
    RemoveOffsetsKeeps(s, offsets);
    KeptIndicesCount(|s|, offsets);
  }
}
