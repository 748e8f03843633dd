/**
 Removing the elements of a sequence at a set of offsets, as SwiftUI's
 `remove(atOffsets:)` does on a Swift array: the elements whose
 positions are in the set go, the others keep their relative order.
 */
module Offsets {

  /** Every offset names a position of a sequence of length `n`
      (`remove(atOffsets:)` traps otherwise). */
  predicate ValidOffsets(offsets: set<nat>, n: nat) {
    forall i :: i in offsets ==> i < n
  }

  /** The positions below `n` that are not in `offsets`, in increasing order. */
  function KeptIndices(n: nat, offsets: set<nat>): (k: seq<nat>)
    ensures |k| <= n
    ensures forall j :: 0 <= j < |k| ==> k[j] < n
  {
    if n == 0 then []
    else
      var rest := KeptIndices(n - 1, offsets);
      if n - 1 in offsets then rest else rest + [n - 1]
  }

  /** The kept positions are exactly the positions below `n` outside
      `offsets`, listed in strictly increasing order. */
  lemma {:induction false} KeptIndicesExact(n: nat, offsets: set<nat>)
    ensures var k := KeptIndices(n, offsets);
            && (forall j :: 0 <= j < |k| ==> k[j] !in offsets)
            && (forall i :: 0 <= i < n && i !in offsets ==> i in k)
            && (forall j1, j2 :: 0 <= j1 < j2 < |k| ==> k[j1] < k[j2])
  {
    if n > 0 {
      KeptIndicesExact(n - 1, offsets);
    }
  }

  /** `s` with the elements at `offsets` removed. */
  function RemoveAtOffsets<T>(s: seq<T>, offsets: set<nat>): (r: seq<T>)
    ensures |r| <= |s|
  {
    if s == [] then []
    else
      var rest := RemoveAtOffsets(s[..|s| - 1], offsets);
      if |s| - 1 in offsets then rest else rest + [s[|s| - 1]]
  }

  /** The `j`-th remaining element is the element at the `j`-th kept position:
      together with KeptIndices' contract, exactly the elements at `offsets`
      are gone and the rest keep their order. */
  lemma {:induction false} RemovedAt<T>(s: seq<T>, offsets: set<nat>)
    ensures |RemoveAtOffsets(s, offsets)| == |KeptIndices(|s|, offsets)|
    ensures forall j :: 0 <= j < |RemoveAtOffsets(s, offsets)| ==>
              RemoveAtOffsets(s, offsets)[j] == s[KeptIndices(|s|, offsets)[j]]
  {
    if s != [] {
      var last := |s| - 1;
      var init := s[..last];
      RemovedAt(init, offsets);
      var rest, kept := RemoveAtOffsets(init, offsets), KeptIndices(last, offsets);
      var r, k := RemoveAtOffsets(s, offsets), KeptIndices(|s|, offsets);
      assert r == if last in offsets then rest else rest + [s[last]];
      assert k == if last in offsets then kept else kept + [last];
      forall j | 0 <= j < |r| ensures r[j] == s[k[j]] {
        if j < |rest| {
          assert r[j] == rest[j] == init[kept[j]];
          assert k[j] == kept[j];
        }
      }
    }
  }

  /** With valid offsets, exactly one position per offset goes. */
  lemma {:induction false} KeptCount(n: nat, offsets: set<nat>)
    requires ValidOffsets(offsets, n)
    ensures |KeptIndices(n, offsets)| == n - |offsets|
  {
    if n > 0 {
      var below := offsets - {n - 1};
      KeptIndicesIgnoresOutside(n - 1, offsets, below);
      KeptCount(n - 1, below);
      if n - 1 in offsets {
        assert |below| == |offsets| - 1;
      } else {
        assert below == offsets;
      }
    } else {
      assert offsets == {};
    }
  }

  /** Offsets at or above `n` do not affect which positions below `n` are kept. */
  lemma {:induction false} KeptIndicesIgnoresOutside(n: nat, offsets: set<nat>, offsets': set<nat>)
    requires forall i :: i < n ==> (i in offsets <==> i in offsets')
    ensures KeptIndices(n, offsets) == KeptIndices(n, offsets')
  {
    if n > 0 {
      KeptIndicesIgnoresOutside(n - 1, offsets, offsets');
      assert (n - 1 in offsets) == (n - 1 in offsets');
    }
  }

  /** Offsets at or beyond the end of `s` do not affect what is removed. */
  lemma {:induction false} RemoveIgnoresOutside<T>(s: seq<T>, offsets: set<nat>, offsets': set<nat>)
    requires forall i :: i < |s| ==> (i in offsets <==> i in offsets')
    ensures RemoveAtOffsets(s, offsets) == RemoveAtOffsets(s, offsets')
  {
    if s != [] {
      RemoveIgnoresOutside(s[..|s| - 1], offsets, offsets');
    }
  }

  /** Removing at valid offsets shortens the sequence by the number of offsets. */
  lemma RemovedLength<T>(s: seq<T>, offsets: set<nat>)
    requires ValidOffsets(offsets, |s|)
    ensures |RemoveAtOffsets(s, offsets)| == |s| - |offsets|
  {
    RemovedAt(s, offsets);
    KeptCount(|s|, offsets);
  }

  /** Removing at no offsets leaves the sequence as it was. */
  lemma {:induction false} RemoveNothing<T>(s: seq<T>)
    ensures RemoveAtOffsets(s, {}) == s
  {
    if s != [] {
      RemoveNothing(s[..|s| - 1]);
      assert s[..|s| - 1] + [s[|s| - 1]] == s;
    }
  }

  /** Removing at a single offset `i` is cutting out `s[i]`. */
  lemma {:induction false} RemoveOne<T>(s: seq<T>, i: nat)
    requires i < |s|
    ensures RemoveAtOffsets(s, {i}) == s[..i] + s[i + 1..]
  {
    var last := |s| - 1;
    var init := s[..last];
    assert RemoveAtOffsets(s, {i}) == if i == last then RemoveAtOffsets(init, {i})
                                      else RemoveAtOffsets(init, {i}) + [s[last]];
    if i == last {
      RemoveIgnoresOutside(init, {i}, {});
      RemoveNothing(init);
      assert s[i + 1..] == [];
    } else {
      RemoveOne(init, i);
      assert init[..i] == s[..i];
      assert init[i + 1..] + [s[last]] == s[i + 1..];
    }
  }
}
