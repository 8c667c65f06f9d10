/**
 * Removing the spawners whose Remove button was pressed: the pressed indices are collected in
 * ascending order and then erased from the back, so every erase leaves the positions of the
 * indices still to be erased alone.
 */
module SpawnerList {

  /** The elements of `s` whose flag is false, in their original order. */
  function Keep<T>(s: seq<T>, removed: seq<bool>): (r: seq<T>)
    requires |removed| == |s|
    ensures |r| <= |s|
    ensures (forall i :: 0 <= i < |s| ==> !removed[i]) ==> r == s
    decreases |s|
  {
    if |s| == 0 then []
    else (if removed[0] then [] else [s[0]]) + Keep(s[1..], removed[1..])
  }

  /** The flags of the indices listed in `indices`, for a list of length `n`. */
  function Marks(n: nat, indices: seq<int>): (flags: seq<bool>)
    ensures |flags| == n
    ensures forall i :: 0 <= i < n ==> (flags[i] <==> i in indices)
  {
    seq(n, i => i in indices)
  }

  predicate StrictlyIncreasing(indices: seq<int>)
  {
    forall i, j :: 0 <= i < j < |indices| ==> indices[i] < indices[j]
  }

  /** `std::vector::erase` of one element. */
  function Erase<T>(s: seq<T>, i: nat): (r: seq<T>)
    requires i < |s|
    ensures |r| == |s| - 1
    ensures forall j :: 0 <= j < i ==> r[j] == s[j]
    ensures forall j :: i <= j < |r| ==> r[j] == s[j + 1]
  {
    s[..i] + s[i + 1..]
  }

  /** Keeping one more element out, at an index before which nothing is removed, is one erase. */
  lemma {:induction false} EraseKept<T>(s: seq<T>, removed: seq<bool>, p: nat)
    requires |removed| == |s| && p < |s|
    requires forall j :: 0 <= j <= p ==> !removed[j]
    ensures p < |Keep(s, removed)|
    ensures Erase(Keep(s, removed), p) == Keep(s, removed[p := true])
    decreases p
  {
    var rest := Keep(s[1..], removed[1..]);
    assert Keep(s, removed) == [s[0]] + rest;
    if p == 0 {
      assert removed[0 := true][1..] == removed[1..];
    } else {
      EraseKept(s[1..], removed[1..], p - 1);
      assert removed[p := true][1..] == removed[1..][p - 1 := true];
      assert Erase([s[0]] + rest, p) == [s[0]] + Erase(rest, p - 1);
    }
  }

  /**
   * Erases `indices` from the back (lines 408-411). The result keeps exactly the elements whose
   * index is not listed, in their original order.
   */
  method EraseInReverse<T>(s: seq<T>, indices: seq<int>) returns (r: seq<T>)
    requires StrictlyIncreasing(indices)
    requires forall k :: 0 <= k < |indices| ==> 0 <= indices[k] < |s|
    ensures r == Keep(s, Marks(|s|, indices))
  {
    r := s;
    var k := |indices|;
    assert Marks(|s|, indices[k..]) == seq(|s|, _ => false);
    while k > 0
      invariant 0 <= k <= |indices|
      invariant r == Keep(s, Marks(|s|, indices[k..]))
    {
      k := k - 1;
      var p := indices[k];
      // Every index still listed after `p` is larger, so nothing before or at `p` is removed yet.
      var later := Marks(|s|, indices[k + 1..]);
      assert forall j :: 0 <= j <= p ==> !later[j];
      EraseKept(s, later, p);
      assert later[p := true] == Marks(|s|, indices[k..]);
      r := Erase(r, p);
    }
    assert indices[0..] == indices;
  }
}
