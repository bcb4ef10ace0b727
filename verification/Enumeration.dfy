/** Lists of positions: what a filtered sequence is compared with. */
module Enumeration {

  /** `idx` lists the marked positions. */
  predicate Lists(idx: seq<nat>, marked: seq<bool>) {
    var n, m := |idx|, |marked|;
    if m == 0 then n == 0
    else if marked[m - 1] then n > 0 && idx[n - 1] == m - 1 && Lists(idx[..n - 1], marked[..m - 1])
    else Lists(idx, marked[..m - 1])
  }

  lemma ListsSnoc(idx: seq<nat>, marked: seq<bool>, mark: bool)
    requires Lists(idx, marked)
    ensures Lists(if mark then idx + [|marked|] else idx, marked + [mark])
  {
    assert (marked + [mark])[..|marked|] == marked;
    assert (idx + [|marked|])[..|idx|] == idx;
  }

  lemma {:induction false} ListsOnlyMarked(idx: seq<nat>, marked: seq<bool>, k: nat)
    requires Lists(idx, marked) && k < |idx|
    ensures idx[k] < |marked| && marked[idx[k]]
    decreases |marked|
  {
    var n, m := |idx|, |marked|;
    if !marked[m - 1] {
      ListsOnlyMarked(idx, marked[..m - 1], k);
    } else if k < n - 1 {
      ListsOnlyMarked(idx[..n - 1], marked[..m - 1], k);
    }
  }

  lemma {:induction false} ListsInOrder(idx: seq<nat>, marked: seq<bool>, k: nat, l: nat)
    requires Lists(idx, marked) && k < l < |idx|
    ensures idx[k] < idx[l]
    decreases |marked|
  {
    var n, m := |idx|, |marked|;
    if !marked[m - 1] {
      ListsInOrder(idx, marked[..m - 1], k, l);
    } else if l < n - 1 {
      ListsInOrder(idx[..n - 1], marked[..m - 1], k, l);
    } else {
      ListsOnlyMarked(idx[..n - 1], marked[..m - 1], k);
    }
  }

  lemma {:induction false} ListsAllMarked(idx: seq<nat>, marked: seq<bool>, i: nat) returns (k: nat)
    requires Lists(idx, marked) && i < |marked| && marked[i]
    ensures k < |idx| && idx[k] == i
    decreases |marked|
  {
    var n, m := |idx|, |marked|;
    if i == m - 1 {
      k := n - 1;
    } else if marked[m - 1] {
      k := ListsAllMarked(idx[..n - 1], marked[..m - 1], i);
    } else {
      k := ListsAllMarked(idx, marked[..m - 1], i);
    }
  }

  /** A list of the marked positions has them in order, each one, and no others. */
  lemma ListsExactly(idx: seq<nat>, marked: seq<bool>)
    requires Lists(idx, marked)
    ensures forall k, l :: 0 <= k < l < |idx| ==> idx[k] < idx[l]
    ensures forall i :: 0 <= i < |marked| ==> (marked[i] <==> exists k :: 0 <= k < |idx| && idx[k] == i)
  {
    forall k, l | 0 <= k < l < |idx| ensures idx[k] < idx[l] {
      ListsInOrder(idx, marked, k, l);
    }
    forall i | 0 <= i < |marked| ensures marked[i] <==> exists k :: 0 <= k < |idx| && idx[k] == i {
      if marked[i] {
        var k := ListsAllMarked(idx, marked, i);
      } else if k :| 0 <= k < |idx| && idx[k] == i {
        ListsOnlyMarked(idx, marked, k);
      }
    }
  }
}
