/** A list whose items expire: pushed at the back, dropped from the front when it is read. */
module TtlList {
  import opened Enumeration

  datatype Op<V> = Push(value: V, time: int) | Compact(time: int)

  datatype Item<V> = Item(expiry: int, value: V)

  /** `compact`: items are popped from the front until one has not expired. */
  function DropExpired<V>(items: seq<Item<V>>, time: int): seq<Item<V>> {
    if items != [] && items[0].expiry <= time then DropExpired(items[1..], time) else items
  }

  /** The items after the given calls. */
  function Replay<V>(log: seq<Op<V>>, ttl: nat): seq<Item<V>> {
    if log == [] then []
    else
      var before := Replay(log[..|log| - 1], ttl);
      match log[|log| - 1]
      case Push(v, t) => before + [Item(t + ttl, v)]
      case Compact(t) => DropExpired(before, t)
  }

  /** Everything ever pushed, in order. */
  function Pushed<V>(log: seq<Op<V>>, ttl: nat): seq<Item<V>> {
    if log == [] then []
    else
      var before := Pushed(log[..|log| - 1], ttl);
      match log[|log| - 1]
      case Push(v, t) => before + [Item(t + ttl, v)]
      case Compact(_) => before
  }

  /** The items that have not expired at `time`, in order. */
  function Live<V>(items: seq<Item<V>>, time: int): seq<Item<V>> {
    if items == [] then []
    else
      var before, last := Live(items[..|items| - 1], time), items[|items| - 1];
      if last.expiry > time then before + [last] else before
  }

  function Values<V>(items: seq<Item<V>>): (values: seq<V>)
    ensures |values| == |items| && forall i :: 0 <= i < |items| ==> values[i] == items[i].value
  {
    seq(|items|, i requires 0 <= i < |items| => items[i].value)
  }

  /** Time never runs backwards between calls. */
  predicate Monotone<V>(log: seq<Op<V>>) {
    forall i, j :: 0 <= i <= j < |log| ==> log[i].time <= log[j].time
  }

  predicate Sorted<V>(items: seq<Item<V>>) {
    forall i, j :: 0 <= i <= j < |items| ==> items[i].expiry <= items[j].expiry
  }

  /** Compaction drops a prefix of expired items, and stops at the first live one. */
  lemma {:induction false} DropIsPrefix<V>(items: seq<Item<V>>, time: int) returns (k: nat)
    ensures k <= |items| && DropExpired(items, time) == items[k..]
    ensures forall i :: 0 <= i < k ==> items[i].expiry <= time
    ensures k < |items| ==> items[k].expiry > time
  {
    if items != [] && items[0].expiry <= time {
      var rest := DropIsPrefix(items[1..], time);
      k := rest + 1;
    } else {
      k := 0;
    }
  }

  /** Whatever the times, the list is a suffix of everything pushed. */
  lemma {:induction false} SuffixOfPushed<V>(log: seq<Op<V>>, ttl: nat)
    ensures |Replay(log, ttl)| <= |Pushed(log, ttl)|
    ensures Replay(log, ttl) == Pushed(log, ttl)[|Pushed(log, ttl)| - |Replay(log, ttl)|..]
  {
    if log != [] {
      var before := log[..|log| - 1];
      SuffixOfPushed(before, ttl);
      if log[|log| - 1].Compact? {
        var k := DropIsPrefix(Replay(before, ttl), log[|log| - 1].time);
      }
    }
  }

  /** No early eviction, for arbitrary times: a pushed item stays in the list, in its place, as long
      as its expiry exceeds every later compaction time. */
  lemma {:induction false} KeptWhileLive<V>(before: seq<Op<V>>, value: V, time: int, after: seq<Op<V>>, ttl: nat)
    requires forall i :: 0 <= i < |after| && after[i].Compact? ==> after[i].time < time + ttl
    ensures
      var items, later := Replay(before + [Push(value, time)] + after, ttl), |Pushed(after, ttl)|;
      |items| > later && items[|items| - 1 - later] == Item(time + ttl, value)
  {
    var log := before + [Push(value, time)] + after;
    if after == [] {
      assert log == before + [Push(value, time)] && log[..|log| - 1] == before;
    } else {
      var n := |after| - 1;
      assert log[..|log| - 1] == before + [Push(value, time)] + after[..n];
      KeptWhileLive(before, value, time, after[..n], ttl);
      if after[n].Compact? {
        var k := DropIsPrefix(Replay(log[..|log| - 1], ttl), after[n].time);
      }
    }
  }

  // ---- non-decreasing times ---------------------------------------------------------------

  lemma {:induction false} PushedSorted<V>(log: seq<Op<V>>, ttl: nat)
    requires Monotone(log)
    ensures Sorted(Pushed(log, ttl))
    ensures log != [] ==> forall i :: 0 <= i < |Pushed(log, ttl)| ==> Pushed(log, ttl)[i].expiry <= log[|log| - 1].time + ttl
  {
    if log != [] {
      PushedSorted(log[..|log| - 1], ttl);
    }
  }

  /** In a sorted sequence the live items are what a compaction leaves. */
  lemma {:induction false} LiveIsTail<V>(items: seq<Item<V>>, k: nat, time: int)
    requires k <= |items|
    requires forall i :: 0 <= i < k ==> items[i].expiry <= time
    requires forall i :: k <= i < |items| ==> items[i].expiry > time
    ensures Live(items, time) == items[k..]
  {
    if items != [] {
      var n := |items| - 1;
      if k <= n {
        LiveIsTail(items[..n], k, time);
        assert items[k..] == items[..n][k..] + [items[n]];
      } else {
        LiveIsTail(items[..n], n, time);
      }
    }
  }

  /** What has been dropped had expired by the time of the last call. */
  lemma {:induction false} DroppedExpired<V>(log: seq<Op<V>>, ttl: nat, i: nat)
    requires Monotone(log) && i < |Pushed(log, ttl)| - |Replay(log, ttl)|
    ensures log != [] && Pushed(log, ttl)[i].expiry <= log[|log| - 1].time
  {
    var before := log[..|log| - 1];
    SuffixOfPushed(before, ttl);
    if i < |Pushed(before, ttl)| - |Replay(before, ttl)| {
      DroppedExpired(before, ttl, i);
    } else if log[|log| - 1].Compact? {
      var k := DropIsPrefix(Replay(before, ttl), log[|log| - 1].time);
    }
  }

  lemma SortedTail<V>(items: seq<Item<V>>, k: nat, time: int)
    requires Sorted(items) && k <= |items|
    requires forall i :: 0 <= i < k ==> items[i].expiry <= time
    requires k < |items| ==> items[k].expiry > time
    ensures Live(items, time) == items[k..]
  {
    LiveIsTail(items, k, time);
  }

  lemma MonotonePrefix<V>(log: seq<Op<V>>, op: Op<V>)
    requires Monotone(log + [op])
    ensures Monotone(log) && (log != [] ==> log[|log| - 1].time <= op.time)
  {
    assert forall i :: 0 <= i < |log| ==> log[i] == (log + [op])[i];
    assert (log + [op])[|log|] == op;
  }

  /** Refinement: when time never runs backwards, reading the list at `time` yields exactly the
      pushed items whose expiry is later than `time`, in order. */
  lemma ListRefinesLog<V>(log: seq<Op<V>>, ttl: nat, time: int)
    requires Monotone(log + [Compact(time)])
    ensures Replay(log + [Compact(time)], ttl) == Live(Pushed(log, ttl), time)
  {
    assert (log + [Compact(time)])[..|log|] == log;
    MonotonePrefix(log, Compact(time));
    SuffixOfPushed(log, ttl);
    PushedSorted(log, ttl);
    var items, pushed := Replay(log, ttl), Pushed(log, ttl);
    var k := DropIsPrefix(items, time);
    var dropped := |pushed| - |items|;
    forall i | 0 <= i < dropped + k ensures pushed[i].expiry <= time {
      if i < dropped {
        DroppedExpired(log, ttl, i);
      } else {
        assert pushed[i] == items[i - dropped];
      }
    }
    assert items[k..] == pushed[dropped + k..];
    SortedTail(pushed, dropped + k, time);
  }

  /** The pushes whose time plus the TTL is later than `time`. */
  function Unexpired<V>(log: seq<Op<V>>, ttl: nat, time: int): (marked: seq<bool>)
    ensures |marked| == |log| && forall i :: 0 <= i < |log| ==> (marked[i] <==> log[i].Push? && log[i].time + ttl > time)
  {
    seq(|log|, i requires 0 <= i < |log| => log[i].Push? && log[i].time + ttl > time)
  }

  /** `values` are those of exactly the unexpired pushes, in order; `idx` lists these. */
  predicate Enumerates<V(==)>(values: seq<V>, idx: seq<nat>, log: seq<Op<V>>, ttl: nat, time: int) {
    && |values| == |idx| && Lists(idx, Unexpired(log, ttl, time))
    && forall k :: 0 <= k < |idx| ==> idx[k] < |log| && log[idx[k]].Push? && values[k] == log[idx[k]].value
  }

  /** The value of a call, if it is a push that has not expired. */
  function LiveValue<V>(op: Op<V>, ttl: nat, time: int): seq<V> {
    if op.Push? && op.time + ttl > time then [op.value] else []
  }

  lemma LiveSnoc<V>(log: seq<Op<V>>, op: Op<V>, ttl: nat, time: int)
    ensures Values(Live(Pushed(log + [op], ttl), time)) == Values(Live(Pushed(log, ttl), time)) + LiveValue(op, ttl, time)
  {
    assert (log + [op])[..|log|] == log;
    if op.Push? {
      var items := Pushed(log, ttl);
      assert (items + [Item(op.time + ttl, op.value)])[..|items|] == items;
    }
  }

  lemma EnumeratesSnoc<V>(values: seq<V>, idx: seq<nat>, log: seq<Op<V>>, op: Op<V>, ttl: nat, time: int)
    returns (more: seq<nat>)
    requires Enumerates(values, idx, log, ttl, time)
    ensures Enumerates(values + LiveValue(op, ttl, time), more, log + [op], ttl, time)
  {
    var mark := op.Push? && op.time + ttl > time;
    more := if mark then idx + [|log|] else idx;
    ListsSnoc(idx, Unexpired(log, ttl, time), mark);
    assert Unexpired(log + [op], ttl, time) == Unexpired(log, ttl, time) + [mark];
    var values', longer := values + LiveValue(op, ttl, time), log + [op];
    forall k | 0 <= k < |more| ensures more[k] < |longer| && longer[more[k]].Push? && values'[k] == longer[more[k]].value {
      if k < |idx| {
        assert more[k] == idx[k] && longer[idx[k]] == log[idx[k]];
      }
    }
  }

  lemma {:induction false} LiveEnumerates<V>(log: seq<Op<V>>, ttl: nat, time: int) returns (idx: seq<nat>)
    ensures Enumerates(Values(Live(Pushed(log, ttl), time)), idx, log, ttl, time)
  {
    if log == [] {
      idx := [];
    } else {
      var before, op := log[..|log| - 1], log[|log| - 1];
      idx := LiveEnumerates(before, ttl, time);
      idx := EnumeratesSnoc(Values(Live(Pushed(before, ttl), time)), idx, before, op, ttl, time);
      LiveSnoc(before, op, ttl, time);
      assert log == before + [op];
    }
  }

  class TtlList<V> {
    const ttl: nat
    var items: seq<Item<V>>
    var lastCompaction: int
    ghost var log: seq<Op<V>>

    ghost predicate Valid()
      reads this
    {
      items == Replay(log, ttl)
    }

    constructor (ttl: nat)
      ensures Valid() && this.ttl == ttl && log == []
    {
      this.ttl, items, lastCompaction, log := ttl, [], 0, [];
    }

    method Push(value: V, time: int)
      requires Valid()
      modifies this
      ensures Valid() && log == old(log) + [Op.Push(value, time)]
    {
      items := items + [Item(time + ttl, value)];
      log := log + [Op.Push(value, time)];
      assert log[..|log| - 1] == old(log);
    }

    /** The values are those of the items left; if time never ran backwards, exactly those pushed
        with an expiry later than `time`, oldest first. */
    method Iter(time: int) returns (values: seq<V>)
      requires Valid()
      modifies this
      ensures Valid() && log == old(log) + [Compact(time)] && values == Values(items)
      ensures Monotone(log) ==> values == Values(Live(Pushed(old(log), ttl), time))
      ensures Monotone(log) ==> exists idx :: Enumerates(values, idx, old(log), ttl, time)
    {
      DropExpiredItems(time);
      if Monotone(log) {
        ListRefinesLog(old(log), ttl, time);
        var idx := LiveEnumerates(old(log), ttl, time);
      }
      values := Values(items);
    }

    method DropExpiredItems(time: int)
      requires Valid()
      modifies this
      ensures Valid() && log == old(log) + [Compact(time)]
    {
      while items != [] && items[0].expiry <= time
        invariant DropExpired(items, time) == DropExpired(old(items), time)
        invariant log == old(log)
        decreases |items|
      {
        items := items[1..];
      }
      lastCompaction := time;
      log := log + [Compact(time)];
      assert log[..|log| - 1] == old(log);
    }
  }
}
