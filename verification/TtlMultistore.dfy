/** Expiring lists under keys: a TtlMap that only `get_or_insert_with` feeds, holding TtlLists. */
module TtlMultistore {
  import opened Lifecycle
  import opened Enumeration
  import List = TtlList
  import Map = TtlMap

  /** A call of the multistore, as the list under `key` sees it. */
  datatype Call<K, V> = Call(key: K, op: List.Op<V>)

  /** The calls made on one key. */
  function CallsOn<K(==), V>(log: seq<Call<K, V>>, key: K): seq<List.Op<V>> {
    if log == [] then []
    else
      var before, last := CallsOn(log[..|log| - 1], key), log[|log| - 1];
      if last.key == key then before + [last.op] else before
  }

  /** A call on one key is invisible to all others. */
  lemma CallsSnoc<K, V>(log: seq<Call<K, V>>, call: Call<K, V>, key: K)
    ensures CallsOn(log + [call], key) ==
            if call.key == key then CallsOn(log, key) + [call.op] else CallsOn(log, key)
  {
    assert (log + [call])[..|log|] == log;
  }

  /** Operations on one key never change another key's answer: whatever calls follow, if none of them
      is on `key`, its calls are what they were, and so are its items and what reading it yields. */
  lemma {:induction false} OtherKeysUndisturbed<K, V>(log: seq<Call<K, V>>, more: seq<Call<K, V>>, key: K)
    requires forall i :: 0 <= i < |more| ==> more[i].key != key
    ensures CallsOn(log + more, key) == CallsOn(log, key)
  {
    if more == [] {
      assert log + more == log;
    } else {
      var n := |more| - 1;
      OtherKeysUndisturbed(log, more[..n], key);
      CallsSnoc(log + more[..n], more[n], key);
      assert log + more == log + more[..n] + [more[n]];
    }
  }

  predicate Inserted<V>(calls: seq<List.Op<V>>) {
    exists i :: 0 <= i < |calls| && calls[i].Push?
  }

  /** The keys ever inserted. */
  function KeysOf<K(==), V>(log: seq<Call<K, V>>): set<K> {
    if log == [] then {}
    else
      var before, last := KeysOf(log[..|log| - 1]), log[|log| - 1];
      if last.op.Push? then before + {last.key} else before
  }

  /** Only inserted keys are read: reading any other finds no list. */
  predicate Proper<K(==), V>(log: seq<Call<K, V>>) {
    log == [] || (
      var before, last := log[..|log| - 1], log[|log| - 1];
      Proper(before) && (last.op.Push? || last.key in KeysOf(before)))
  }

  lemma {:induction false} KeysAreInserted<K, V>(log: seq<Call<K, V>>, key: K)
    requires Proper(log)
    ensures key in KeysOf(log) <==> Inserted(CallsOn(log, key))
    ensures key !in KeysOf(log) ==> CallsOn(log, key) == []
    ensures key in KeysOf(log) <==> exists i :: 0 <= i < |log| && log[i].key == key && log[i].op.Push?
  {
    if log != [] {
      var before, last := log[..|log| - 1], log[|log| - 1];
      KeysAreInserted(before, key);
      var calls := CallsOn(log, key);
      if last.key == key && last.op.Push? {
        assert calls[|calls| - 1].Push?;
      } else if i :| 0 <= i < |CallsOn(before, key)| && CallsOn(before, key)[i].Push? {
        assert calls[i].Push?;
      }
    }
  }

  lemma ProperSnoc<K, V>(log: seq<Call<K, V>>, call: Call<K, V>)
    requires Proper(log) && (call.op.Push? || call.key in KeysOf(log))
    ensures Proper(log + [call]) && KeysOf(log + [call]) == KeysOf(log) + {call.key}
  {
    assert (log + [call])[..|log|] == log;
  }

  /** The pushes under `key` whose time plus the TTL is later than `time`. */
  function Unexpired<K(==), V>(log: seq<Call<K, V>>, key: K, ttl: nat, time: int): (marked: seq<bool>)
    ensures |marked| == |log|
    ensures forall i :: 0 <= i < |log| ==>
              (marked[i] <==> log[i].key == key && log[i].op.Push? && log[i].op.time + ttl > time)
  {
    seq(|log|, i requires 0 <= i < |log| => log[i].key == key && log[i].op.Push? && log[i].op.time + ttl > time)
  }

  /** `values` are those of exactly the unexpired pushes under `key`, in order; `idx` lists these. */
  predicate Enumerates<K(==), V(==)>(values: seq<V>, idx: seq<nat>, log: seq<Call<K, V>>, key: K, ttl: nat, time: int) {
    && |values| == |idx| && Lists(idx, Unexpired(log, key, ttl, time))
    && forall k :: 0 <= k < |idx| ==> idx[k] < |log| && log[idx[k]].op.Push? && values[k] == log[idx[k]].op.value
  }

  /** The value of a call, if it is a push under `key` that has not expired. */
  function LiveValue<K(==), V>(call: Call<K, V>, key: K, ttl: nat, time: int): seq<V> {
    if call.key == key then List.LiveValue(call.op, ttl, time) else []
  }

  lemma EnumeratesSnoc<K, V>(
      values: seq<V>, idx: seq<nat>, log: seq<Call<K, V>>, call: Call<K, V>, key: K, ttl: nat, time: int)
    returns (more: seq<nat>)
    requires Enumerates(values, idx, log, key, ttl, time)
    ensures Enumerates(values + LiveValue(call, key, ttl, time), more, log + [call], key, ttl, time)
  {
    var mark := call.key == key && call.op.Push? && call.op.time + ttl > time;
    more := if mark then idx + [|log|] else idx;
    ListsSnoc(idx, Unexpired(log, key, ttl, time), mark);
    assert Unexpired(log + [call], key, ttl, time) == Unexpired(log, key, ttl, time) + [mark];
    var values', longer := values + LiveValue(call, key, ttl, time), log + [call];
    forall k | 0 <= k < |more| ensures more[k] < |longer| && longer[more[k]].op.Push? && values'[k] == longer[more[k]].op.value {
      if k < |idx| {
        assert more[k] == idx[k] && longer[idx[k]] == log[idx[k]];
      }
    }
  }

  lemma {:induction false} LiveEnumerates<K, V>(log: seq<Call<K, V>>, key: K, ttl: nat, time: int) returns (idx: seq<nat>)
    ensures Enumerates(List.Values(List.Live(List.Pushed(CallsOn(log, key), ttl), time)), idx, log, key, ttl, time)
  {
    if log == [] {
      idx := [];
    } else {
      var before, call := log[..|log| - 1], log[|log| - 1];
      var calls := CallsOn(before, key);
      idx := LiveEnumerates(before, key, ttl, time);
      idx := EnumeratesSnoc(List.Values(List.Live(List.Pushed(calls, ttl), time)), idx, before, call, key, ttl, time);
      List.LiveSnoc(calls, call.op, ttl, time);
      CallsSnoc(before, call, key);
      assert log == before + [call];
    }
  }

  class TtlMultistore<K(==, !new), V> {
    const ttl: nat
    const inner: Map.TtlMap<K, List.TtlList<V>>
    ghost var log: seq<Call<K, V>>
    ghost var lists: map<K, List.TtlList<V>>
    ghost var owner: map<List.TtlList<V>, K>
    ghost var repr: set<object>

    /** The inner map holds one list per key, no two keys share a list, and its queue is empty. */
    ghost predicate Linked()
      reads this, inner
    {
      && inner.Valid() && inner.queue == []
      && inner.innerMap.Keys == lists.Keys
      && (forall k :: k in lists ==> inner.innerMap[k].value == lists[k] && lists[k] in owner && owner[lists[k]] == k)
    }

    /** The list of a key has seen the calls made on that key. */
    ghost predicate Tracked(key: K)
      requires key in lists
      reads this, lists[key]
    {
      lists[key].Valid() && lists[key].ttl == ttl && lists[key].log == CallsOn(log, key)
    }

    ghost predicate Whole()
      reads this, repr
    {
      && this in repr && inner in repr && Linked()
      && (forall k :: k in lists ==> lists[k] in repr && Tracked(k))
    }

    ghost predicate Valid()
      reads this, repr
    {
      Whole() && Proper(log) && lists.Keys == KeysOf(log)
    }

    constructor (ttl: nat)
      ensures Valid() && fresh(repr) && this.ttl == ttl && log == []
    {
      this.ttl := ttl;
      inner := new Map.TtlMap(ttl);
      log, lists, owner := [], map[], map[];
      new;
      repr := {this, inner};
    }

    /** The inner map already holds the list of a new key; the ghost fields catch up. */
    ghost method Link(key: K, list: List.TtlList<V>)
      requires this in repr && inner in repr && inner.Valid() && inner.queue == []
      requires key !in lists && inner.innerMap.Keys == lists.Keys + {key} && inner.innerMap[key].value == list
      requires forall k :: k in lists ==>
        inner.innerMap[k].value == lists[k] && lists[k] in repr && lists[k] in owner && owner[lists[k]] == k && Tracked(k)
      requires list !in repr && list.Valid() && list.ttl == ttl && list.log == [] && CallsOn(log, key) == []
      modifies `lists, `owner, `repr
      ensures Whole() && repr == old(repr) + {list} && lists == old(lists)[key := list]
    {
      lists, owner, repr := lists[key := list], owner[list := key], repr + {list};
      forall k | k in lists
        ensures inner.innerMap[k].value == lists[k] && lists[k] in repr && lists[k] in owner && owner[lists[k]] == k && Tracked(k)
      {
        assert k != key ==> old(Tracked(k)) && lists[k] != list;
      }
    }

    /** A new key gets an empty list. */
    method Register(key: K, list: List.TtlList<V>, now: int)
      requires Whole()
      requires key !in inner.innerMap && CallsOn(log, key) == [] && list !in repr
      requires list.Valid() && list.ttl == ttl && list.log == []
      modifies this, inner
      ensures Whole() && repr == old(repr) + {list}
      ensures log == old(log) && lists == old(lists)[key := list]
    {
      var _ := inner.GetOrInsertWith(key, list, now);
      Link(key, list);
    }

    /** The list of a key, created if the key is new. */
    method ListOf(key: K, now: int) returns (list: List.TtlList<V>)
      requires Valid()
      modifies this, inner
      ensures Whole() && old(repr) <= repr && fresh(repr - old(repr))
      ensures log == old(log) && lists.Keys == old(lists).Keys + {key} && list == lists[key]
    {
      KeysAreInserted(log, key);
      list := new List.TtlList<V>(ttl);
      if key in inner.innerMap {
        list := inner.GetOrInsertWith(key, list, now);
      } else {
        Register(key, list, now);
      }
    }

    /** A list is created for a key when it is first inserted, and never removed. */
    method Insert(key: K, value: V, time: int, now: int)
      requires Valid()
      modifies repr
      ensures Valid() && fresh(repr - old(repr))
      ensures log == old(log) + [Call(key, List.Op.Push(value, time))]
      ensures lists.Keys == old(lists).Keys + {key}
    {
      var list := ListOf(key, now);
      Write(key, list, value, time);
      ProperSnoc(old(log), Call(key, List.Op.Push(value, time)));
    }

    /** The list of `key` is one call ahead of the log, which catches up. */
    ghost method Note(key: K, op: List.Op<V>)
      requires this in repr && inner in repr && Linked() && key in lists
      requires forall k :: k in lists ==> lists[k] in repr && (k != key ==> Tracked(k))
      requires lists[key].Valid() && lists[key].ttl == ttl && lists[key].log == CallsOn(log, key) + [op]
      modifies `log
      ensures Whole() && log == old(log) + [Call(key, op)]
    {
      log := log + [Call(key, op)];
      forall k | k in lists ensures Tracked(k) {
        CallsSnoc(old(log), Call(key, op), k);
      }
    }

    method Write(key: K, list: List.TtlList<V>, value: V, time: int)
      requires Whole() && key in lists && list == lists[key]
      modifies `log, list
      ensures Whole() && log == old(log) + [Call(key, List.Op.Push(value, time))]
    {
      assert forall k :: k in lists && k != key ==> lists[k] != list;
      list.Push(value, time);
      Note(key, List.Op.Push(value, time));
    }

    /** Looking up a key compacts the inner map, which has nothing to evict. */
    method Find(key: K, time: int) returns (list: Option<List.TtlList<V>>)
      requires Valid()
      modifies inner
      ensures Valid()
      ensures list == if key in lists then Some(lists[key]) else None
    {
      list := inner.Get(key, time);
    }

    /** Some exactly if the key was ever inserted; if time never ran backwards for this key, the
        values inserted under it with an expiry later than `time`, oldest first. */
    method Iter(key: K, time: int) returns (values: Option<seq<V>>)
      requires Valid()
      modifies repr
      ensures Valid() && repr == old(repr) && lists == old(lists)
      ensures values.Some? <==> exists i :: 0 <= i < |old(log)| && old(log)[i].key == key && old(log)[i].op.Push?
      ensures log == if values.Some? then old(log) + [Call(key, List.Compact(time))] else old(log)
      ensures values.Some? && List.Monotone(CallsOn(log, key)) ==>
                && values.value == List.Values(List.Live(List.Pushed(CallsOn(old(log), key), ttl), time))
                && exists idx :: Enumerates(values.value, idx, old(log), key, ttl, time)
    {
      KeysAreInserted(log, key);
      var list := Find(key, time);
      if list.None? {
        values := None;
      } else {
        var found := Read(key, list.value, time);
        values := Some(found);
        ProperSnoc(old(log), Call(key, List.Compact(time)));
      }
    }

    method Read(key: K, list: List.TtlList<V>, time: int) returns (values: seq<V>)
      requires Whole() && key in lists && list == lists[key]
      modifies `log, list
      ensures Whole() && log == old(log) + [Call(key, List.Compact(time))]
      ensures List.Monotone(CallsOn(log, key)) ==>
                && values == List.Values(List.Live(List.Pushed(CallsOn(old(log), key), ttl), time))
                && exists idx :: Enumerates(values, idx, old(log), key, ttl, time)
    {
      ghost var idx := LiveEnumerates(log, key, ttl, time);
      CallsSnoc(log, Call(key, List.Compact(time)), key);
      assert forall k :: k in lists && k != key ==> lists[k] != list;
      values := list.Iter(time);
      Note(key, List.Compact(time));
    }
  }
}
