/** A map whose entries expire. Inserts leave a ticket in a queue; compaction pops old tickets and
    evicts the entries they stand for, unless those have been overwritten with a later expiry. */
module TtlMap {
  import opened Lifecycle
  import opened Enumeration

  /** The calls that change the store: `insert`, the insertion made by `get_or_insert_with`, and the
      compaction made by `get` and `get_mut`. */
  datatype Op<K, V> =
    | Insert(key: K, value: V, time: int)
    | Ensure(key: K, value: V, time: int)
    | Compact(time: int)

  datatype Entry<V> = Entry(expiry: int, value: V)
  datatype Ticket<K> = Ticket(expiry: int, key: K)
  datatype State<K, V> = State(entries: map<K, Entry<V>>, queue: seq<Ticket<K>>)

  /** Pops the first ticket; its key is evicted if the current entry has expired too. */
  function Pop<K, V>(s: State<K, V>, time: int): State<K, V>
    requires s.queue != []
  {
    var key := s.queue[0].key;
    var expired := key in s.entries && s.entries[key].expiry < time;
    State(if expired then s.entries - {key} else s.entries, s.queue[1..])
  }

  /** `compact` */
  function Evict<K, V>(s: State<K, V>, time: int): State<K, V>
    decreases |s.queue|
  {
    if s.queue != [] && s.queue[0].expiry < time then Evict(Pop(s, time), time) else s
  }

  function Apply<K, V>(s: State<K, V>, op: Op<K, V>, ttl: nat): State<K, V> {
    match op
    case Insert(k, v, t) => State(s.entries[k := Entry(t + ttl, v)], s.queue + [Ticket(t + ttl, k)])
    case Ensure(k, v, t) => if k in s.entries then s else s.(entries := s.entries[k := Entry(t, v)])
    case Compact(t) => Evict(s, t)
  }

  function Replay<K, V>(log: seq<Op<K, V>>, ttl: nat): State<K, V> {
    if log == [] then State(map[], []) else Apply(Replay(log[..|log| - 1], ttl), log[|log| - 1], ttl)
  }

  // ---- the reference: the log of inserts --------------------------------------------------

  /** The last insert of a key, as an entry. */
  function Latest<K(==), V>(log: seq<Op<K, V>>, key: K, ttl: nat): Option<Entry<V>> {
    if log == [] then None
    else
      var last := log[|log| - 1];
      if last.Insert? && last.key == key then Some(Entry(last.time + ttl, last.value))
      else Latest(log[..|log| - 1], key, ttl)
  }

  /** What a lookup at `time` should find: the value of the last insert, unless it has expired. */
  function Answer<K(==), V>(log: seq<Op<K, V>>, key: K, ttl: nat, time: int): Option<V> {
    var latest := Latest(log, key, ttl);
    if latest.Some? && latest.value.expiry >= time then Some(latest.value.value) else None
  }

  /** A ticket for every insert, in order. */
  function Tickets<K, V>(log: seq<Op<K, V>>, ttl: nat): seq<Ticket<K>> {
    if log == [] then []
    else
      var before, last := Tickets(log[..|log| - 1], ttl), log[|log| - 1];
      if last.Insert? then before + [Ticket(last.time + ttl, last.key)] else before
  }

  function Live<K>(tickets: seq<Ticket<K>>, time: int): seq<Ticket<K>> {
    if tickets == [] then []
    else
      var before, last := Live(tickets[..|tickets| - 1], time), tickets[|tickets| - 1];
      if last.expiry >= time then before + [last] else before
  }

  predicate Monotone<K, V>(log: seq<Op<K, V>>) {
    forall i, j :: 0 <= i <= j < |log| ==> log[i].time <= log[j].time
  }

  predicate InsertOnly<K, V>(log: seq<Op<K, V>>) {
    forall i :: 0 <= i < |log| ==> !log[i].Ensure?
  }

  // ---- compaction -------------------------------------------------------------------------

  /** Compaction pops exactly the expired prefix of the queue. */
  lemma {:induction false} EvictQueue<K, V>(s: State<K, V>, time: int) returns (k: nat)
    ensures k <= |s.queue| && Evict(s, time).queue == s.queue[k..]
    ensures forall i :: 0 <= i < k ==> s.queue[i].expiry < time
    ensures k < |s.queue| ==> s.queue[k].expiry >= time
    decreases |s.queue|
  {
    if s.queue != [] && s.queue[0].expiry < time {
      var rest := EvictQueue(Pop(s, time), time);
      k := rest + 1;
    } else {
      k := 0;
    }
  }

  /** Compaction adds or changes nothing, and evicts only what has expired. */
  lemma {:induction false} EvictEntries<K, V>(s: State<K, V>, time: int, key: K)
    ensures key in Evict(s, time).entries ==> key in s.entries && Evict(s, time).entries[key] == s.entries[key]
    ensures key in s.entries && s.entries[key].expiry >= time ==> key in Evict(s, time).entries
    decreases |s.queue|
  {
    if s.queue != [] && s.queue[0].expiry < time {
      EvictEntries(Pop(s, time), time, key);
    }
  }

  /** Every entry has its own ticket still in the queue. */
  ghost predicate Ticketed<K(!new), V>(s: State<K, V>) {
    forall key :: key in s.entries ==> Ticket(s.entries[key].expiry, key) in s.queue
  }

  lemma {:induction false} EvictTicketed<K(!new), V>(s: State<K, V>, time: int)
    requires Ticketed(s)
    ensures Ticketed(Evict(s, time))
    decreases |s.queue|
  {
    if s.queue != [] && s.queue[0].expiry < time {
      var popped := Pop(s, time);
      forall key | key in popped.entries ensures Ticket(popped.entries[key].expiry, key) in popped.queue {
        assert Ticket(s.entries[key].expiry, key) in s.queue;
        assert s.queue == [s.queue[0]] + popped.queue;
      }
      EvictTicketed(popped, time);
    }
  }

  // ---- arbitrary times --------------------------------------------------------------------

  /** Whatever the times, in a map fed by `insert` each entry is the last insert of its key and has
      its ticket in the queue. */
  lemma {:induction false} EntriesAreLatest<K(!new), V>(log: seq<Op<K, V>>, ttl: nat)
    requires InsertOnly(log)
    ensures Ticketed(Replay(log, ttl))
    ensures forall key :: key in Replay(log, ttl).entries ==> Latest(log, key, ttl) == Some(Replay(log, ttl).entries[key])
  {
    if log != [] {
      var before, last := log[..|log| - 1], log[|log| - 1];
      EntriesAreLatest(before, ttl);
      var s := Replay(before, ttl);
      match last
      case Insert(k, v, t) =>
        assert Ticketed(Apply(s, last, ttl));
      case Compact(t) =>
        EvictTicketed(s, t);
        forall key | key in Evict(s, t).entries
          ensures Latest(log, key, ttl) == Some(Evict(s, t).entries[key])
        {
          EvictEntries(s, t, key);
        }
    }
  }

  /** No early eviction, for arbitrary times: a key keeps its latest value as long as its expiry is
      not before any compaction time since that insert. */
  lemma {:induction false} KeptWhileLive<K(!new), V>(before: seq<Op<K, V>>, key: K, value: V, time: int,
                                                      after: seq<Op<K, V>>, ttl: nat)
    requires forall i :: 0 <= i < |after| && after[i].Compact? ==> after[i].time <= time + ttl
    requires forall i :: 0 <= i < |after| && after[i].Insert? ==> after[i].key != key
    ensures
      var entries := Replay(before + [Insert(key, value, time)] + after, ttl).entries;
      key in entries && entries[key] == Entry(time + ttl, value)
  {
    var log := before + [Insert(key, value, time)] + after;
    if after == [] {
      assert log == before + [Insert(key, value, time)] && log[..|log| - 1] == before;
    } else {
      var n := |after| - 1;
      assert log[..|log| - 1] == before + [Insert(key, value, time)] + after[..n];
      KeptWhileLive(before, key, value, time, after[..n], ttl);
      if after[n].Compact? {
        EvictEntries(Replay(log[..|log| - 1], ttl), after[n].time, key);
      }
    }
  }

  // ---- non-decreasing times ---------------------------------------------------------------

  predicate Sorted<K>(tickets: seq<Ticket<K>>) {
    forall i, j :: 0 <= i <= j < |tickets| ==> tickets[i].expiry <= tickets[j].expiry
  }

  lemma {:induction false} TicketsSorted<K, V>(log: seq<Op<K, V>>, ttl: nat)
    requires Monotone(log)
    ensures Sorted(Tickets(log, ttl))
    ensures log != [] ==>
              forall i :: 0 <= i < |Tickets(log, ttl)| ==> Tickets(log, ttl)[i].expiry <= log[|log| - 1].time + ttl
  {
    if log != [] {
      TicketsSorted(log[..|log| - 1], ttl);
    }
  }

  /** The queue is a suffix of all tickets, and what was popped had expired by the last call. */
  lemma {:induction false} QueueIsSuffix<K, V>(log: seq<Op<K, V>>, ttl: nat) returns (k: nat)
    requires Monotone(log)
    ensures k <= |Tickets(log, ttl)| && Replay(log, ttl).queue == Tickets(log, ttl)[k..]
    ensures forall i :: 0 <= i < k ==> log != [] && Tickets(log, ttl)[i].expiry < log[|log| - 1].time
  {
    if log == [] {
      k := 0;
    } else {
      var before, last := log[..|log| - 1], log[|log| - 1];
      k := QueueIsSuffix(before, ttl);
      if last.Compact? {
        var more := EvictQueue(Replay(before, ttl), last.time);
        forall i | 0 <= i < k + more ensures Tickets(log, ttl)[i].expiry < last.time {
          if i >= k {
            assert Tickets(log, ttl)[i] == Replay(before, ttl).queue[i - k];
          }
        }
        k := k + more;
      }
    }
  }

  lemma {:induction false} LiveIsTail<K>(tickets: seq<Ticket<K>>, k: nat, time: int)
    requires k <= |tickets|
    requires forall i :: 0 <= i < k ==> tickets[i].expiry < time
    requires forall i :: k <= i < |tickets| ==> tickets[i].expiry >= time
    ensures Live(tickets, time) == tickets[k..]
  {
    if tickets != [] {
      var n := |tickets| - 1;
      if k <= n {
        LiveIsTail(tickets[..n], k, time);
        assert tickets[k..] == tickets[..n][k..] + [tickets[n]];
      } else {
        LiveIsTail(tickets[..n], n, time);
      }
    }
  }

  lemma MonotonePrefix<K, V>(log: seq<Op<K, V>>, op: Op<K, V>)
    requires Monotone(log + [op])
    ensures Monotone(log) && (log != [] ==> log[|log| - 1].time <= op.time)
  {
    assert forall i :: 0 <= i < |log| ==> log[i] == (log + [op])[i];
    assert (log + [op])[|log|] == op;
  }

  /** A compaction after the given calls has popped, in all, the first k tickets, all of them expired;
      the first of the others is not. */
  lemma PoppedAreExpired<K, V>(log: seq<Op<K, V>>, ttl: nat, time: int) returns (k: nat)
    requires Monotone(log) && (log != [] ==> log[|log| - 1].time <= time)
    ensures
      var tickets := Tickets(log, ttl);
      && k <= |tickets| && Evict(Replay(log, ttl), time).queue == tickets[k..]
      && (forall i :: 0 <= i < k ==> tickets[i].expiry < time)
      && (k < |tickets| ==> tickets[k].expiry >= time)
  {
    var tickets, queue := Tickets(log, ttl), Replay(log, ttl).queue;
    var before := QueueIsSuffix(log, ttl);
    var more := EvictQueue(Replay(log, ttl), time);
    k := before + more;
    assert queue[more..] == tickets[k..];
    forall i | 0 <= i < k ensures tickets[i].expiry < time {
      assert i >= before ==> tickets[i] == queue[i - before];
    }
  }

  /** After a compaction the queue holds exactly the tickets that have not expired, in order,
      however many of them overwrites have made stale. */
  lemma QueueRefinesLog<K, V>(log: seq<Op<K, V>>, ttl: nat, time: int)
    requires Monotone(log + [Compact(time)])
    ensures Replay(log + [Compact(time)], ttl).queue == Live(Tickets(log, ttl), time)
    ensures forall i :: 0 <= i < |Replay(log + [Compact(time)], ttl).queue| ==>
                          Replay(log + [Compact(time)], ttl).queue[i].expiry >= time
  {
    assert (log + [Compact(time)])[..|log|] == log;
    MonotonePrefix(log, Compact(time));
    TicketsSorted(log, ttl);
    var k := PoppedAreExpired(log, ttl, time);
    LiveIsTail(Tickets(log, ttl), k, time);
  }

  /** The latest insert is still stored if it has not expired by now. */
  lemma {:induction false} LatestIsStored<K(!new), V>(log: seq<Op<K, V>>, ttl: nat, key: K, time: int)
    requires InsertOnly(log) && Monotone(log) && (log != [] ==> log[|log| - 1].time <= time)
    requires Latest(log, key, ttl).Some? && Latest(log, key, ttl).value.expiry >= time
    ensures key in Replay(log, ttl).entries
  {
    var before, last := log[..|log| - 1], log[|log| - 1];
    if !(last.Insert? && last.key == key) {
      LatestIsStored(before, ttl, key, last.time);
      if last.Compact? {
        EntriesAreLatest(before, ttl);
        EvictEntries(Replay(before, ttl), last.time, key);
      }
    }
  }

  /** Refinement: when time never runs backwards, a map fed by `insert` and read at `time` holds a
      key exactly if the expiry of its last insert is not before `time`, with that value. */
  lemma MapRefinesLog<K(!new), V>(log: seq<Op<K, V>>, ttl: nat, time: int, key: K)
    requires InsertOnly(log) && Monotone(log + [Compact(time)])
    ensures
      var entries, latest := Replay(log + [Compact(time)], ttl).entries, Latest(log, key, ttl);
      && (key in entries <==> latest.Some? && latest.value.expiry >= time)
      && (key in entries ==> entries[key] == latest.value)
  {
    var all := log + [Compact(time)];
    assert all[..|log|] == log;
    EntriesAreLatest(log, ttl);
    EntriesAreLatest(all, ttl);
    QueueRefinesLog(log, ttl, time);
    var entries := Replay(all, ttl).entries;
    if key in entries {
      assert Ticket(entries[key].expiry, key) in Replay(all, ttl).queue;
    }
    if Latest(log, key, ttl).Some? && Latest(log, key, ttl).value.expiry >= time {
      LatestIsStored(log, ttl, key, time);
      EvictEntries(Replay(log, ttl), time, key);
    }
  }

  // ---- the reference, in terms of the log alone -------------------------------------------

  /** Call `i` is the last insert of `key`. */
  predicate LastInsert<K(==), V>(log: seq<Op<K, V>>, key: K, i: int) {
    && 0 <= i < |log| && log[i].Insert? && log[i].key == key
    && forall j :: i < j < |log| ==> !(log[j].Insert? && log[j].key == key)
  }

  lemma {:induction false} LatestExactly<K, V>(log: seq<Op<K, V>>, key: K, ttl: nat)
    ensures Latest(log, key, ttl).None? <==> forall i :: 0 <= i < |log| ==> !(log[i].Insert? && log[i].key == key)
    ensures forall i :: LastInsert(log, key, i) ==> Latest(log, key, ttl) == Some(Entry(log[i].time + ttl, log[i].value))
    ensures Latest(log, key, ttl).Some? ==> exists i :: LastInsert(log, key, i)
  {
    if log != [] {
      var n := |log| - 1;
      LatestExactly(log[..n], key, ttl);
      if log[n].Insert? && log[n].key == key {
        assert LastInsert(log, key, n);
      } else {
        assert forall i :: LastInsert(log, key, i) <==> LastInsert(log[..n], key, i);
      }
    }
  }

  /** The inserts whose time plus the TTL is not before `time`. */
  function Unexpired<K, V>(log: seq<Op<K, V>>, ttl: nat, time: int): (marked: seq<bool>)
    ensures |marked| == |log| && forall i :: 0 <= i < |log| ==> (marked[i] <==> log[i].Insert? && log[i].time + ttl >= time)
  {
    seq(|log|, i requires 0 <= i < |log| => log[i].Insert? && log[i].time + ttl >= time)
  }

  /** `queue` holds the tickets of exactly the unexpired inserts, in order; `idx` lists these. */
  predicate Enumerates<K(==), V>(queue: seq<Ticket<K>>, idx: seq<nat>, log: seq<Op<K, V>>, ttl: nat, time: int) {
    && |queue| == |idx| && Lists(idx, Unexpired(log, ttl, time))
    && forall k :: 0 <= k < |idx| ==> idx[k] < |log| && log[idx[k]].Insert? && queue[k] == Ticket(log[idx[k]].time + ttl, log[idx[k]].key)
  }

  /** The ticket of a call, if it is an insert that has not expired. */
  function LiveTicket<K, V>(op: Op<K, V>, ttl: nat, time: int): seq<Ticket<K>> {
    if op.Insert? && op.time + ttl >= time then [Ticket(op.time + ttl, op.key)] else []
  }

  lemma LiveSnoc<K, V>(log: seq<Op<K, V>>, op: Op<K, V>, ttl: nat, time: int)
    ensures Live(Tickets(log + [op], ttl), time) == Live(Tickets(log, ttl), time) + LiveTicket(op, ttl, time)
  {
    assert (log + [op])[..|log|] == log;
    if op.Insert? {
      var tickets := Tickets(log, ttl);
      assert (tickets + [Ticket(op.time + ttl, op.key)])[..|tickets|] == tickets;
    }
  }

  lemma UnexpiredSnoc<K, V>(log: seq<Op<K, V>>, op: Op<K, V>, ttl: nat, time: int)
    ensures Unexpired(log + [op], ttl, time) == Unexpired(log, ttl, time) + [op.Insert? && op.time + ttl >= time]
  {
  }

  lemma EnumeratesSnoc<K, V>(queue: seq<Ticket<K>>, idx: seq<nat>, log: seq<Op<K, V>>, op: Op<K, V>, ttl: nat, time: int)
    returns (more: seq<nat>)
    requires Enumerates(queue, idx, log, ttl, time)
    ensures Enumerates(queue + LiveTicket(op, ttl, time), more, log + [op], ttl, time)
  {
    var mark := op.Insert? && op.time + ttl >= time;
    more := if mark then idx + [|log|] else idx;
    ListsSnoc(idx, Unexpired(log, ttl, time), mark);
    UnexpiredSnoc(log, op, ttl, time);
    var queue', longer := queue + LiveTicket(op, ttl, time), log + [op];
    forall k | 0 <= k < |more|
      ensures more[k] < |longer| && longer[more[k]].Insert?
      ensures queue'[k] == Ticket(longer[more[k]].time + ttl, longer[more[k]].key)
    {
      if k < |idx| {
        assert more[k] == idx[k] && longer[idx[k]] == log[idx[k]];
      }
    }
  }

  lemma {:induction false} LiveEnumerates<K, V>(log: seq<Op<K, V>>, ttl: nat, time: int) returns (idx: seq<nat>)
    ensures Enumerates(Live(Tickets(log, ttl), time), idx, log, ttl, time)
  {
    if log == [] {
      idx := [];
    } else {
      var before, op := log[..|log| - 1], log[|log| - 1];
      idx := LiveEnumerates(before, ttl, time);
      idx := EnumeratesSnoc(Live(Tickets(before, ttl), time), idx, before, op, ttl, time);
      LiveSnoc(before, op, ttl, time);
      assert log == before + [op];
    }
  }

  // ---- a map fed by get_or_insert_with ----------------------------------------------------

  /** The value a key was first given. */
  function First<K(==), V>(log: seq<Op<K, V>>, key: K): Option<V> {
    if log == [] then None
    else
      var before, last := First(log[..|log| - 1], key), log[|log| - 1];
      if before.None? && last.Ensure? && last.key == key then Some(last.value) else before
  }

  /** `get_or_insert_with` never enqueues a ticket, so such a map never evicts anything: a key is
      present exactly if it was ever asked for, with its first value. */
  lemma {:induction false} EnsuredStay<K(!new), V>(log: seq<Op<K, V>>, ttl: nat)
    requires forall i :: 0 <= i < |log| ==> !log[i].Insert?
    ensures Replay(log, ttl).queue == []
    ensures forall key :: key in Replay(log, ttl).entries <==> First(log, key).Some?
    ensures forall key :: key in Replay(log, ttl).entries ==> First(log, key) == Some(Replay(log, ttl).entries[key].value)
  {
    if log != [] {
      EnsuredStay(log[..|log| - 1], ttl);
    }
  }

  class TtlMap<K(==, !new), V> {
    const ttl: nat
    var innerMap: map<K, Entry<V>>
    var queue: seq<Ticket<K>>
    var lastCompaction: int
    ghost var log: seq<Op<K, V>>

    ghost predicate Valid()
      reads this
    {
      State(innerMap, queue) == Replay(log, ttl)
    }

    constructor (ttl: nat)
      ensures Valid() && this.ttl == ttl && log == []
    {
      this.ttl, innerMap, queue, lastCompaction, log := ttl, map[], [], 0, [];
    }

    method Insert(key: K, value: V, time: int)
      requires Valid()
      modifies this
      ensures Valid() && log == old(log) + [Op.Insert(key, value, time)]
    {
      var expiry := time + ttl;
      innerMap := innerMap[key := Entry(expiry, value)];
      queue := queue + [Ticket(expiry, key)];
      log := log + [Op.Insert(key, value, time)];
      assert log[..|log| - 1] == old(log);
    }

    /** `now` is the wall clock, which the source reads here itself. */
    method GetOrInsertWith(key: K, value: V, now: int) returns (stored: V)
      requires Valid()
      modifies this
      ensures Valid() && log == old(log) + [Ensure(key, value, now)]
      ensures innerMap == if key in old(innerMap) then old(innerMap) else old(innerMap)[key := Entry(now, value)]
      ensures queue == old(queue) && stored == innerMap[key].value
    {
      if key !in innerMap {
        innerMap := innerMap[key := Entry(now, value)];
      }
      stored := innerMap[key].value;
      log := log + [Ensure(key, value, now)];
      assert log[..|log| - 1] == old(log);
    }

    /** `get` and `get_mut`. If time never ran backwards and the map was fed by `insert`, the result
        is the value of the last insert of the key, as long as its time plus the TTL is not before
        `time`; and the queue holds the tickets of exactly the unexpired inserts, in order. */
    method Get(key: K, time: int) returns (value: Option<V>)
      requires Valid()
      modifies this
      ensures Valid() && log == old(log) + [Op.Compact(time)]
      ensures old(queue) == [] ==> innerMap == old(innerMap) && queue == []
      ensures value == if key in innerMap then Some(innerMap[key].value) else None
      ensures InsertOnly(old(log)) && Monotone(log) ==>
                && value == Answer(old(log), key, ttl, time)
                && (value.Some? <==> exists i :: LastInsert(old(log), key, i) && old(log)[i].time + ttl >= time)
                && (forall i :: LastInsert(old(log), key, i) && old(log)[i].time + ttl >= time ==> value == Some(old(log)[i].value))
                && (exists idx :: Enumerates(queue, idx, old(log), ttl, time))
    {
      Compact(time);
      value := if key in innerMap then Some(innerMap[key].value) else None;
      if InsertOnly(old(log)) && Monotone(log) {
        MapRefinesLog(old(log), ttl, time, key);
        LatestExactly(old(log), key, ttl);
        QueueRefinesLog(old(log), ttl, time);
        var idx := LiveEnumerates(old(log), ttl, time);
      }
    }

    method Compact(time: int)
      requires Valid()
      modifies this
      ensures Valid() && log == old(log) + [Op.Compact(time)]
      ensures State(innerMap, queue) == Evict(old(State(innerMap, queue)), time)
    {
      while queue != [] && queue[0].expiry < time
        invariant Evict(State(innerMap, queue), time) == Evict(old(State(innerMap, queue)), time)
        invariant log == old(log)
        decreases |queue|
      {
        var key := queue[0].key;
        queue := queue[1..];
        if key in innerMap && innerMap[key].expiry < time {
          innerMap := innerMap - {key};
        }
      }
      lastCompaction := time;
      log := log + [Op.Compact(time)];
      assert log[..|log| - 1] == old(log);
    }
  }
}
