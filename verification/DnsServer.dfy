/** The cluster DNS server: records arrive over NATS and are answered from the expiring stores.
    Times are in nanoseconds. */
module DnsServer {
  import opened Lifecycle
  import opened Naming
  import opened Heartbeat
  import opened Clock
  import Map = TtlMap
  import List = TtlList
  import Multi = TtlMultistore

  const TTL := 60 * SECOND
  const TTL_BUFFER := 10 * SECOND
  const SEND_PERIOD := TTL - TTL_BUFFER

  type Ipv4 = nat

  datatype RecordKey = RecordKey(cluster: string, name: string)

  /** `ip` is None if the value of the record does not parse as an address. */
  datatype Value = A(ip: Option<Ipv4>) | Txt(text: string)

  datatype Answers<V> = NxDomain | Records(values: seq<V>)

  /** The key a query is looked up under. */
  function KeyOf(query: string): (key: Option<RecordKey>)
    ensures key.None? <==> '.' !in query
  {
    LowerKeepsDots(query);
    var parts := DnsLookupKey(query);
    if parts.None? then None else Some(RecordKey(parts.value.1, parts.value.0))
  }

  /** What an A query is answered with after the given calls. */
  function AnswerA(log: seq<Map.Op<RecordKey, Ipv4>>, query: string, now: int): Answers<Ipv4> {
    var key := KeyOf(query);
    if key.None? then NxDomain
    else
      var found := Map.Answer(log, key.value, TTL, now);
      Records(if found.Some? then [found.value] else [])
  }

  /** The answer is the last address set under `key`, if there is one and it is at most 60 s old. */
  ghost predicate AnswersLast(answers: Answers<Ipv4>, log: seq<Map.Op<RecordKey, Ipv4>>, key: RecordKey, now: int) {
    && answers.Records?
    && (forall i :: Map.LastInsert(log, key, i) ==>
          answers.values == if now <= log[i].time + 60_000_000_000 then [log[i].value] else [])
    && ((forall i :: 0 <= i < |log| ==> !(log[i].Insert? && log[i].key == key)) ==> answers.values == [])
  }

  /** The answer lists exactly the texts set under `key` less than 60 s ago, oldest first, if time has
      not run backwards for that key. */
  ghost predicate AnswersTexts(answers: Answers<string>, log: seq<Multi.Call<RecordKey, string>>, key: RecordKey, now: int) {
    && answers.Records?
    && (List.Monotone(Multi.CallsOn(log, key) + [List.Compact(now)]) ==>
          exists idx :: Multi.Enumerates(answers.values, idx, log, key, 60_000_000_000, now))
  }

  lemma AnswersHosts(log: seq<Map.Op<RecordKey, Ipv4>>, query: string, now: int)
    ensures forall id, cluster :: Names(query, id, cluster) ==>
              AnswersLast(AnswerA(log, query, now), log, RecordKey(cluster, id), now)
  {
    forall id, cluster | Names(query, id, cluster)
      ensures AnswersLast(AnswerA(log, query, now), log, RecordKey(cluster, id), now)
    {
      NameIsFound(query, id, cluster);
      Map.LatestExactly(log, RecordKey(cluster, id), TTL);
    }
  }

  lemma NobodyNamed(query: string)
    requires KeyOf(query).None?
    ensures forall id, cluster :: !Names(query, id, cluster)
  {
    forall id, cluster ensures !Names(query, id, cluster) {
      if Names(query, id, cluster) {
        NameIsFound(query, id, cluster);
      }
    }
  }

  class ClusterDnsServer {
    const aRecords: Map.TtlMap<RecordKey, Ipv4>
    const txtRecords: Multi.TtlMultistore<RecordKey, string>

    ghost predicate Valid()
      reads this, aRecords, txtRecords, txtRecords.repr
    {
      && aRecords.Valid() && aRecords.ttl == TTL && Map.InsertOnly(aRecords.log)
      && txtRecords.Valid() && txtRecords.ttl == TTL
      && this !in txtRecords.repr && aRecords !in txtRecords.repr
    }

    constructor ()
      ensures Valid() && fresh(aRecords) && fresh(txtRecords.repr)
      ensures aRecords.log == [] && txtRecords.log == []
    {
      aRecords := new Map.TtlMap(TTL);
      txtRecords := new Multi.TtlMultistore(TTL);
    }

    /** A record is stored under its cluster and name; an address that does not parse is skipped. */
    method SetRecord(key: RecordKey, value: Value, now: int)
      requires Valid()
      modifies aRecords, txtRecords.repr
      ensures Valid() && fresh(txtRecords.repr - old(txtRecords.repr))
      ensures aRecords.log ==
              if value.A? && value.ip.Some? then old(aRecords.log) + [Map.Insert(key, value.ip.value, now)]
              else old(aRecords.log)
      ensures txtRecords.log ==
              if value.Txt? then old(txtRecords.log) + [Multi.Call(key, List.Op.Push(value.text, now))]
              else old(txtRecords.log)
    {
      match value
      case A(Some(ip)) => aRecords.Insert(key, ip, now);
      case A(None) =>
      case Txt(text) => txtRecords.Insert(key, text, now, now);
    }

    /** An A query for the host name of a backend is answered with the last address set under its
        cluster and id, while that is at most 60 s old. A name without a dot does not exist. */
    method LookupA(query: string, now: int) returns (answers: Answers<Ipv4>)
      requires Valid()
      modifies aRecords
      ensures Valid()
      ensures answers.NxDomain? <==> '.' !in query
      ensures aRecords.log == old(aRecords.log) + (if answers.Records? then [Map.Compact(now)] else [])
      ensures Map.Monotone(old(aRecords.log) + [Map.Compact(now)]) ==>
                answers == AnswerA(old(aRecords.log), query, now)
      ensures Map.Monotone(old(aRecords.log) + [Map.Compact(now)]) ==>
                forall id, cluster :: Names(query, id, cluster) ==>
                  AnswersLast(answers, old(aRecords.log), RecordKey(cluster, id), now)
    {
      var key := KeyOf(query);
      AnswersHosts(aRecords.log, query, now);
      if key.None? {
        return NxDomain;
      }
      var found := aRecords.Get(key.value, now);
      answers := Records(if found.Some? then [found.value] else []);
    }

    /** A TXT query for the host name of a backend is answered with all texts set under its cluster and
        id that are less than 60 s old, oldest first. */
    method LookupTxt(query: string, now: int) returns (answers: Answers<string>)
      requires Valid()
      modifies txtRecords.repr
      ensures Valid() && txtRecords.repr == old(txtRecords.repr)
      ensures answers.NxDomain? <==> '.' !in query
      ensures forall id, cluster :: Names(query, id, cluster) ==>
                AnswersTexts(answers, old(txtRecords.log), RecordKey(cluster, id), now)
    {
      var key := KeyOf(query);
      ghost var log := txtRecords.log;
      if key.None? {
        NobodyNamed(query);
        return NxDomain;
      }
      Multi.CallsSnoc(log, Multi.Call(key.value, List.Compact(now)), key.value);
      Multi.KeysAreInserted(log, key.value);
      ghost var idx := Multi.LiveEnumerates(log, key.value, TTL, now);
      var found := txtRecords.Iter(key.value, now);
      answers := Records(if found.Some? then found.value else []);
      forall id, cluster | Names(query, id, cluster) ensures AnswersTexts(answers, log, RecordKey(cluster, id), now) {
        NameIsFound(query, id, cluster);
      }
    }
  }

  // ---- continuity -------------------------------------------------------------------------

  function Times(log: seq<Map.Op<RecordKey, Ipv4>>): (times: seq<int>)
    ensures |times| == |log| && forall i :: 0 <= i < |log| ==> times[i] == log[i].time
  {
    seq(|log|, i requires 0 <= i < |log| => log[i].time)
  }

  function SetsOf(log: seq<Map.Op<RecordKey, Ipv4>>, key: RecordKey): (beat: seq<bool>)
    ensures |beat| == |log|
    ensures forall i :: 0 <= i < |log| ==> (beat[i] <==> log[i].Insert? && log[i].key == key)
  {
    seq(|log|, i requires 0 <= i < |log| => log[i].Insert? && log[i].key == key)
  }

  lemma {:induction false} LatestIs(log: seq<Map.Op<RecordKey, Ipv4>>, key: RecordKey, n: nat)
    requires n <= |log|
    ensures
      var last := LastBeat(SetsOf(log, key), n);
      Map.Latest(log[..n], key, TTL) ==
        if last.None? then None else Some(Map.Entry(log[last.value].time + TTL, log[last.value].value))
  {
    if n > 0 {
      assert log[..n][..n - 1] == log[..n - 1];
      LatestIs(log, key, n - 1);
    }
  }

  /** The drone publishes a backend's address at `sent[i]`, sleeping 50 s after each publication, which
      itself takes at most `jitter`, and the record arrives within `delay`; together these are at most
      10 s. */
  predicate Refreshed(log: seq<Map.Op<RecordKey, Ipv4>>, sent: seq<int>, key: RecordKey, jitter: nat, delay: nat) {
    && |sent| == |log| && Sorted(Times(log)) && jitter + delay <= 10_000_000_000
    && Steady(sent, SetsOf(log, key), 50_000_000_000 + jitter)
    && forall i :: 0 <= i < |log| && SetsOf(log, key)[i] ==> sent[i] <= log[i].time <= sent[i] + delay
  }

  /** Continuity: from the first arrival until exactly 60 s after the last one, every query for the host
      name of the backend is answered with the latest address; and a query after that with none. */
  lemma AddressContinuity(
      log: seq<Map.Op<RecordKey, Ipv4>>, sent: seq<int>, id: string, cluster: string, query: string,
      jitter: nat, delay: nat, now: int)
    requires Names(query, id, cluster) && Refreshed(log, sent, RecordKey(cluster, id), jitter, delay)
    requires LastBeat(SetsOf(log, RecordKey(cluster, id)), Arrived(Times(log), now)).Some?
    ensures
      var n, beat := Arrived(Times(log), now), SetsOf(log, RecordKey(cluster, id));
      AnswerA(log[..n], query, now) ==
        Records(if now <= log[LastBeat(beat, |beat|).value].time + 60_000_000_000 then [log[LastBeat(beat, n).value].value]
                else [])
  {
    var key := RecordKey(cluster, id);
    var n, beat := Arrived(Times(log), now), SetsOf(log, key);
    var end := LastBeat(beat, |beat|).value;
    NameIsFound(query, id, cluster);
    LatestIs(log, key, n);
    if now <= log[end].time + TTL {
      DelayedIsSteady(sent, Times(log), beat, SEND_PERIOD + jitter, delay);
      SteadyWeaker(Times(log), beat, SEND_PERIOD + jitter + delay, TTL);
      BeatIsRecent(Times(log), beat, TTL, now);
    } else {
      assert Times(log)[end] <= now;
      assert LastBeat(beat, n).value == end;
    }
  }
}
