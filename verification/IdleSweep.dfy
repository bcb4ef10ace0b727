/** From an open connection to the sweep decision: the tracker feeds the recorder, the recorder
    stamps the route with whole seconds, and the idle loop of the Ready step reads the stamp.
    Times are in ticks (nanoseconds) since the epoch. */
module IdleSweep {
  import opened Lifecycle
  import opened Database
  import opened ConnectionTracker
  import opened Clock

  /** `unixepoch()` */
  function Seconds(time: nat): nat {
    time / SECOND
  }

  // ---- the idle loop ----------------------------------------------------------------------

  /** One pass of the idle loop: the stamp it reads, and the two readings of the clock. */
  datatype Check = Check(lastActive: int, now: int, later: int)
  {
    /** A check that finds the clock past this time sweeps the backend. */
    function Deadline(maxIdle: nat): int {
      lastActive * SECOND + maxIdle
    }
  }

  datatype Idle = Sweeps | Sleeps(ticks: nat) | ClockError

  function Decide(check: Check, maxIdle: nat): Idle {
    var nextCheck := check.Deadline(maxIdle);
    if nextCheck < check.now then Sweeps
    else if nextCheck < check.later then ClockError
    else Sleeps(nextCheck - check.later)
  }

  /** What the idle loop ends with after the given checks; it is still waiting if that is `None`. */
  function IdleOutcome(checks: seq<Check>, maxIdle: nat): Option<Idle> {
    if checks == [] then None
    else if Decide(checks[0], maxIdle).Sleeps? then IdleOutcome(checks[1..], maxIdle)
    else Some(Decide(checks[0], maxIdle))
  }

  /** The loop ends at the first check that does not sleep. */
  lemma {:induction false} EndsAtFirst(checks: seq<Check>, maxIdle: nat) returns (i: nat)
    ensures i <= |checks| && forall j :: 0 <= j < i ==> Decide(checks[j], maxIdle).Sleeps?
    ensures IdleOutcome(checks, maxIdle) == if i < |checks| then Some(Decide(checks[i], maxIdle)) else None
    ensures i < |checks| ==> !Decide(checks[i], maxIdle).Sleeps?
  {
    i := 0;
    if checks != [] && Decide(checks[0], maxIdle).Sleeps? {
      var rest := EndsAtFirst(checks[1..], maxIdle);
      i := rest + 1;
      assert forall j :: 0 < j < i ==> checks[j] == checks[1..][j - 1];
    }
  }

  method IdleLoop(checks: seq<Check>, maxIdle: nat) returns (outcome: Option<Idle>)
    ensures outcome == IdleOutcome(checks, maxIdle)
    ensures outcome == None <==> forall i :: 0 <= i < |checks| ==> Decide(checks[i], maxIdle).Sleeps?
    ensures outcome.Some? ==>
      exists i :: && 0 <= i < |checks| && outcome.value == Decide(checks[i], maxIdle) && !outcome.value.Sleeps?
                  && forall j :: 0 <= j < i ==> Decide(checks[j], maxIdle).Sleeps?
  {
    var i := 0;
    while i < |checks|
      invariant 0 <= i <= |checks|
      invariant IdleOutcome(checks, maxIdle) == IdleOutcome(checks[i..], maxIdle)
      invariant forall j :: 0 <= j < i ==> Decide(checks[j], maxIdle).Sleeps?
    {
      var decision := Decide(checks[i], maxIdle);
      if !decision.Sleeps? {
        return Some(decision);
      }
      assert checks[i..][1..] == checks[i + 1..];
      i := i + 1;
    }
    return None;
  }

  /** The stamp does not change, the clock does not run backwards, and no sleep ends early. */
  predicate Undisturbed(checks: seq<Check>, maxIdle: nat) {
    && (forall k :: 0 <= k < |checks| ==> checks[k].lastActive == checks[0].lastActive && checks[k].now <= checks[k].later)
    && (forall k :: 0 < k < |checks| && Decide(checks[k - 1], maxIdle).Sleeps? ==>
          checks[k - 1].later + Decide(checks[k - 1], maxIdle).ticks <= checks[k].now)
  }

  /** The loop wakes up at the deadline at the earliest. It fails at once if it finds the clock on the
      deadline and then past it, sweeps if it finds it past the deadline, and sleeps on for no time
      only if the clock stands still on the deadline. */
  lemma NextCheckExactly(previous: Check, next: Check, maxIdle: nat)
    requires Undisturbed([previous, next], maxIdle) && Decide(previous, maxIdle).Sleeps?
    ensures
      var deadline := previous.Deadline(maxIdle);
      && (Decide(next, maxIdle) == ClockError <==> next.now == deadline < next.later)
      && (Decide(next, maxIdle) == Sweeps <==> deadline < next.now)
      && (Decide(next, maxIdle) == Sleeps(0) <==> next.now == next.later == deadline)
  {
    var checks := [previous, next];
    assert checks[1].lastActive == checks[0].lastActive && checks[0].later + Decide(checks[0], maxIdle).ticks <= checks[1].now;
  }

  /** The clock passes the deadline of check `i` between its two readings, and had passed the deadline
      of no check before it. */
  predicate Overtaken(checks: seq<Check>, i: nat, maxIdle: nat) {
    && i < |checks| && checks[i].now <= checks[i].Deadline(maxIdle) < checks[i].later
    && forall j :: 0 <= j < i ==> checks[j].later <= checks[j].Deadline(maxIdle)
  }

  /** The step of a backend fails on the clock, which ends its run with the backend still stored as
      Ready, exactly if the clock passes the deadline between the two readings of one check, whether
      or not the stamp, and with it the deadline, has moved between the checks. */
  lemma ClockErrorExactly(checks: seq<Check>, maxIdle: nat)
    requires forall k :: 0 <= k < |checks| ==> checks[k].now <= checks[k].later
    ensures IdleOutcome(checks, maxIdle) == Some(ClockError) <==> exists i :: Overtaken(checks, i, maxIdle)
  {
    var i := EndsAtFirst(checks, maxIdle);
    if i < |checks| && Decide(checks[i], maxIdle) == ClockError {
      assert Overtaken(checks, i, maxIdle);
    }
    if m: nat :| Overtaken(checks, m, maxIdle) {
      assert Decide(checks[m], maxIdle) == ClockError;
      assert forall j :: 0 <= j < m ==> Decide(checks[j], maxIdle).Sleeps?;
    }
  }

  /** It does happen, to every idle backend whose loop wakes up exactly on its deadline and whose clock
      then moves on by a tick. */
  lemma ClockCanFail(stamp: nat, maxIdle: nat)
    ensures
      var deadline := stamp * SECOND + maxIdle;
      var checks := [Check(stamp, stamp * SECOND, stamp * SECOND), Check(stamp, deadline, deadline + 1)];
      Undisturbed(checks, maxIdle) && IdleOutcome(checks, maxIdle) == Some(ClockError)
  {
    var deadline := stamp * SECOND + maxIdle;
    var checks := [Check(stamp, stamp * SECOND, stamp * SECOND), Check(stamp, deadline, deadline + 1)];
    assert Overtaken(checks, 1, maxIdle);
    ClockErrorExactly(checks, maxIdle);
  }

  // ---- timely stamps ----------------------------------------------------------------------

  predicate TimelyAt(check: Check, period: nat, delay: nat, write: nat, read: nat) {
    check.lastActive == Seconds(write) && write <= read <= write + period && read <= check.now <= read + delay
  }

  /** The stamp was written at most `period` before it was read, and read at most `delay` before it
      was compared with the clock. */
  ghost predicate Timely(check: Check, period: nat, delay: nat) {
    exists write: nat, read: nat :: TimelyAt(check, period, delay, write, read)
  }

  /** The exact idle limit that rules out a sweep for every timely check: one tick less than period,
      delay and a second, the second being lost to whole-second stamps. */
  lemma SweepExactly(maxIdle: nat, period: nat, delay: nat)
    ensures (forall check :: Timely(check, period, delay) ==> Decide(check, maxIdle) != Sweeps) <==>
            maxIdle >= period + delay + 1_000_000_000 - 1
  {
    if maxIdle >= period + delay + 1_000_000_000 - 1 {
      forall check | Timely(check, period, delay) ensures Decide(check, maxIdle) != Sweeps {
        var write: nat, read: nat :| TimelyAt(check, period, delay, write, read);
        assert write == check.lastActive * SECOND + write % SECOND;
      }
    } else {
      var write := SECOND - 1;
      var check := Check(0, write + period + delay, write + period + delay);
      assert TimelyAt(check, period, delay, write, write + period);
      assert Decide(check, maxIdle) == Sweeps;
    }
  }

  // ---- the history of the recorder --------------------------------------------------------

  /** When the updates that followed a call of the tracker were executed, by subdomain. */
  type Round = map<string, nat>

  /** The route of a backend: the number of calls made before it was inserted, and its first stamp. */
  datatype Start = Start(from: nat, stamp: int)

  /** The last_active column of backend `b` after the given rounds. */
  function LastActive(rounds: seq<Round>, b: string, start: Start): int {
    var n := |rounds|;
    if n <= start.from then start.stamp
    else if b in rounds[n - 1] then Seconds(rounds[n - 1][b])
    else LastActive(rounds[..n - 1], b, start)
  }

  /** Updates follow only drains, and only those of active backends. */
  ghost predicate Honest(log: seq<Op>, rounds: seq<Round>) {
    && |rounds| == |log|
    && forall i, b :: 0 <= i < |log| && b in rounds[i] ==> log[i] == Drained && Active(log[..i], b)
  }

  lemma HonestGrows(log: seq<Op>, rounds: seq<Round>, op: Op, round: Round)
    requires Honest(log, rounds)
    requires forall b :: b in round ==> op == Drained && Active(log, b)
    ensures Honest(log + [op], rounds + [round])
  {
    var longer, all := log + [op], rounds + [round];
    assert longer[..|log|] == log;
    forall i, b | 0 <= i < |longer| && b in all[i] ensures longer[i] == Drained && Active(longer[..i], b) {
      if i < |log| {
        assert longer[..i] == log[..i] && all[i] == rounds[i];
      }
    }
  }

  /** A route after a round of the recorder. */
  function Recorded(row: Row, round: Round): Row {
    if row.subdomain in round then row.(lastActive := Seconds(round[row.subdomain])) else row
  }

  function Stamps(active: seq<string>, clock: string -> nat): (stamps: seq<int>)
    ensures |stamps| == |active| && forall i :: 0 <= i < |active| ==> stamps[i] == Seconds(clock(active[i]))
  {
    seq(|active|, i requires 0 <= i < |active| => Seconds(clock(active[i])))
  }

  /** Round by round, the stored column is the one read off the history. */
  lemma RecordedIsLastActive(row: Row, rounds: seq<Round>, round: Round, start: Start)
    requires start.from <= |rounds| && row.lastActive == LastActive(rounds, row.subdomain, start)
    ensures Recorded(row, round).lastActive == LastActive(rounds + [round], row.subdomain, start)
  {
    assert (rounds + [round])[..|rounds|] == rounds;
  }

  lemma RoundStamps(rows: set<Row>, active: seq<string>, clock: string -> nat)
    ensures (set row | row in rows :: Stamped(row, active, Stamps(active, clock))) ==
            set row | row in rows :: Recorded(row, map b | b in active :: clock(b))
  {
    forall row | row in rows
      ensures Stamped(row, active, Stamps(active, clock)) == Recorded(row, map b | b in active :: clock(b))
    {
    }
  }

  /** The latest drain in the log. */
  function LastDrain(log: seq<Op>): (last: Option<nat>)
    ensures last.Some? ==> last.value < |log| && log[last.value] == Drained
    ensures forall i :: (if last.Some? then last.value + 1 else 0) <= i < |log| ==> log[i] != Drained
  {
    if log == [] then None
    else if log[|log| - 1] == Drained then Some(|log| - 1)
    else LastDrain(log[..|log| - 1])
  }

  /** `b` has an open connection from call `since` on. */
  predicate OpenSince(log: seq<Op>, b: string, since: nat) {
    since < |log| && forall n :: since < n <= |log| ==> Open(log[..n], b) > 0
  }

  /** Before call `i`, `b` has an open connection, or has had a request since the last drain. */
  predicate Busy(log: seq<Op>, i: nat, b: string)
    requires i <= |log|
  {
    Open(log[..i], b) > 0 || exists j :: 0 <= j < i && log[j] == Requested(b) && Drained !in log[j..i]
  }

  /** At every drain after call `since`, `b` is in use. */
  predicate BusySince(log: seq<Op>, b: string, since: nat) {
    forall i :: since < i < |log| && log[i] == Drained ==> Busy(log, i, b)
  }

  lemma BusyIsActive(log: seq<Op>, i: nat, b: string)
    requires i <= |log|
    ensures Busy(log, i, b) <==> Active(log[..i], b)
  {
    FreshExactly(log[..i], b);
    assert forall j :: 0 <= j < i ==> log[..i][j..] == log[j..i] && log[..i][j] == log[j];
  }

  /** From call `since` on, every drain that reported `b` was followed by an update of its route. */
  predicate NoneFailed(log: seq<Op>, rounds: seq<Round>, b: string, since: nat) {
    |rounds| == |log| && forall i :: since < i < |log| && log[i] == Drained && Active(log[..i], b) ==> b in rounds[i]
  }

  /** The last drain came after `since`, and its update of `b` at most `period` before `read`. */
  predicate Recent(log: seq<Op>, rounds: seq<Round>, b: string, since: nat, read: nat, period: nat) {
    && |rounds| == |log| && LastDrain(log).Some? && since < LastDrain(log).value
    && (var round := rounds[LastDrain(log).value]; b in round ==> round[b] <= read <= round[b] + period)
  }

  /** What holds of a history holds of what came before. */
  lemma KeptInPrefix(log: seq<Op>, rounds: seq<Round>, b: string, since: nat, n: nat)
    requires Honest(log, rounds) && BusySince(log, b, since) && NoneFailed(log, rounds, b, since) && n <= |log|
    ensures Honest(log[..n], rounds[..n]) && BusySince(log[..n], b, since) && NoneFailed(log[..n], rounds[..n], b, since)
  {
    assert forall k :: 0 <= k <= n ==> log[..n][..k] == log[..k];
    forall i | since < i < n && log[..n][i] == Drained ensures Busy(log[..n], i, b) {
      BusyIsActive(log, i, b);
      BusyIsActive(log[..n], i, b);
    }
  }

  /** The stamp is that of the last round that updated the route. */
  lemma {:induction false} LastRound(rounds: seq<Round>, b: string, start: Start, i: nat)
    requires start.from <= i < |rounds| && b in rounds[i] && forall k :: i < k < |rounds| ==> b !in rounds[k]
    ensures LastActive(rounds, b, start) == Seconds(rounds[i][b])
  {
    if i < |rounds| - 1 {
      LastRound(rounds[..|rounds| - 1], b, start, i);
    }
  }

  /** While a backend is in use, every drain reports it, so its stamp is that of the last drain. */
  lemma StampIsLastDrain(log: seq<Op>, rounds: seq<Round>, b: string, start: Start, since: nat)
    requires Honest(log, rounds) && BusySince(log, b, since) && NoneFailed(log, rounds, b, since)
    requires start.from <= since && LastDrain(log).Some? && LastDrain(log).value > since
    ensures
      var round := rounds[LastDrain(log).value];
      b in round && LastActive(rounds, b, start) == Seconds(round[b])
  {
    var last := LastDrain(log).value;
    BusyIsActive(log, last, b);
    LastRound(rounds, b, start, last);
  }

  /** The stamp of the one route of `b`. */
  ghost function StampOf(rows: set<Row>, b: string): int
    requires exists row :: row in rows && row.subdomain == b
  {
    var row :| row in rows && row.subdomain == b;
    row.lastActive
  }

  // ---- tracker, recorder and database together --------------------------------------------

  class Activity {
    const tracker: Tracker
    const db: DroneDatabase
    ghost var rounds: seq<Round>
    ghost var starts: map<string, Start>

    /** The column of a row is the one read off the history. */
    ghost predicate Current(row: Row)
      reads this
    {
      && row.backend == row.subdomain && row.subdomain in starts && starts[row.subdomain].from <= |rounds|
      && row.lastActive == LastActive(rounds, row.subdomain, starts[row.subdomain])
    }

    ghost predicate Valid()
      reads this, tracker, db
    {
      && tracker.Valid() && db.Valid() && Honest(tracker.log, rounds)
      && forall row :: row in db.routes ==> Current(row)
    }

    /** A drone starts with an empty tracker and the routes of its last life. */
    constructor (tracker: Tracker, db: DroneDatabase)
      requires tracker.Valid() && tracker.log == [] && db.Valid()
      requires forall row :: row in db.routes ==> row.backend == row.subdomain
      ensures Valid() && this.tracker == tracker && this.db == db && rounds == []
      ensures forall row :: row in db.routes ==> row.subdomain in starts && starts[row.subdomain] == Start(0, row.lastActive)
    {
      this.tracker, this.db, rounds := tracker, db, [];
      starts := map b | b in (set row | row in db.routes :: row.subdomain) :: Start(0, StampOf(db.routes, b));
    }

    /** A call of the tracker that is not a drain changes no stamp. */
    method Track(op: Op)
      requires Valid() && op != Drained
      modifies this, tracker
      ensures Valid() && tracker.log == old(tracker.log) + [op]
      ensures rounds == old(rounds) + [map[]] && starts == old(starts)
    {
      match op {
        case Requested(b) => tracker.TrackRequest(b);
        case Opened(b) => tracker.IncrementConnections(b);
        case Closed(b) => tracker.DecrementConnections(b);
        case Drained =>
      }
      HonestGrows(old(tracker.log), old(rounds), op, map[]);
      rounds := rounds + [map[]];
      forall row | row in db.routes ensures Current(row) {
        assert old(Current(row));
        RecordedIsLastActive(row, old(rounds), map[], starts[row.subdomain]);
      }
    }

    /** The executor inserts the route of a backend under its own name. */
    method InsertRoute(b: string, address: Address, now: nat)
      requires Valid()
      modifies this, db
      ensures Valid() && rounds == old(rounds) && starts == old(starts)[b := Start(|rounds|, Seconds(now))]
      ensures db.routes == InsertOrReplace(old(db.routes), Row(b, b, address, Seconds(now)))
      ensures db.backends == old(db.backends)
    {
      db.InsertProxyRoute(b, b, address, Seconds(now));
      starts := starts[b := Start(|rounds|, Seconds(now))];
      forall row | row in db.routes ensures Current(row) {
        assert row.subdomain != b ==> row in old(db.routes) && old(Current(row));
      }
    }

    /** One round of `record_connections`. The update of subdomain b executes at clock(b); the first
        `reached` updates are carried out. Exactly the active backends' routes are stamped if no
        update fails, and none but those of active backends otherwise. */
    method RecordOnce(clock: string -> nat, reached: nat) returns (ok: bool, ghost round: Round)
      requires Valid() && Fits(tracker.log)
      modifies this, tracker, db
      ensures Valid() && tracker.log == old(tracker.log) + [Drained]
      ensures rounds == old(rounds) + [round] && starts == old(starts) && db.backends == old(db.backends)
      ensures db.routes == set row | row in old(db.routes) :: Recorded(row, round)
      ensures forall b :: b in round ==> Active(old(tracker.log), b) && round[b] == clock(b)
      ensures ok ==> forall b :: Active(old(tracker.log), b) ==> b in round
      ensures ok ==> forall i, b ::
                0 <= i < |old(tracker.log)| && old(tracker.log)[i] == Requested(b) && Drained !in old(tracker.log)[i..] ==>
                  b in round
    {
      ghost var log, rows := tracker.log, db.routes;
      var active := tracker.GetAndClearActiveBackends();
      ok := db.ResetLastActiveTimes(active, Stamps(active, clock), reached);
      ghost var n := if ok then |active| else reached;
      round := map b | b in active[..n] :: clock(b);
      RoundStamps(rows, active[..n], clock);
      assert Stamps(active, clock)[..n] == Stamps(active[..n], clock);
      assert ok ==> active[..n] == active;
      HonestGrows(log, rounds, Drained, round);
      forall i, b | 0 <= i < |log| && log[i] == Requested(b) && Drained !in log[i..] ensures Active(log, b) {
        FreshExactly(log, b);
      }
      rounds := rounds + [round];
      forall row | row in db.routes ensures Current(row) {
        var before :| before in rows && row == Recorded(before, round);
        assert old(Current(before));
        RecordedIsLastActive(before, old(rounds), round, starts[before.subdomain]);
      }
    }

    /** What the idle loop reads: the stamp that the history says, or a failure without a route. */
    method ReadStamp(b: string) returns (stamp: Option<int>)
      requires Valid()
      ensures stamp.Some? ==> b in starts && stamp.value == LastActive(rounds, b, starts[b])
      ensures stamp.None? <==> forall row :: row in db.routes ==> row.subdomain != b
    {
      stamp := db.GetBackendLastActive(b);
      assert forall row :: row in db.routes ==> Current(row);
    }

    /** No sweep while in use, end to end. One pass of the idle loop reads the stamp of `b` from the
        database at `read` and the clock at `now` and `later`. If from call `since` of the tracker on b
        has had a connection open or a request between every two drains, its route is older than that,
        no update of b has failed since,
        the last one is at most `period` older than the read and that at most `delay` older than
        `now`, then an idle limit of at least period + delay + 1 s - 1 tick rules out a sweep. */
    method IdleCheck(b: string, now: nat, later: nat, maxIdle: nat,
                     ghost since: nat, ghost read: nat, ghost period: nat, ghost delay: nat)
      returns (stamp: Option<int>, idle: Idle)
      requires Valid()
      ensures stamp.None? <==> forall row :: row in db.routes ==> row.subdomain != b
      ensures stamp.Some? ==> idle == Decide(Check(stamp.value, now, later), maxIdle)
      ensures
        && stamp.Some? && b in starts && starts[b].from <= since
        && BusySince(tracker.log, b, since) && NoneFailed(tracker.log, rounds, b, since)
        && Recent(tracker.log, rounds, b, since, read, period) && read <= now <= read + delay
        && maxIdle >= period + delay + 1_000_000_000 - 1
        ==> idle != Sweeps
    {
      stamp := ReadStamp(b);
      if stamp.None? {
        return None, ClockError;
      }
      var check := Check(stamp.value, now, later);
      idle := Decide(check, maxIdle);
      if && b in starts && starts[b].from <= since
         && BusySince(tracker.log, b, since) && NoneFailed(tracker.log, rounds, b, since)
         && Recent(tracker.log, rounds, b, since, read, period) && read <= now <= read + delay {
        StampIsLastDrain(tracker.log, rounds, b, starts[b], since);
        assert TimelyAt(check, period, delay, rounds[LastDrain(tracker.log).value][b], read);
        SweepExactly(maxIdle, period, delay);
      }
    }
  }

  // ---- the whole loop ---------------------------------------------------------------------

  /** One look of the idle loop at a history: the stamp is read at `read`, after the first `seen`
      calls of the tracker and their updates, and the clock at `now` and then at `later`. */
  datatype Look = Look(seen: nat, read: nat, now: nat, later: nat)

  /** The stamps that the idle loop finds, look by look. */
  function Checks(looks: seq<Look>, rounds: seq<Round>, b: string, start: Start): seq<Check>
    requires forall i :: 0 <= i < |looks| ==> looks[i].seen <= |rounds|
  {
    seq(|looks|, i requires 0 <= i < |looks| =>
      Check(LastActive(rounds[..looks[i].seen], b, start), looks[i].now, looks[i].later))
  }

  /** Every look finds the stamp of a recent drain. */
  predicate Timed(looks: seq<Look>, log: seq<Op>, rounds: seq<Round>, b: string, since: nat, period: nat, delay: nat)
    requires |rounds| == |log|
  {
    forall i :: 0 <= i < |looks| ==>
      && looks[i].seen <= |log| && looks[i].read <= looks[i].now <= looks[i].read + delay
      && Recent(log[..looks[i].seen], rounds[..looks[i].seen], b, since, looks[i].read, period)
  }

  /** No sweep while in use, for the whole loop: if from call `since` on backend `b` has an open
      connection or a request between every two drains, no update of its route fails and every look
      finds a recent stamp, then the idle loop does not end in a sweep, however often it looks. */
  lemma NoSweepWhileBusy(
      log: seq<Op>, rounds: seq<Round>, b: string, start: Start, since: nat,
      looks: seq<Look>, period: nat, delay: nat, maxIdle: nat)
    requires Honest(log, rounds) && BusySince(log, b, since) && NoneFailed(log, rounds, b, since) && start.from <= since
    requires Timed(looks, log, rounds, b, since, period, delay) && maxIdle >= period + delay + 1_000_000_000 - 1
    ensures IdleOutcome(Checks(looks, rounds, b, start), maxIdle) != Some(Sweeps)
  {
    var i := EndsAtFirst(Checks(looks, rounds, b, start), maxIdle);
    if i < |looks| {
      var look := looks[i];
      var seen, done := log[..look.seen], rounds[..look.seen];
      KeptInPrefix(log, rounds, b, since, look.seen);
      StampIsLastDrain(seen, done, b, start, since);
      assert TimelyAt(Checks(looks, rounds, b, start)[i], period, delay, done[LastDrain(seen).value][b], look.read);
      SweepExactly(maxIdle, period, delay);
    }
  }

  /** In particular while a long-lived connection stays open. */
  lemma NoSweepWhileConnected(
      log: seq<Op>, rounds: seq<Round>, b: string, start: Start, since: nat,
      looks: seq<Look>, period: nat, delay: nat, maxIdle: nat)
    requires Honest(log, rounds) && OpenSince(log, b, since) && NoneFailed(log, rounds, b, since) && start.from <= since
    requires Timed(looks, log, rounds, b, since, period, delay) && maxIdle >= period + delay + 1_000_000_000 - 1
    ensures IdleOutcome(Checks(looks, rounds, b, start), maxIdle) != Some(Sweeps)
  {
    assert BusySince(log, b, since);
    NoSweepWhileBusy(log, rounds, b, start, since, looks, period, delay, maxIdle);
  }

  lemma {:induction false} UntouchedStamp(rounds: seq<Round>, b: string, start: Start, n: nat)
    requires start.from <= n <= |rounds| && forall i :: n <= i < |rounds| ==> b !in rounds[i]
    ensures LastActive(rounds, b, start) == LastActive(rounds[..n], b, start)
  {
    var m := |rounds|;
    if n < m {
      UntouchedStamp(rounds[..m - 1], b, start, n);
      assert rounds[..m - 1][..n] == rounds[..n];
    } else {
      assert rounds[..n] == rounds;
    }
  }

  /** And a backend that is no longer in use is swept: if from call `n` on no drain finds it in use, its
      stamp stays as it was, and a check sweeps it exactly if it finds the clock more than the idle
      limit past that. */
  lemma IdleIsSwept(log: seq<Op>, rounds: seq<Round>, b: string, start: Start, n: nat, now: int, later: int, maxIdle: nat)
    requires Honest(log, rounds) && start.from <= n <= |log|
    requires forall i :: n <= i < |log| && log[i] == Drained ==> !Busy(log, i, b)
    ensures Decide(Check(LastActive(rounds, b, start), now, later), maxIdle) == Sweeps <==>
            LastActive(rounds[..n], b, start) * 1_000_000_000 + maxIdle < now
  {
    forall i | n <= i < |rounds| ensures b !in rounds[i] {
      BusyIsActive(log, i, b);
    }
    UntouchedStamp(rounds, b, start, n);
  }
}
