/** The drone's two tables. The SQL engine itself is not modelled: a table is a map or a set of
    rows, and `insert or replace` deletes every row that a unique column collides with. */
module Database {
  import opened Lifecycle

  datatype Row = Row(backend: BackendId, subdomain: string, address: Address, lastActive: int)

  /** The unique constraints on the subdomain and address columns. */
  predicate UniqueRows(rows: set<Row>) {
    forall r, s :: r in rows && s in rows && (r.subdomain == s.subdomain || r.address == s.address) ==> r == s
  }

  function InsertOrReplace(rows: set<Row>, row: Row): (result: set<Row>)
    ensures UniqueRows(rows) ==> UniqueRows(result)
    ensures row in result
    ensures forall r :: r in result ==> r == row || r in rows
    ensures forall r :: r in rows && r.subdomain != row.subdomain ==>
                          (r in result <==> r.address != row.address)
  {
    (set r | r in rows && r.subdomain != row.subdomain && r.address != row.address) + {row}
  }

  /** The backend table after an insertion: a name that is taken is rejected and nothing changes. */
  function InsertedRow(backends: map<BackendId, BackendState>, name: BackendId): map<BackendId, BackendState> {
    if name in backends then backends else backends[name := Loading]
  }

  /** The backend table after an update: without a row of that name nothing changes. */
  function UpdatedRow(backends: map<BackendId, BackendState>, name: BackendId, state: BackendState)
    : map<BackendId, BackendState>
  {
    if name in backends then backends[name := state] else backends
  }

  /** `row` is an answer to the proxy's query for `subdomain`. */
  predicate Answers(row: Row, backends: map<BackendId, BackendState>, subdomain: string): (answers: bool)
    ensures answers <==> row.subdomain == subdomain && row.backend in backends && backends[row.backend] == Ready
  {
    assert FromString("Ready") == Some(Ready);
    row.subdomain == subdomain && row.backend in backends && backends[row.backend].ToString() == "Ready"
  }

  /** The address the proxy forwards a subdomain to, if any. */
  ghost function ProxyRoute(rows: set<Row>, backends: map<BackendId, BackendState>, subdomain: string)
    : (route: Option<Address>)
  {
    if exists row :: row in rows && Answers(row, backends, subdomain) then
      var row :| row in rows && Answers(row, backends, subdomain);
      Some(row.address)
    else
      None
  }

  /** The effect of `set last_active = stamp where subdomain = s` on one row. */
  function Touch(row: Row, s: string, stamp: int): Row {
    if row.subdomain == s then row.(lastActive := stamp) else row
  }

  function TouchRows(rows: set<Row>, s: string, stamp: int): set<Row> {
    set row | row in rows :: Touch(row, s, stamp)
  }

  /** One update after another, each with the time at which it is executed. */
  function TouchAll(rows: set<Row>, subdomains: seq<string>, stamps: seq<int>): set<Row>
    requires |subdomains| == |stamps|
  {
    var n := |subdomains|;
    if n == 0 then rows
    else TouchRows(TouchAll(rows, subdomains[..n - 1], stamps[..n - 1]), subdomains[n - 1], stamps[n - 1])
  }

  /** A row after all updates: it carries the time of the last update of its subdomain, if any. */
  function Stamped(row: Row, subdomains: seq<string>, stamps: seq<int>): (r: Row)
    requires |subdomains| == |stamps|
    ensures r == row.(lastActive := r.lastActive)
    ensures row.subdomain !in subdomains ==> r == row
    ensures row.subdomain in subdomains ==>
              exists i :: 0 <= i < |subdomains| && subdomains[i] == row.subdomain && r.lastActive == stamps[i]
  {
    var n := |subdomains|;
    if n == 0 then row
    else if subdomains[n - 1] == row.subdomain then row.(lastActive := stamps[n - 1])
    else Stamped(row, subdomains[..n - 1], stamps[..n - 1])
  }

  /** The sequence of updates is one pass over the table, and keeps the constraints. */
  lemma {:induction false} TouchedRows(rows: set<Row>, subdomains: seq<string>, stamps: seq<int>)
    requires |subdomains| == |stamps|
    ensures TouchAll(rows, subdomains, stamps) == set row | row in rows :: Stamped(row, subdomains, stamps)
    ensures UniqueRows(rows) ==> UniqueRows(TouchAll(rows, subdomains, stamps))
  {
    var n := |subdomains|;
    if n > 0 {
      var subs, times := subdomains[..n - 1], stamps[..n - 1];
      TouchedRows(rows, subs, times);
      forall row | row in rows
        ensures Touch(Stamped(row, subs, times), subdomains[n - 1], stamps[n - 1]) == Stamped(row, subdomains, stamps)
        ensures Stamped(row, subdomains, stamps) in TouchAll(rows, subdomains, stamps)
      {
        assert Stamped(row, subs, times) in TouchAll(rows, subs, times);
      }
    }
  }

  class DroneDatabase {
    var backends: map<BackendId, BackendState>
    var routes: set<Row>

    predicate Valid()
      reads this
    {
      UniqueRows(routes)
    }

    constructor ()
      ensures Valid() && backends == map[] && routes == {}
    {
      backends, routes := map[], {};
    }

    /** A name that is already taken is rejected and nothing changes. */
    method InsertBackend(name: BackendId) returns (ok: bool)
      modifies `backends
      ensures ok <==> name !in old(backends)
      ensures backends == InsertedRow(old(backends), name)
    {
      ok := name !in backends;
      if ok {
        backends := backends[name := Loading];
      }
    }

    /** Updating a row that does not exist succeeds without effect. */
    method UpdateBackendState(name: BackendId, state: BackendState)
      modifies `backends
      ensures backends == UpdatedRow(old(backends), name, state)
    {
      if name in backends {
        backends := backends[name := state];
      }
    }

    method RunningBackends() returns (count: nat)
      ensures count == |set name | name in backends && !backends[name].Terminal()|
    {
      assert FromString("Loading") == Some(Loading) && FromString("Starting") == Some(Starting) && FromString("Ready") == Some(Ready);
      var running := set name | name in backends && backends[name].ToString() in ["Loading", "Starting", "Ready"];
      count := |running|;
      assert running == set name | name in backends && !backends[name].Terminal();
    }

    method GetProxyRoute(subdomain: string) returns (route: Option<Address>)
      requires Valid()
      ensures route == ProxyRoute(routes, backends, subdomain)
    {
      if row :| row in routes && Answers(row, backends, subdomain) {
        route := Some(row.address);
      } else {
        route := None;
      }
    }

    method InsertProxyRoute(backend: BackendId, subdomain: string, address: Address, now: int)
      requires Valid()
      modifies `routes
      ensures Valid()
      ensures routes == InsertOrReplace(old(routes), Row(backend, subdomain, address, now))
    {
      var row := Row(backend, subdomain, address, now);
      routes := (set r | r in routes && r.subdomain != subdomain && r.address != address) + {row};
    }

    /** The first `reached` updates are carried out; the one after them fails, and ends the loop. */
    method ResetLastActiveTimes(subdomains: seq<string>, stamps: seq<int>, reached: nat) returns (ok: bool)
      requires Valid() && |subdomains| == |stamps|
      modifies `routes
      ensures Valid() && (ok <==> |subdomains| <= reached)
      ensures
        var n := if ok then |subdomains| else reached;
        routes == set row | row in old(routes) :: Stamped(row, subdomains[..n], stamps[..n])
    {
      for i := 0 to |subdomains|
        invariant i <= reached
        invariant routes == TouchAll(old(routes), subdomains[..i], stamps[..i])
      {
        if i == reached {
          TouchedRows(old(routes), subdomains[..i], stamps[..i]);
          return false;
        }
        routes := set row | row in routes :: Touch(row, subdomains[i], stamps[i]);
        assert subdomains[..i + 1][..i] == subdomains[..i] && stamps[..i + 1][..i] == stamps[..i];
      }
      TouchedRows(old(routes), subdomains[..|subdomains|], stamps[..|stamps|]);
      return true;
    }

    /** The query fails when the backend has no route. */
    method GetBackendLastActive(backend: BackendId) returns (time: Option<int>)
      ensures time.None? <==> forall row :: row in routes ==> row.backend != backend
      ensures time.Some? ==> exists row :: row in routes && row.backend == backend && row.lastActive == time.value
    {
      if row :| row in routes && row.backend == backend {
        time := Some(row.lastActive);
      } else {
        time := None;
      }
    }
  }
}
