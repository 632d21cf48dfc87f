/**
 * server/common/health.go: named health checkers, the service that runs
 * them into a name-to-error map, and the HTTP handler that reports it.
 *
 * A database checker's ping outcome is a field (`pingFault`), so running a
 * checker twice gives the same answer.
 */
module Health {
  import opened Wrappers
  import opened Errors
  import opened Response
  import opened Database
  import Store

  datatype Checker =
    | DatabaseChecker(store: Option<Store.Store>, pingFault: bool)
    | ServiceChecker(startTime: int)

  function Name(c: Checker): (name: string)
    ensures c.DatabaseChecker? <==> name == "database"
    ensures c.ServiceChecker? <==> name == "service"
  {
    match c
    case DatabaseChecker(_, _) => "database"
    case ServiceChecker(_) => "service"
  }

  /** What Check returns: nil (None) or the error. */
  function CheckOutcome(c: Checker): (err: Option<Error>)
    ensures c.ServiceChecker? ==> err.None?
    ensures c.DatabaseChecker? && c.store.None? ==> err == Some(PlainError("database store is nil"))
    ensures c.DatabaseChecker? && c.store.Some? ==> (err.Some? <==> c.pingFault)
  {
    match c
    case ServiceChecker(_) => None
    case DatabaseChecker(store, fault) =>
      if store.None? then Some(PlainError("database store is nil"))
      else if fault then Some(Wrap(DbError("ping database"), "database ping failed"))
      else None
  }

  /** Check on one checker: the nil store is reported without pinging. */
  method RunCheck(c: Checker) returns (err: Option<Error>)
    ensures err == CheckOutcome(c)
  {
    match c {
      case ServiceChecker(_) =>
        return None;
      case DatabaseChecker(store, fault) =>
        if store.None? {
          return Some(PlainError("database store is nil"));
        }
        var pingErr := store.value.Ping(fault);
        if pingErr.Some? {
          return Some(Wrap(pingErr.value, "database ping failed"));
        }
        return None;
    }
  }

  /** The results map after running `checkers` in order: a later name overwrites an earlier one. */
  function Results(checkers: seq<Checker>): map<string, Option<Error>>
    decreases |checkers|
  {
    if |checkers| == 0 then map[]
    else
      var last := checkers[|checkers| - 1];
      Results(checkers[..|checkers| - 1])[Name(last) := CheckOutcome(last)]
  }

  /** One entry per distinct checker name. */
  lemma {:induction false} ResultsKeys(checkers: seq<Checker>, name: string)
    ensures name in Results(checkers) <==> exists i :: 0 <= i < |checkers| && Name(checkers[i]) == name
    decreases |checkers|
  {
    if |checkers| > 0 {
      var n := |checkers| - 1;
      var prefix := checkers[..n];
      ResultsKeys(prefix, name);
      if name in Results(checkers) {
        if Name(checkers[n]) != name {
          assert name in Results(prefix);
          var i :| 0 <= i < |prefix| && Name(prefix[i]) == name;
          assert checkers[i] == prefix[i];
        }
      } else {
        forall i | 0 <= i < |checkers|
          ensures Name(checkers[i]) != name
        {
          if i < n {
            assert checkers[i] == prefix[i];
          }
        }
      }
    }
  }

  /** The entry of a name holds the outcome of the last checker of that name. */
  lemma {:induction false} LastCheckerWins(checkers: seq<Checker>, name: string) returns (i: nat)
    requires name in Results(checkers)
    ensures i < |checkers| && Name(checkers[i]) == name && Results(checkers)[name] == CheckOutcome(checkers[i])
    ensures forall j :: i < j < |checkers| ==> Name(checkers[j]) != name
    decreases |checkers|
  {
    var n := |checkers| - 1;
    if Name(checkers[n]) == name {
      i := n;
    } else {
      var prefix := checkers[..n];
      i := LastCheckerWins(prefix, name);
      assert checkers[i] == prefix[i];
      forall j | i < j < |checkers|
        ensures Name(checkers[j]) != name
      {
        if j < n {
          assert checkers[j] == prefix[j];
        }
      }
    }
  }

  /** IsHealthy's verdict on a results map. */
  predicate AllNil(results: map<string, Option<Error>>) {
    forall name :: name in results ==> results[name].None?
  }

  /** With distinct names, the service is healthy exactly when every checker passes. */
  lemma {:induction false} DistinctNamesHealthy(checkers: seq<Checker>)
    requires forall i, j :: 0 <= i < j < |checkers| ==> Name(checkers[i]) != Name(checkers[j])
    ensures AllNil(Results(checkers)) <==> forall i :: 0 <= i < |checkers| ==> CheckOutcome(checkers[i]).None?
  {
    forall i | 0 <= i < |checkers|
      ensures Name(checkers[i]) in Results(checkers) && Results(checkers)[Name(checkers[i])] == CheckOutcome(checkers[i])
    {
      ResultsKeys(checkers, Name(checkers[i]));
      var k := LastCheckerWins(checkers, Name(checkers[i]));
    }
    forall name | name in Results(checkers)
      ensures exists i :: 0 <= i < |checkers| && Results(checkers)[name] == CheckOutcome(checkers[i])
    {
      var k := LastCheckerWins(checkers, name);
    }
  }

  /** A failing checker is hidden by a later passing one of the same name. */
  lemma ShadowedFailureIsHidden(store: Store.Store)
    ensures var checkers := [DatabaseChecker(None, false), DatabaseChecker(Some(store), false)];
      CheckOutcome(checkers[0]).Some? && AllNil(Results(checkers))
  {
    var checkers := [DatabaseChecker(None, false), DatabaseChecker(Some(store), false)];
    assert checkers[..1] == [checkers[0]];
    assert checkers[..1][..0] == [];
    assert Results(checkers[..1]) == map["database" := CheckOutcome(checkers[0])];
    assert Results(checkers) == map["database" := None];
  }

  class HealthCheckService {
    const checkers: seq<Checker>

    constructor (checkers: seq<Checker>)
      ensures this.checkers == checkers
    {
      this.checkers := checkers;
    }

    method Check() returns (results: map<string, Option<Error>>)
      ensures results == Results(checkers)
    {
      results := map[];
      var i := 0;
      while i < |checkers|
        invariant 0 <= i <= |checkers|
        invariant results == Results(checkers[..i])
      {
        assert checkers[..i + 1][..i] == checkers[..i];
        var err := RunCheck(checkers[i]);
        results := results[Name(checkers[i]) := err];
        i := i + 1;
      }
      assert checkers[..i] == checkers;
    }

    method IsHealthy() returns (healthy: bool)
      ensures healthy <==> AllNil(Results(checkers))
    {
      var results := Check();
      var remaining := results.Keys;
      while remaining != {}
        invariant remaining <= results.Keys
        invariant forall name :: name in results && name !in remaining ==> results[name].None?
        decreases |remaining|
      {
        var name :| name in remaining;
        if results[name].Some? {
          return false;
        }
        remaining := remaining - {name};
      }
      return true;
    }
  }

  function CheckEntry(err: Option<Error>): (entry: Json)
    ensures entry.JObject? && entry.fields.Keys == {"status", "message"}
    ensures entry.fields["status"] == JString(if err.None? then "healthy" else "unhealthy")
  {
    if err.None? then JObject(map["status" := JString("healthy"), "message" := JString("")])
    else JObject(map["status" := JString("unhealthy"), "message" := JString(ErrorText(err.value))])
  }

  /** err.Error(); a Connect error's text is its message (connect's spelling of codes is not part of this model). */
  function ErrorText(e: Error): string {
    if e.ConnectError? then e.message else e.Text()
  }

  /** HealthCheckHandler: 200 "healthy" or 503 "unhealthy", with one entry per checker name. */
  method HealthCheckHandler(service: HealthCheckService) returns (status: int, body: Json)
    ensures var results := Results(service.checkers);
      (status == 200 <==> AllNil(results)) && (status == 200 || status == 503) &&
      body.JObject? && body.fields.Keys == {"status", "checks", "version"} &&
      body.fields["status"] == JString(if AllNil(results) then "healthy" else "unhealthy") &&
      body.fields["version"] == JString("1.0.0") &&
      body.fields["checks"] == JObject(map name | name in results :: CheckEntry(results[name]))
  {
    var results := service.Check();
    var isHealthy := service.IsHealthy();
    var checks: map<string, Json> := map[];
    var remaining := results.Keys;
    while remaining != {}
      invariant remaining <= results.Keys
      invariant checks == map name | name in results && name !in remaining :: CheckEntry(results[name])
      decreases |remaining|
    {
      var name :| name in remaining;
      checks := checks[name := CheckEntry(results[name])];
      remaining := remaining - {name};
    }
    assert checks == map name | name in results :: CheckEntry(results[name]);
    var statusText := if isHealthy then "healthy" else "unhealthy";
    body := JObject(map["status" := JString(statusText), "checks" := JObject(checks), "version" := JString("1.0.0")]);
    status := if isHealthy then 200 else 503;
  }
}
