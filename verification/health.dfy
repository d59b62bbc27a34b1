/** The health routes: basic health and liveness answer unconditionally,
    readiness asks the cache backend. */
module Health {
  import opened Json
  import opened Outcomes
  import opened Backend
  import opened Http
  import opened CacheService

  /** `GET /health`: the service reports itself healthy, always. */
  function HealthCheck(): (r: Response)
    ensures r.status == StatusOk
    ensures Field(r.body, "status") == Some(Str("healthy"))
  {
    var body := Obj([("status", Str("healthy")),
                     ("service", Str("devops-showcase-api")),
                     ("version", Str("1.0.0"))]);
    FieldsOf(body);
    Response(body, StatusOk)
  }

  /** `GET /health/live`: alive, always, with no dependency consulted. */
  function LivenessCheck(): (r: Response)
    ensures r.status == StatusOk
    ensures Field(r.body, "alive") == Some(Bool(true))
  {
    var body := Obj([("alive", Bool(true))]);
    FieldsOf(body);
    Response(body, StatusOk)
  }

  /** Python's `all`: true exactly when no element is false. */
  function All(vs: seq<bool>): (r: bool)
    ensures r <==> forall i :: 0 <= i < |vs| ==> vs[i]
    decreases |vs|
  {
    if |vs| == 0 then true
    else vs[0] && All(vs[1..])
  }

  /** `checks.values()`, in insertion order. */
  function Values(checks: seq<(string, bool)>): (vs: seq<bool>)
    ensures |vs| == |checks|
    ensures forall i :: 0 <= i < |checks| ==> vs[i] == checks[i].1
  {
    seq(|checks|, i requires 0 <= i < |checks| => checks[i].1)
  }

  /** The `checks` dict rendered as a JSON object. */
  function ChecksJson(checks: seq<(string, bool)>): (v: Json)
    ensures v.Obj? && |v.fields| == |checks|
    ensures forall i :: 0 <= i < |checks| ==> v.fields[i] == (checks[i].0, Bool(checks[i].1))
  {
    Obj(seq(|checks|, i requires 0 <= i < |checks| => (checks[i].0, Bool(checks[i].1))))
  }

  /** The dependency checks readiness runs: one, named "redis". */
  function Checks(c: Client, s: Store, ping: Outcome): (checks: seq<(string, bool)>)
    ensures |checks| == 1 && checks[0].0 == "redis"
    ensures checks[0].1 <==> c.conn.Connected? && ping.Ok?
  {
    [("redis", CheckConnection(c, s, ping).result)]
  }

  /** `GET /health/ready`: ready is the conjunction of the checks, and
      the status is 200 when ready and 503 otherwise. `ping` is whether the
      handle's `PING` raised. */
  function ReadinessCheck(c: Client, s: Store, ping: Outcome): (r: Response)
    ensures var up := c.conn.Connected? && ping.Ok?;
            && Field(r.body, "ready") == Some(Bool(up))
            && Field(r.body, "checks") == Some(Obj([("redis", Bool(up))]))
            && (r.status == StatusOk <==> up)
            && (!up ==> r.status == StatusServiceUnavailable)
  {
    var checks := Checks(c, s, ping);
    var ready := All(Values(checks));
    assert ChecksJson(checks).fields == [("redis", Bool(checks[0].1))];
    var body := Obj([("ready", Bool(ready)), ("checks", ChecksJson(checks))]);
    FieldsOf(body);
    Response(body, if ready then StatusOk else StatusServiceUnavailable)
  }

  /** `all(checks.values())` holds exactly when every check in the dict
      passed, for any dict of checks, not only the one-entry dict that
      readiness builds. */
  lemma ReadyIffEveryCheck(checks: seq<(string, bool)>)
    ensures All(Values(checks)) <==> forall i :: 0 <= i < |checks| ==> checks[i].1
  {
  }

  /** A disconnected handle is never ready, whatever the database holds. */
  lemma DisconnectedNeverReady(s: Store, ping: Outcome)
    ensures ReadinessCheck(Client(Disconnected), s, ping).status == StatusServiceUnavailable
    ensures Field(ReadinessCheck(Client(Disconnected), s, ping).body, "checks") == Some(Obj([("redis", Bool(false))]))
    ensures Field(ReadinessCheck(Client(Disconnected), s, ping).body, "ready") == Some(Bool(false))
  {
  }
}
