/** The running service: the `/api` routes and the health routes each build
    their own `CacheService` at import time, so the process holds two
    independent handles over one Redis database. Requests are handled one
    after another; each carries the time it arrives at and the outcomes of
    the backend calls it makes. */
module Server {
  import opened Json
  import opened Outcomes
  import opened Backend
  import opened Http
  import opened CacheService
  import Api
  import Health

  /** `api` is the handle of the data routes, `health` that of readiness. */
  datatype Server = Server(api: Client, health: Client, store: Store)

  datatype Request =
    | IndexRequest
    | DataRequest(faults: Api.DataFaults)
    | EchoRequest(payload: Json)
    | HealthRequest
    | ReadyRequest(ping: Outcome)
    | LiveRequest

  datatype Event = Event(now: int, request: Request)

  /** Process start: two constructions, each of which may fail on its own. */
  function Boot(apiAttempt: Outcome, healthAttempt: Outcome, store: Store): (sv: Server)
    ensures sv.api.conn.Connected? <==> apiAttempt.Ok?
    ensures sv.health.conn.Connected? <==> healthAttempt.Ok?
    ensures sv.store == store
  {
    Server(New(apiAttempt), New(healthAttempt), store)
  }

  /** Routes one request. Only the data route can write to the database. */
  function Handle(sv: Server, e: Event): (r: (Server, Response))
    ensures r.0.api == sv.api && r.0.health == sv.health
    ensures !e.request.DataRequest? ==> r.0.store == sv.store
    ensures !e.request.ReadyRequest? ==> r.1.status == StatusOk
  {
    match e.request
    case IndexRequest => (sv, Api.Index())
    case DataRequest(faults) =>
      var reply := Api.GetData(sv.api, sv.store, e.now, faults);
      (sv.(store := reply.store), reply.result)
    case EchoRequest(payload) => (sv, Api.Echo(payload))
    case HealthRequest => (sv, Health.HealthCheck())
    case ReadyRequest(ping) => (sv, Health.ReadinessCheck(sv.health, sv.store, ping))
    case LiveRequest => (sv, Health.LivenessCheck())
  }

  /** Handles `events` in order, returning the final state and one response
      per event. */
  function Run(sv: Server, events: seq<Event>): (r: (Server, seq<Response>))
    ensures |r.1| == |events|
    decreases |events|
  {
    if |events| == 0 then (sv, [])
    else
      var step := Handle(sv, events[0]);
      var rest := Run(step.0, events[1..]);
      (rest.0, [step.1] + rest.1)
  }

  /** No request reconnects or disconnects a handle: a handle whose
      construction failed stays absent for the life of the process. */
  lemma {:induction false} RunKeepsHandles(sv: Server, events: seq<Event>)
    ensures Run(sv, events).0.api == sv.api
    ensures Run(sv, events).0.health == sv.health
    decreases |events|
  {
    if |events| > 0 {
      RunKeepsHandles(Handle(sv, events[0]).0, events[1..]);
    }
  }

  /** Every request but readiness is answered with 200, whatever the cache
      does: no backend fault reaches a caller. */
  lemma {:induction false} OnlyReadinessFails(sv: Server, events: seq<Event>)
    ensures forall i :: 0 <= i < |events| && !events[i].request.ReadyRequest?
              ==> Run(sv, events).1[i].status == StatusOk
    decreases |events|
  {
    if |events| > 0 {
      var step := Handle(sv, events[0]);
      OnlyReadinessFails(step.0, events[1..]);
      forall i | 0 <= i < |events| && !events[i].request.ReadyRequest?
        ensures Run(sv, events).1[i].status == StatusOk
      {
        if i > 0 {
          assert Run(sv, events).1[i] == Run(step.0, events[1..]).1[i - 1];
          assert events[1..][i - 1] == events[i];
        }
      }
    }
  }

  /** With a disconnected data handle the service degrades to always
      computing: the database is never written and every data request is
      answered from "database" with the generated dataset. */
  lemma {:induction false} DisconnectedApiAlwaysComputes(sv: Server, events: seq<Event>)
    requires sv.api.conn.Disconnected?
    ensures Run(sv, events).0.store == sv.store
    ensures forall i :: 0 <= i < |events| && events[i].request.DataRequest?
              ==> Run(sv, events).1[i].body == Api.DataBody(Api.SampleData(), "database")
    decreases |events|
  {
    if |events| > 0 {
      var step := Handle(sv, events[0]);
      assert step.0 == sv;
      DisconnectedApiAlwaysComputes(step.0, events[1..]);
      forall i | 0 <= i < |events| && events[i].request.DataRequest?
        ensures Run(sv, events).1[i].body == Api.DataBody(Api.SampleData(), "database")
      {
        if i > 0 {
          assert Run(sv, events).1[i] == Run(step.0, events[1..]).1[i - 1];
          assert events[1..][i - 1] == events[i];
        }
      }
    }
  }

  /** The dataset stored at `SampleKey`, live until `deadline`. */
  predicate Warm(s: Store, deadline: int) {
    Api.SampleKey in s && s[Api.SampleKey] == Entry(Encoded(Api.SampleData()), ExpiresAt(deadline))
  }

  /** Once the dataset is cached, every data request that reads without a
      fault before the deadline is answered from "cache" with the identical
      dataset, and nothing in the run writes the database. */
  lemma {:induction false} WarmCacheServesRun(sv: Server, deadline: int, events: seq<Event>)
    requires sv.api.conn.Connected?
    requires Warm(sv.store, deadline)
    requires forall i :: 0 <= i < |events| && events[i].request.DataRequest?
               ==> events[i].request.faults.read.Ok? && events[i].now < deadline
    ensures Run(sv, events).0.store == sv.store
    ensures forall i :: 0 <= i < |events| && events[i].request.DataRequest?
              ==> Run(sv, events).1[i].body == Api.DataBody(Api.SampleData(), "cache")
    decreases |events|
  {
    if |events| > 0 {
      var step := Handle(sv, events[0]);
      if events[0].request.DataRequest? {
        assert Api.CachedSample(sv.store, events[0].now) == Some(Api.SampleData());
      }
      assert step.0 == sv;
      WarmCacheServesRun(step.0, deadline, events[1..]);
      forall i | 0 <= i < |events| && events[i].request.DataRequest?
        ensures Run(sv, events).1[i].body == Api.DataBody(Api.SampleData(), "cache")
      {
        if i > 0 {
          assert Run(sv, events).1[i] == Run(step.0, events[1..]).1[i - 1];
          assert events[1..][i - 1] == events[i];
        }
      }
    }
  }

  /** Miss, populate, hit: on a connected data handle whose cache holds no
      truthy dataset, a data request whose write succeeds computes the
      dataset, and every later data request that reads without a fault
      within the next 300 seconds is answered from "cache" with it. */
  lemma {:induction false} ColdStartThenWarm(sv: Server, first: Event, events: seq<Event>)
    requires sv.api.conn.Connected?
    requires first.request.DataRequest? && first.request.faults.write.Ok?
    requires Api.CachedSample(sv.store, first.now).None?
    requires forall i :: 0 <= i < |events| && events[i].request.DataRequest?
               ==> events[i].request.faults.read.Ok? && events[i].now < first.now + Api.SampleTtl
    ensures Run(sv, [first] + events).1[0].body == Api.DataBody(Api.SampleData(), "database")
    ensures forall i :: 0 <= i < |events| && events[i].request.DataRequest?
              ==> Run(sv, [first] + events).1[i + 1].body == Api.DataBody(Api.SampleData(), "cache")
  {
    var all := [first] + events;
    assert all[0] == first && all[1..] == events;
    var step := Handle(sv, first);
    WarmCacheServesRun(step.0, first.now + Api.SampleTtl, events);
  }

  /** The two handles are independent, and each route follows its own.
      When only the health routes' handle is absent, the data route answers
      from "cache" while readiness answers 503 whatever the ping does. When
      only the data routes' handle is absent, readiness answers 200 while a
      faultless data request ignores the live cached dataset and answers
      from "database". */
  lemma HandlesDisagree()
    ensures exists sv: Server, t: int ::
              && Handle(sv, Event(t, DataRequest(Api.DataFaults(Ok, Ok)))).1.body
                 == Api.DataBody(Api.SampleData(), "cache")
              && forall ping: Outcome ::
                   Handle(sv, Event(t, ReadyRequest(ping))).1.status == StatusServiceUnavailable
    ensures exists sv: Server, t: int ::
              && Api.CachedSample(sv.store, t).Some?
              && Handle(sv, Event(t, DataRequest(Api.DataFaults(Ok, Ok)))).1.body
                 == Api.DataBody(Api.SampleData(), "database")
              && Handle(sv, Event(t, ReadyRequest(Ok))).1.status == StatusOk
  {
    var warm := map[Api.SampleKey := Entry(Encoded(Api.SampleData()), Persistent)];
    var healthDown := Boot(Ok, Fail, warm);
    assert Api.CachedSample(warm, 0) == Some(Api.SampleData());
    assert Handle(healthDown, Event(0, DataRequest(Api.DataFaults(Ok, Ok)))).1.body
           == Api.DataBody(Api.SampleData(), "cache");
    forall ping: Outcome
      ensures Handle(healthDown, Event(0, ReadyRequest(ping))).1.status == StatusServiceUnavailable
    {
      Health.DisconnectedNeverReady(warm, ping);
    }
    var apiDown := Boot(Fail, Ok, warm);
    assert Handle(apiDown, Event(0, DataRequest(Api.DataFaults(Ok, Ok)))).1.body
           == Api.DataBody(Api.SampleData(), "database");
    assert Handle(apiDown, Event(0, ReadyRequest(Ok))).1.status == StatusOk;
  }

  /** With one shared handle the two routes could not disagree that way: a
      cache answer of any kind to a faultless read implies readiness 200 on
      a good ping, and readiness 200 with a live truthy cached value implies
      a faultless read answers it from the cache. */
  lemma SharedHandleAgrees(sv: Server, t: int)
    requires sv.api == sv.health
    ensures Field(Handle(sv, Event(t, DataRequest(Api.DataFaults(Ok, Ok)))).1.body, "source")
              == Some(Str("cache"))
            ==> Handle(sv, Event(t, ReadyRequest(Ok))).1.status == StatusOk
    ensures Api.CachedSample(sv.store, t).Some?
            && Handle(sv, Event(t, ReadyRequest(Ok))).1.status == StatusOk
            ==> Handle(sv, Event(t, DataRequest(Api.DataFaults(Ok, Ok)))).1.body
                  == Api.DataBody(Api.CachedSample(sv.store, t).value, "cache")
  {
  }
}
