/** The `/api` routes: the read-through data endpoint in front of the
    cache, the echo endpoint and the static index. */
module Api {
  import opened Json
  import opened Outcomes
  import opened Backend
  import opened Http
  import opened CacheService

  /** The one key the data endpoint reads and writes. */
  const SampleKey: string := "sample_data"

  /** The ttl the data endpoint passes to `set`, in seconds. */
  const SampleTtl: int := 300

  /** The faults the data endpoint's two backend calls may meet: `read` for
      the `get`, `write` for the `setex` of a miss. */
  datatype DataFaults = DataFaults(read: Outcome, write: Outcome)

  /** One `{'id': …, 'name': …, 'value': …}` record of the dataset. */
  function Item(id: int, name: string, value: int): (item: Json)
    ensures Field(item, "id") == Some(Num(id))
    ensures Field(item, "name") == Some(Str(name))
    ensures Field(item, "value") == Some(Num(value))
  {
    var item := Obj([("id", Num(id)), ("name", Str(name)), ("value", Num(value))]);
    FieldsOf(item);
    item
  }

  /** The dataset the endpoint generates on a miss: a truthy dict whose
      "items" are three records with ids 1, 2, 3, names "Item 1" to
      "Item 3" and values 100, 200, 300. */
  function SampleData(): (d: Json)
    ensures Truthy(d)
    ensures Field(d, "items").Some? && Field(d, "items").value.Arr?
    ensures var items := Field(d, "items").value.items;
            && |items| == 3
            && (forall i :: 0 <= i < 3 ==> Field(items[i], "id") == Some(Num(i + 1)))
            && (forall i :: 0 <= i < 3 ==> Field(items[i], "value") == Some(Num(100 * (i + 1))))
            && Field(items[0], "name") == Some(Str("Item 1"))
            && Field(items[1], "name") == Some(Str("Item 2"))
            && Field(items[2], "name") == Some(Str("Item 3"))
  {
    var d := Obj([("items", Arr([Item(1, "Item 1", 100), Item(2, "Item 2", 200), Item(3, "Item 3", 300)]))]);
    FieldsOf(d);
    d
  }

  /** The data endpoint's body: the data and where it came from. */
  function DataBody(data: Json, source: string): (body: Json)
    ensures Field(body, "data") == Some(data)
    ensures Field(body, "source") == Some(Str(source))
  {
    var body := Obj([("data", data), ("source", Str(source))]);
    FieldsOf(body);
    body
  }

  /** The document a truthy live entry of `SampleKey` holds, if there is one:
      exactly when a connected, faultless `get` of the key returns a value
      that passes `if cached_data:`, and then that value. */
  function CachedSample(s: Store, now: int): (r: Option<Json>)
    ensures r.Some? <==> Truthy(Get(Client(Connected), s, now, SampleKey, Ok).result)
    ensures r.Some? ==> r.value == Get(Client(Connected), s, now, SampleKey, Ok).result
  {
    match Read(s, now, SampleKey)
    case Some(Encoded(doc)) => if Truthy(doc) then Some(doc) else None
    case _ => None
  }

  /** `GET /api/data`: read through the cache at `SampleKey`. A truthy hit is
      answered with source "cache"; anything else (a miss, a falsy value, a
      disconnected handle, a failing read) regenerates the dataset, tries to
      store it for 300 seconds and answers with source "database", whether
      or not that write succeeded. */
  function GetData(c: Client, s: Store, now: int, faults: DataFaults): (r: Reply<Response>)
    ensures r.result.status == StatusOk
    ensures var hit := c.conn.Connected? && faults.read.Ok? && CachedSample(s, now).Some?;
            && (hit ==> r.result.body == DataBody(CachedSample(s, now).value, "cache") && r.store == s)
            && (!hit ==> r.result.body == DataBody(SampleData(), "database"))
            && (!hit && c.conn.Connected? && faults.write.Ok? ==>
                  r.store == s[SampleKey := Entry(Encoded(SampleData()), ExpiresAt(now + SampleTtl))])
            && (!hit && !(c.conn.Connected? && faults.write.Ok?) ==> r.store == s)
    ensures forall k :: k in s && k != SampleKey ==> k in r.store && r.store[k] == s[k]
    ensures r.store.Keys <= s.Keys + {SampleKey}
  {
    var cached := Get(c, s, now, SampleKey, faults.read).result;
    if Truthy(cached) then
      Reply(Response(DataBody(cached, "cache"), StatusOk), s)
    else
      var data := SampleData();
      var written := Set(c, s, now, SampleKey, data, SampleTtl, Ok, faults.write);
      Reply(Response(DataBody(data, "database"), StatusOk), written.store)
  }

  /** `POST /api/echo`: the parsed request body handed back unchanged. */
  function Echo(payload: Json): (r: Response)
    ensures r.status == StatusOk
    ensures Field(r.body, "echo") == Some(payload)
    ensures Field(r.body, "message") == Some(Str("Data received successfully"))
  {
    var body := Obj([("echo", payload), ("message", Str("Data received successfully"))]);
    FieldsOf(body);
    Response(body, StatusOk)
  }

  /** `GET /api/`: static service metadata. */
  function Index(): (r: Response)
    ensures r.status == StatusOk
    ensures Field(r.body, "version") == Some(Str("1.0.0"))
  {
    var body :=
      Obj([("message", Str("Welcome to DevOps Showcase API")),
           ("version", Str("1.0.0")),
           ("endpoints", Obj([("health", Str("/health")), ("api", Str("/api")), ("metrics", Str("/metrics"))]))]);
    FieldsOf(body);
    Response(body, StatusOk)
  }

  /** Whether the write a miss attempts succeeded is invisible in the
      answer: only the database differs. */
  lemma WriteOutcomeInvisible(c: Client, s: Store, now: int, read: Outcome)
    ensures GetData(c, s, now, DataFaults(read, Ok)).result == GetData(c, s, now, DataFaults(read, Fail)).result
  {
  }

  /** A miss that was stored is followed, within the ttl, by a hit that
      answers the identical dataset from the cache. */
  lemma MissThenHit(c: Client, s: Store, now: int, first: DataFaults, later: int, second: DataFaults)
    requires c.conn.Connected? && first.write.Ok? && second.read.Ok?
    requires Field(GetData(c, s, now, first).result.body, "source") == Some(Str("database"))
    requires now <= later < now + SampleTtl
    ensures var warm := GetData(c, s, now, first).store;
            && Field(GetData(c, warm, later, second).result.body, "source") == Some(Str("cache"))
            && Field(GetData(c, warm, later, second).result.body, "data")
               == Field(GetData(c, s, now, first).result.body, "data")
  {
  }

  /** Deleting the key makes the next request a miss again. */
  lemma DeleteThenMiss(c: Client, s: Store, io: Outcome, now: int, faults: DataFaults)
    requires Delete(c, s, SampleKey, io).result
    ensures GetData(c, Delete(c, s, SampleKey, io).store, now, faults).result.body
            == DataBody(SampleData(), "database")
  {
  }

  /** The end-to-end scenario: on a database without the key the first
      request computes, the second (within the ttl) hits the cache with the
      same data, and after a delete the third computes again. */
  lemma ComputeHitDeleteCompute(s: Store, t1: int, t2: int, t3: int)
    requires SampleKey !in s
    requires t1 <= t2 < t1 + SampleTtl
    ensures var c := Client(Connected);
            var clean := DataFaults(Ok, Ok);
            var r1 := GetData(c, s, t1, clean);
            var r2 := GetData(c, r1.store, t2, clean);
            var r3 := GetData(c, Delete(c, r2.store, SampleKey, Ok).store, t3, clean);
            && r1.result.body == DataBody(SampleData(), "database")
            && r2.result.body == DataBody(SampleData(), "cache")
            && r3.result.body == DataBody(SampleData(), "database")
  {
  }
}
