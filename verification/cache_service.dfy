/** The failure-tolerant Redis client. Every operation first asks whether
    the connection handle exists, then whether the backend call (and the
    JSON codec) succeeded, and turns every failure into `None` or `False`:
    the operations are total functions, so none of them raises. */
module CacheService {
  import opened Json
  import opened Outcomes
  import opened Backend

  /** The `ttl` that `set` uses when the caller gives none, in seconds. */
  const DefaultTtl: int := 300

  /** `redis_client`: a usable client, or `None` after a failed construction. */
  datatype Conn = Connected | Disconnected

  /** One `CacheService` instance. Its only state is the handle chosen at
      construction; no operation assigns it again, so a client that failed to
      connect stays disconnected for its whole lifetime. */
  datatype Client = Client(conn: Conn)

  /** An operation's answer together with the database after the call. */
  datatype Reply<T> = Reply(result: T, store: Store)

  /** `CacheService()`: `attempt` is whether building the Redis client raised. */
  function New(attempt: Outcome): (c: Client)
    ensures c.conn.Connected? <==> attempt.Ok?
  {
    match attempt
    case Ok => Client(Connected)
    case Fail => Client(Disconnected)
  }

  /** `get(key)`. `io` is whether `redis_client.get` raised. */
  function Get(c: Client, s: Store, now: int, key: string, io: Outcome): (r: Reply<Json>)
    ensures r.store == s
    ensures c.conn.Disconnected? || io.Fail? ==> r.result == Null
    ensures Read(s, now, key).None? ==> r.result == Null
    ensures r.result != Null ==> Read(s, now, key) == Some(Encoded(r.result))
    ensures c.conn.Connected? && io.Ok? && Read(s, now, key).Some? && Read(s, now, key).value.Encoded?
            ==> r.result == Read(s, now, key).value.doc
  {
    if c.conn.Disconnected? then Reply(Null, s)
    else if io.Fail? then Reply(Null, s)
    else
      match Read(s, now, key)
      case None => Reply(Null, s)
      // "" takes the falsy branch; any other undecodable text makes json.loads raise
      case Some(Undecodable(_)) => Reply(Null, s)
      case Some(Encoded(doc)) => Reply(doc, s)
  }

  /** `set(key, value, ttl)`. `encoding` is whether `json.dumps(value)` raised
      (a value outside `Json`); `io` is whether `redis_client.setex` raised.
      Redis refuses a `SETEX` whose ttl is not positive, which the client
      reports as an error too. */
  function Set(c: Client, s: Store, now: int, key: string, value: Json, ttl: int := DefaultTtl,
               encoding: Outcome, io: Outcome): (r: Reply<bool>)
    ensures r.result <==> c.conn.Connected? && encoding.Ok? && io.Ok? && ttl > 0
    ensures r.result ==> r.store == s[key := Entry(Encoded(value), ExpiresAt(now + ttl))]
    ensures !r.result ==> r.store == s
  {
    if c.conn.Disconnected? then Reply(false, s)
    else if encoding.Fail? then Reply(false, s)
    else if io.Fail? || ttl <= 0 then Reply(false, s)
    else Reply(true, s[key := Entry(Encoded(value), ExpiresAt(now + ttl))])
  }

  /** `delete(key)`. `io` is whether `redis_client.delete` raised; a key
      that does not exist is no error. */
  function Delete(c: Client, s: Store, key: string, io: Outcome): (r: Reply<bool>)
    ensures r.result <==> c.conn.Connected? && io.Ok?
    ensures r.result ==> key !in r.store
    ensures forall k :: k in s && k != key ==> k in r.store && r.store[k] == s[k]
    ensures r.store.Keys <= s.Keys
    ensures !r.result ==> r.store == s
  {
    if c.conn.Disconnected? then Reply(false, s)
    else if io.Fail? then Reply(false, s)
    else Reply(true, s - {key})
  }

  /** `check_connection()`. `io` is whether `redis_client.ping` raised. */
  function CheckConnection(c: Client, s: Store, io: Outcome): (r: Reply<bool>)
    ensures r.result <==> c.conn.Connected? && io.Ok?
    ensures r.store == s
  {
    if c.conn.Disconnected? then Reply(false, s)
    else if io.Fail? then Reply(false, s)
    else Reply(true, s)
  }

  /** A successful `set` is read back by every successful `get` of that key
      until its ttl runs out: the JSON round trip preserves the value. */
  lemma SetThenGet(c: Client, s: Store, now: int, key: string, value: Json, ttl: int,
                   encoding: Outcome, io: Outcome, later: int, readIo: Outcome)
    requires Set(c, s, now, key, value, ttl, encoding, io).result
    requires now <= later < now + ttl
    requires readIo.Ok?
    ensures Get(c, Set(c, s, now, key, value, ttl, encoding, io).store, later, key, readIo).result == value
  {
  }

  /** Once the ttl has run out the key reads as a miss. */
  lemma SetThenExpire(c: Client, s: Store, now: int, key: string, value: Json, ttl: int,
                      encoding: Outcome, io: Outcome, later: int, readIo: Outcome)
    requires Set(c, s, now, key, value, ttl, encoding, io).result
    requires later >= now + ttl
    ensures Get(c, Set(c, s, now, key, value, ttl, encoding, io).store, later, key, readIo).result == Null
  {
  }

  /** A `set` touches no other key: every other key reads as before. */
  lemma SetLeavesOtherKeys(c: Client, s: Store, now: int, key: string, value: Json, ttl: int,
                           encoding: Outcome, io: Outcome, other: string, later: int, readIo: Outcome)
    requires other != key
    ensures Get(c, Set(c, s, now, key, value, ttl, encoding, io).store, later, other, readIo).result
            == Get(c, s, later, other, readIo).result
  {
  }

  /** Of two successful writes to one key, the later one is what is read,
      until the later write's own ttl runs out. */
  lemma LastWriteWins(c: Client, s: Store, key: string,
                      n1: int, first: Json, t1: int, e1: Outcome, io1: Outcome,
                      n2: int, second: Json, t2: int, e2: Outcome, io2: Outcome,
                      later: int, readIo: Outcome)
    requires Set(c, s, n1, key, first, t1, e1, io1).result
    requires Set(c, Set(c, s, n1, key, first, t1, e1, io1).store, n2, key, second, t2, e2, io2).result
    requires n2 <= later < n2 + t2
    requires readIo.Ok?
    ensures Get(c, Set(c, Set(c, s, n1, key, first, t1, e1, io1).store, n2, key, second, t2, e2, io2).store,
                later, key, readIo).result == second
  {
  }

  /** A `set` that gives no ttl keeps the value for 300 seconds. */
  lemma SetDefaultTtl(c: Client, s: Store, now: int, key: string, value: Json,
                      encoding: Outcome, io: Outcome)
    requires Set(c, s, now, key, value, encoding := encoding, io := io).result
    ensures Set(c, s, now, key, value, encoding := encoding, io := io).store
            == s[key := Entry(Encoded(value), ExpiresAt(now + 300))]
  {
  }

  /** After a successful `delete` the key is a miss, whatever it held. */
  lemma DeleteThenGet(c: Client, s: Store, key: string, io: Outcome, later: int, readIo: Outcome)
    requires Delete(c, s, key, io).result
    ensures Get(c, Delete(c, s, key, io).store, later, key, readIo).result == Null
  {
  }

  /** A disconnected client answers every operation with its failure value
      and never changes the database, whatever the backend would have done. */
  lemma DisconnectedIsInert(s: Store, now: int, key: string, value: Json, ttl: int,
                            encoding: Outcome, io: Outcome)
    ensures Get(Client(Disconnected), s, now, key, io) == Reply(Null, s)
    ensures Set(Client(Disconnected), s, now, key, value, ttl, encoding, io) == Reply(false, s)
    ensures Delete(Client(Disconnected), s, key, io) == Reply(false, s)
    ensures CheckConnection(Client(Disconnected), s, io) == Reply(false, s)
  {
  }
}
