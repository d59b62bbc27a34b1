/** The Redis database the service talks to, seen as a map from key to the
    string it holds and that key's expiry. The wire protocol, the JSON text
    format and the server's clock are abstracted: time is an explicit `now`
    (in seconds) and the text is classified by what `json.loads` makes of it. */
module Backend {
  import opened Json
  import opened Outcomes

  /** A Redis key either persists or expires at a given second. */
  datatype Expiry = Persistent | ExpiresAt(deadline: int)

  /** The string value of a key. `Encoded(doc)` is any text that `json.loads`
      decodes to `doc` (in particular what `json.dumps(doc)` wrote);
      `Undecodable(text)` is text it rejects, the empty string among them. */
  datatype Raw = Encoded(doc: Json) | Undecodable(text: string)

  datatype Entry = Entry(raw: Raw, expiry: Expiry)

  type Store = map<string, Entry>

  /** An entry is visible until its deadline; expired keys read as absent. */
  predicate Live(e: Entry, now: int) {
    e.expiry.Persistent? || now < e.expiry.deadline
  }

  /** What Redis `GET key` sees at time `now`. */
  function Read(s: Store, now: int, key: string): Option<Raw> {
    if key in s && Live(s[key], now) then Some(s[key].raw) else None
  }
}
