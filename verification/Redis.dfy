/**
  The Redis key space behind `CacheService`: string keys, values, and an optional expiry per key.
  Everything is said about one `Cell` (the state of one key) first; the store applies it to a key.
 */
module Redis {
  import opened Prelude

  /** The user record `login` caches: identity columns and the password hash. */
  datatype UserWithHash = UserWithHash(id: Id, username: string, email: string, hash: string)

  datatype ApiKey = ApiKey(id: Id, keyHash: string, name: string, role: string)

  /** The JSON values the service stores. */
  datatype Value =
    | Number(n: nat)
    | Flag(b: bool)
    | Text(s: string)
    | Profile(user: UserWithHash)
    | Key(key: ApiKey)

  /** `expiry == None` is a key without a TTL. */
  datatype Entry = Entry(value: Value, expiry: Option<Time>)

  type Cell = Option<Entry>

  type Store = map<string, Entry>

  /** An entry set at `s` with a TTL of `t` is visible from `s` up to, not including, `s + t`. */
  predicate Live(c: Cell, now: Time) {
    c.Some? && (c.value.expiry.Some? ==> now < c.value.expiry.value)
  }

  function Visible(c: Cell, now: Time): Option<Value> {
    if Live(c, now) then Some(c.value.value) else None
  }

  // ---- Effects and replies of the commands on one cell -------------------------------------------

  /** SET key value EX ttl. Redis rejects a zero TTL. */
  function AfterSet(c: Cell, v: Value, ttl: Time, a: Await): Cell {
    if a.reply.Applied() && ttl > 0 then Some(Entry(v, Some(a.at + ttl))) else c
  }

  /** DEL key. */
  function AfterDelete(c: Cell, a: Await): Cell {
    if a.reply.Applied() then None else c
  }

  /** The count INCR produces, or None when the key holds something that is not a number. */
  function NextCount(c: Cell, now: Time): Option<nat> {
    match Visible(c, now)
    case None => Some(1)
    case Some(Number(n)) => Some(n + 1)
    case _ => None
  }

  /** INCR key: creates the key without a TTL, and keeps the TTL of an existing key. */
  function AfterIncrement(c: Cell, a: Await): Cell {
    var count := NextCount(c, a.at);
    if !a.reply.Applied() || count.None? then c
    else Some(Entry(Number(count.value), if Live(c, a.at) then c.value.expiry else None))
  }

  /** MULTI; INCR key; EXPIRE key ttl; EXEC. EXPIRE runs even when INCR reports a wrong type. */
  function AfterIncrementWithTtl(c: Cell, ttl: Time, a: Await): Cell {
    if !a.reply.Applied() then c
    else
      var count := NextCount(c, a.at);
      var value := if count.Some? then Number(count.value) else c.value.value;
      Some(Entry(value, Some(a.at + ttl)))
  }

  /** The number the caller of either increment sees; None is an error. */
  function CountReply(c: Cell, a: Await): Option<nat> {
    if a.reply.Answered? then NextCount(c, a.at) else None
  }

  /** What GET answers: None is an error, Some(None) a missing key. */
  function GetReply(c: Cell, a: Await): Option<Option<Value>> {
    if a.reply.Answered? then Some(Visible(c, a.at)) else None
  }

  /** What EXISTS answers: None is an error. */
  function ExistsReply(c: Cell, a: Await): Option<bool> {
    if a.reply.Answered? then Some(Live(c, a.at)) else None
  }

  // ---- The store ------------------------------------------------------------------------------

  function CellOf(s: Store, key: string): Cell {
    if key in s then Some(s[key]) else None
  }

  function Write(s: Store, key: string, c: Cell): Store {
    if c.Some? then s[key := c.value] else s - {key}
  }

  /** A write to one key is invisible at every other key. */
  lemma WriteFrame(s: Store, key: string, c: Cell)
    ensures forall k :: CellOf(Write(s, key, c), k) == if k == key then c else CellOf(s, k)
  {
  }

  /** The Redis-backed cache service. `entries` is the key space of the server. */
  class CacheService {
    var entries: Store

    constructor ()
      ensures entries == map[]
    {
      entries := map[];
    }

    method SetRaw(key: string, value: Value, ttl: Time, a: Await) returns (ok: bool)
      modifies this
      ensures entries == Write(old(entries), key, AfterSet(CellOf(old(entries), key), value, ttl, a))
      ensures ok == (a.reply.Answered? && ttl > 0)
    {
      if a.reply.Applied() && ttl > 0 {
        entries := entries[key := Entry(value, Some(a.at + ttl))];
      }
      ok := a.reply.Answered? && ttl > 0;
      assert old(entries) == Write(old(entries), key, CellOf(old(entries), key));
    }

    method GetRaw(key: string, a: Await) returns (value: Option<Option<Value>>)
      ensures value == GetReply(CellOf(entries, key), a)
    {
      if !a.reply.Answered? {
        return None;
      }
      if key in entries && (entries[key].expiry.Some? ==> a.at < entries[key].expiry.value) {
        return Some(Some(entries[key].value));
      }
      return Some(None);
    }

    method DeleteRaw(key: string, a: Await)
      modifies this
      ensures entries == Write(old(entries), key, AfterDelete(CellOf(old(entries), key), a))
    {
      if a.reply.Applied() {
        entries := entries - {key};
      }
      assert old(entries) == Write(old(entries), key, CellOf(old(entries), key));
    }

    method IncrementRaw(key: string, a: Await) returns (count: Option<nat>)
      modifies this
      ensures entries == Write(old(entries), key, AfterIncrement(CellOf(old(entries), key), a))
      ensures count == CountReply(CellOf(old(entries), key), a)
    {
      assert entries == Write(entries, key, CellOf(entries, key));
      var next := NextCount(CellOf(entries, key), a.at);
      if a.reply.Applied() && next.Some? {
        var live := Live(CellOf(entries, key), a.at);
        entries := entries[key := Entry(Number(next.value), if live then entries[key].expiry else None)];
      }
      count := if a.reply.Answered? then next else None;
    }

    method IncrementWithTtl(key: string, ttl: Time, a: Await) returns (count: Option<nat>)
      modifies this
      ensures entries == Write(old(entries), key, AfterIncrementWithTtl(CellOf(old(entries), key), ttl, a))
      ensures count == CountReply(CellOf(old(entries), key), a)
    {
      assert entries == Write(entries, key, CellOf(entries, key));
      var next := NextCount(CellOf(entries, key), a.at);
      if a.reply.Applied() {
        if next.Some? {
          entries := entries[key := Entry(Number(next.value), None)];
        }
        entries := entries[key := entries[key].(expiry := Some(a.at + ttl))];
      }
      count := if a.reply.Answered? then next else None;
    }

    method ExistsRaw(key: string, a: Await) returns (present: Option<bool>)
      ensures present == ExistsReply(CellOf(entries, key), a)
    {
      var cell := if key in entries then Some(entries[key]) else None;
      present := if a.reply.Answered? then Some(Live(cell, a.at)) else None;
    }
  }
}
