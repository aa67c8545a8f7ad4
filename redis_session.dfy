/**
 * The Redis-backed session store: one Redis list per session under the key
 * `openai_agent_session:<id>`, each entry one JSON item, with an expiry on the key.
 * The Redis server is modelled by the commands the store issues (RPUSH, LRANGE,
 * RPOP, DEL, EXISTS, LLEN, TTL, EXPIRE) over a map from key to list and a map
 * from key to the seconds it still has to live. Time does not pass in the model.
 */
module RedisSessionStore {
  import opened Wrappers
  import opened JsonValues

  /** The expiry applied when `REDIS_SESSION_TTL` is unset: seven days. */
  const DEFAULT_SESSION_TTL: int := 604800

  const KEY_PREFIX: string := "openai_agent_session:"

  function SessionKey(sessionId: string): string {
    KEY_PREFIX + sessionId
  }

  /** Different sessions never share a Redis key. */
  lemma SessionKeyInjective(a: string, b: string)
    requires SessionKey(a) == SessionKey(b)
    ensures a == b
  {
    assert a == SessionKey(a)[|KEY_PREFIX|..];
    assert b == SessionKey(b)[|KEY_PREFIX|..];
  }

  /**
   * `LRANGE key start stop`: negative indices count from the end, `start` is
   * clamped at 0, `stop` at the last element, and an empty range gives nothing.
   */
  function LRange<T>(s: seq<T>, start: int, stop: int): seq<T> {
    var n := |s|;
    var from := if start >= 0 then start else if n + start < 0 then 0 else n + start;
    var to := if stop < 0 then n + stop else if stop >= n then n - 1 else stop;
    if from > to || from >= n then [] else s[from..to + 1]
  }

  /** `get_items(limit)` reads `LRANGE key -limit -1`, or `LRANGE key 0 -1` without a limit. */
  function ItemsRange<T>(s: seq<T>, limit: Option<int>): (r: seq<T>)
    ensures limit.None? ==> r == s
    ensures limit == Some(0) ==> r == s
    ensures limit.Some? && limit.value > 0 ==>
              r == s[|s| - (if limit.value < |s| then limit.value else |s|)..]
    ensures limit.Some? && limit.value < 0 ==>
              r == s[(if -limit.value < |s| then -limit.value else |s|)..]
  {
    if limit.None? then LRange(s, 0, -1) else LRange(s, -limit.value, -1)
  }

  /** `REDIS_SESSION_TTL` when set (already parsed by `int`), otherwise the seven-day default. */
  function ConfiguredTtl(env: Option<int>): (ttl: int)
    ensures env.None? ==> ttl == DEFAULT_SESSION_TTL
    ensures env.Some? ==> ttl == env.value
  {
    env.GetOr(DEFAULT_SESSION_TTL)
  }

  /** `seconds or int(os.getenv(...))`: `None` and `0` are falsy and select the configured value. */
  function RequestedTtl(seconds: Option<int>, configured: int): (ttl: int)
    ensures seconds.None? || seconds == Some(0) ==> ttl == configured
    ensures seconds.Some? && seconds.value != 0 ==> ttl == seconds.value
  {
    if seconds.Some? && seconds.value != 0 then seconds.value else configured
  }

  /** What `get_session_info` reports. */
  datatype SessionInfo = SessionInfo(sessionId: string, itemCount: nat, ttlSeconds: Option<int>, present: bool)

  /** The Redis server, reduced to the lists and expiries the store touches. */
  class RedisServer {
    var lists: map<string, seq<Json>>
    var expiries: map<string, int>

    /** Redis never keeps an empty list; only existing keys carry an expiry, and it is positive. */
    ghost predicate Valid()
      reads this
    {
      && (forall k :: k in lists ==> lists[k] != [])
      && expiries.Keys <= lists.Keys
      && (forall k :: k in expiries ==> expiries[k] > 0)
    }

    constructor ()
      ensures Valid() && lists == map[] && expiries == map[]
    {
      lists := map[];
      expiries := map[];
    }

    /** The list stored at `key`; a missing key reads as the empty list. */
    function List(key: string): seq<Json>
      reads this
    {
      if key in lists then lists[key] else []
    }

    /** `TTL key`: -2 for a missing key, -1 for a key without expiry, else the seconds left. */
    function Ttl(key: string): int
      reads this
    {
      if key !in lists then -2 else if key !in expiries then -1 else expiries[key]
    }

    /** `RPUSH key v1 ... vn`: appends in order; an existing expiry is kept. */
    method RPush(key: string, values: seq<Json>)
      requires Valid() && values != []
      modifies this
      ensures Valid()
      ensures lists == old(lists)[key := old(List(key)) + values]
      ensures expiries == old(expiries)
    {
      lists := lists[key := List(key) + values];
    }

    /** `RPOP key`: removes and returns the last element; a list left empty is deleted with its expiry. */
    method RPop(key: string) returns (v: Option<Json>)
      requires Valid()
      modifies this
      ensures Valid()
      ensures old(List(key)) == [] ==> v.None? && lists == old(lists) && expiries == old(expiries)
      ensures old(List(key)) != [] ==>
                var s := old(List(key));
                && v == Some(s[|s| - 1])
                && List(key) == s[..|s| - 1]
                && (forall k :: k != key ==> List(k) == old(List(k)))
                && (|s| > 1 ==> expiries == old(expiries))
                && (|s| == 1 ==> expiries == old(expiries) - {key})
      ensures lists.Keys <= old(lists.Keys)
    {
      if key !in lists {
        v := None;
      } else {
        var s := lists[key];
        v := Some(s[|s| - 1]);
        if |s| == 1 {
          lists := lists - {key};
          expiries := expiries - {key};
        } else {
          lists := lists[key := s[..|s| - 1]];
        }
      }
    }

    /** `DEL key`. */
    method Delete(key: string)
      requires Valid()
      modifies this
      ensures Valid()
      ensures lists == old(lists) - {key} && expiries == old(expiries) - {key}
    {
      lists := lists - {key};
      expiries := expiries - {key};
    }

    /**
     * `EXPIRE key seconds`: nothing happens to a missing key; a non-positive
     * timeout deletes the key; otherwise the key gets exactly `seconds` to live.
     */
    method Expire(key: string, seconds: int) returns (applied: bool)
      requires Valid()
      modifies this
      ensures Valid()
      ensures applied <==> key in old(lists)
      ensures !applied ==> lists == old(lists) && expiries == old(expiries)
      ensures applied && seconds <= 0 ==> lists == old(lists) - {key} && expiries == old(expiries) - {key}
      ensures applied && seconds > 0 ==> lists == old(lists) && expiries == old(expiries)[key := seconds]
    {
      applied := key in lists;
      if applied {
        if seconds <= 0 {
          lists := lists - {key};
          expiries := expiries - {key};
        } else {
          expiries := expiries[key := seconds];
        }
      }
    }
  }

  /** One conversation's view of the store. */
  class RedisSession {
    const sessionId: string
    const key: string
    const server: RedisServer

    constructor (sessionId: string, server: RedisServer)
      ensures this.sessionId == sessionId && this.server == server
      ensures key == SessionKey(sessionId)
    {
      this.sessionId := sessionId;
      this.server := server;
      key := SessionKey(sessionId);
    }

    /**
     * All items in insertion order, or the most recent `limit` of them, still in
     * chronological order. A limit of 0 reads `LRANGE key 0 -1`: everything.
     */
    method GetItems(limit: Option<int>) returns (items: seq<Json>)
      requires server.Valid()
      ensures items == ItemsRange(server.List(key), limit)
      ensures |items| <= |server.List(key)|
      ensures items <= server.List(key) || server.List(key)[|server.List(key)| - |items|..] == items
    {
      var s := server.List(key);
      items := ItemsRange(s, limit);
    }

    /**
     * Appends `items` at the tail and refreshes the expiry from `REDIS_SESSION_TTL`,
     * whose value at the time of the call is `env`; an empty list changes nothing.
     */
    method AddItems(items: seq<Json>, env: Option<int>)
      requires server.Valid()
      modifies server
      ensures server.Valid()
      ensures items == [] ==> server.lists == old(server.lists) && server.expiries == old(server.expiries)
      ensures items != [] && ConfiguredTtl(env) > 0 ==>
                && server.lists == old(server.lists)[key := old(server.List(key)) + items]
                && server.expiries == old(server.expiries)[key := ConfiguredTtl(env)]
      ensures items != [] && ConfiguredTtl(env) <= 0 ==>
                && server.lists == old(server.lists) - {key}
                && server.expiries == old(server.expiries) - {key}
    {
      if items == [] {
        return;
      }
      server.RPush(key, items);
      var _ := server.Expire(key, ConfiguredTtl(env));
    }

    /** Removes and returns the most recent item; `None` when the session is empty or missing. */
    method PopItem() returns (item: Option<Json>)
      requires server.Valid()
      modifies server
      ensures server.Valid()
      ensures old(server.List(key)) == [] ==>
                item.None? && server.lists == old(server.lists) && server.expiries == old(server.expiries)
      ensures old(server.List(key)) != [] ==>
                var s := old(server.List(key));
                && item == Some(s[|s| - 1])
                && server.List(key) == s[..|s| - 1]
                && (forall k :: k != key ==> server.List(k) == old(server.List(k)))
                && (|s| > 1 ==> server.expiries == old(server.expiries))
                && (|s| == 1 ==> server.expiries == old(server.expiries) - {key})
    {
      item := server.RPop(key);
    }

    method ClearSession()
      requires server.Valid()
      modifies server
      ensures server.Valid()
      ensures server.List(key) == [] && server.Ttl(key) == -2
      ensures server.lists == old(server.lists) - {key} && server.expiries == old(server.expiries) - {key}
    {
      server.Delete(key);
    }

    /** `EXISTS key > 0`: the session has at least one item. */
    method Exists() returns (b: bool)
      requires server.Valid()
      ensures b <==> server.List(key) != []
    {
      b := key in server.lists;
    }

    method GetSessionInfo() returns (info: SessionInfo)
      requires server.Valid()
      ensures info.sessionId == sessionId
      ensures info.itemCount == |server.List(key)|
      ensures info.present <==> info.itemCount > 0
      ensures info.ttlSeconds.Some? <==> key in server.expiries
      ensures info.ttlSeconds.Some? ==> info.ttlSeconds.value == server.expiries[key] > 0
    {
      var length := |server.List(key)|;
      var ttl := server.Ttl(key);
      info := SessionInfo(sessionId, length, if ttl > 0 then Some(ttl) else None, length > 0);
    }

    /**
     * Sets the expiry to `seconds`, or to the configured value (`REDIS_SESSION_TTL`
     * as it is at the time of the call, `env`) when `seconds` is `None` or 0, but
     * only for a session that exists.
     */
    method ExtendTtl(seconds: Option<int>, env: Option<int>)
      requires server.Valid()
      modifies server
      ensures server.Valid()
      ensures old(server.List(key)) == [] ==>
                server.lists == old(server.lists) && server.expiries == old(server.expiries)
      ensures old(server.List(key)) != [] && RequestedTtl(seconds, ConfiguredTtl(env)) > 0 ==>
                server.lists == old(server.lists)
                && server.expiries == old(server.expiries)[key := RequestedTtl(seconds, ConfiguredTtl(env))]
      ensures old(server.List(key)) != [] && RequestedTtl(seconds, ConfiguredTtl(env)) <= 0 ==>
                server.lists == old(server.lists) - {key} && server.expiries == old(server.expiries) - {key}
    {
      var present := Exists();
      if present {
        var ttlSeconds := RequestedTtl(seconds, ConfiguredTtl(env));
        var _ := server.Expire(key, ttlSeconds);
      }
    }
  }

  /** `create_redis_session`: with `restoreExisting` false any stored conversation is cleared first. */
  method CreateRedisSession(sessionId: string, server: RedisServer, restoreExisting: bool)
    returns (session: RedisSession)
    requires server.Valid()
    modifies server
    ensures fresh(session) && session.server == server && session.key == SessionKey(sessionId)
    ensures session.sessionId == sessionId
    ensures server.Valid()
    ensures restoreExisting ==> server.lists == old(server.lists) && server.expiries == old(server.expiries)
    ensures !restoreExisting ==> server.List(session.key) == []
                                 && server.lists == old(server.lists) - {session.key}
                                 && server.expiries == old(server.expiries) - {session.key}
  {
    session := new RedisSession(sessionId, server);
    if !restoreExisting {
      session.ClearSession();
    }
  }

  /**
   * The basic-operations scenario of the store's own test: a new session is empty;
   * after adding two items both come back in order; a limit of 1 returns the newer;
   * popping returns the newer and leaves the older; clearing leaves nothing.
   */
  method BasicOperationsScenario(server: RedisServer, sessionId: string, first: Json, second: Json)
    requires server.Valid() && server.List(SessionKey(sessionId)) == []
    modifies server
    ensures server.Valid() && server.List(SessionKey(sessionId)) == [] && server.Ttl(SessionKey(sessionId)) == -2
  {
    var session := CreateRedisSession(sessionId, server, true);
    var items := session.GetItems(None);
    assert items == [];
    AddThenRead(session, first, second);
    PopThenClear(session, first, second);
  }

  /** The first half of the scenario: two items added to an empty session read back in order. */
  method AddThenRead(session: RedisSession, first: Json, second: Json)
    requires session.server.Valid() && session.server.List(session.key) == []
    modifies session.server
    ensures session.server.Valid() && session.server.List(session.key) == [first, second]
  {
    session.AddItems([first, second], None);
    var items := session.GetItems(None);
    assert items == [first, second];
    var info := session.GetSessionInfo();
    assert info.ttlSeconds == Some(DEFAULT_SESSION_TTL) && info.itemCount == 2;
    items := session.GetItems(Some(1));
    assert items == [second];
  }

  /** The second half: popping returns the newer item, and clearing leaves no key behind. */
  method PopThenClear(session: RedisSession, first: Json, second: Json)
    requires session.server.Valid() && session.server.List(session.key) == [first, second]
    modifies session.server
    ensures session.server.Valid() && session.server.List(session.key) == [] && session.server.Ttl(session.key) == -2
  {
    var popped := session.PopItem();
    assert popped == Some(second);
    var items := session.GetItems(None);
    assert items == [first];
    session.ClearSession();
    items := session.GetItems(None);
    assert items == [];
    var present := session.Exists();
    assert !present;
  }
}
