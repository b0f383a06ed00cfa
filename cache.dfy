/** The Redis response cache (src/middleware/cache.ts) and its invalidation
    (src/middleware/cacheInvalidation.ts). Redis is a map from key to a
    stored body and the time (in seconds) at which the key expires; a key
    past its expiry reads as absent. */
module Cache {
  import opened Common
  import opened Models
  import opened Http

  const TTL_SECONDS: int := 300
  /** The key pattern `/api/tasks*` as a prefix. */
  const TASKS_PREFIX: string := "/api/tasks"

  datatype Entry = Entry(body: Body, expiresAt: int)

  /** A key Redis still returns at time `now`. */
  predicate Live(entries: map<string, Entry>, key: string, now: int) {
    key in entries && now < entries[key].expiresAt
  }

  /** What `cacheMiddleware` does with a request before the handler. */
  datatype Decision =
    /** not a GET: straight to the handler, Redis untouched */
    | Bypass
    /** a live entry: its body is sent and the handler does not run */
    | Hit(body: Body)
    /** no live entry: the handler runs and what it sends is stored under `key` */
    | Miss(key: string)
    /** `get` failed: the handler runs and nothing is stored */
    | Unavailable

  /** The decision, keyed by `originalUrl` alone. */
  function Decide(entries: map<string, Entry>, reachable: bool, req: Request, now: int): (d: Decision)
    ensures req.verb != "GET" <==> d == Bypass
    ensures req.verb == "GET" && !reachable ==> d == Unavailable
    ensures req.verb == "GET" && reachable ==>
              (d.Hit? <==> Live(entries, req.originalUrl, now))
              && (d.Hit? ==> d.body == entries[req.originalUrl].body)
              && (!d.Hit? ==> d == Miss(req.originalUrl))
  {
    if req.verb != "GET" then Bypass
    else if !reachable then Unavailable
    else
      var key := req.originalUrl;
      if Live(entries, key, now) then Hit(entries[key].body) else Miss(key)
  }

  /** Two requests for the same URL get the same decision whoever sends
      them: a User may be served what a Manager's request stored. */
  lemma DecisionIgnoresCaller(entries: map<string, Entry>, reachable: bool, a: Request, b: Request, now: int)
    requires a.verb == b.verb && a.originalUrl == b.originalUrl
    ensures Decide(entries, reachable, a, now) == Decide(entries, reachable, b, now)
  {
  }

  /** What one request stores is what any later request for the same URL
      gets within the next 300 seconds, whoever sends it. */
  lemma StoredBodyServedToAll(entries: map<string, Entry>, key: string, body: Body, now: int, later: int, req: Request)
    requires req.verb == "GET" && req.originalUrl == key && now <= later < now + TTL_SECONDS
    ensures Decide(entries[key := Entry(body, now + TTL_SECONDS)], true, req, later) == Hit(body)
    ensures Decide(entries[key := Entry(body, now + TTL_SECONDS)], true, req, now + TTL_SECONDS) == Miss(key)
  {
  }

  /** `redisClient.keys('/api/tasks*')`. */
  function TaskKeys(entries: map<string, Entry>): (r: set<string>)
    ensures forall k :: k in r <==> k in entries && HasPrefix(k, TASKS_PREFIX)
    ensures r <= entries.Keys
  {
    set k | k in entries && HasPrefix(k, TASKS_PREFIX)
  }

  /** The store once every task key is deleted. */
  function WithoutTaskKeys(entries: map<string, Entry>): (r: map<string, Entry>)
    ensures forall k :: k in r ==> !HasPrefix(k, TASKS_PREFIX)
    ensures forall k :: k in entries && !HasPrefix(k, TASKS_PREFIX) ==> k in r && r[k] == entries[k]
    ensures r.Keys <= entries.Keys
  {
    map k | k in entries && !HasPrefix(k, TASKS_PREFIX) :: entries[k]
  }

  /** Invalidating twice leaves what invalidating once leaves. */
  lemma InvalidationIdempotent(entries: map<string, Entry>)
    ensures WithoutTaskKeys(WithoutTaskKeys(entries)) == WithoutTaskKeys(entries)
    ensures TaskKeys(WithoutTaskKeys(entries)) == {}
    ensures WithoutTaskKeys(entries).Keys == entries.Keys - TaskKeys(entries)
  {
  }

  /** The Redis client as the middlewares see it. `reachable` is false when
      the server cannot be reached; every command then fails. */
  class ResponseCache {
    var entries: map<string, Entry>
    var reachable: bool

    constructor (reachable: bool)
      ensures entries == map[] && this.reachable == reachable
    {
      entries := map[];
      this.reachable := reachable;
    }

    /** The first half of `cacheMiddleware`: the verb test and `get(key)`. */
    method Lookup(req: Request, now: int) returns (d: Decision)
      ensures d == Decide(entries, reachable, req, now)
    {
      d := Decide(entries, reachable, req, now);
    }

    /** The replaced `res.send`: `setEx(key, 300, body)`, whatever the
      status of the response being sent. */
    method SetEx(key: string, body: Body, now: int)
      modifies this
      ensures reachable == old(reachable)
      ensures entries == if reachable then old(entries)[key := Entry(body, now + TTL_SECONDS)] else old(entries)
    {
      if reachable {
        entries := entries[key := Entry(body, now + TTL_SECONDS)];
      }
    }

    /** `invalidateTasksCache`: collect the task keys, and delete them when
      there are any. Returns the keys deleted; a failure is swallowed and
      the middleware always goes on to `next`. */
    method InvalidateTasksCache() returns (deleted: set<string>)
      modifies this
      ensures reachable == old(reachable)
      ensures !reachable ==> deleted == {} && entries == old(entries)
      ensures reachable ==> deleted == TaskKeys(old(entries)) && entries == WithoutTaskKeys(old(entries))
      ensures deleted == {} ==> entries == old(entries)
    {
      deleted := {};
      if !reachable {
        return;
      }
      var keys := set k | k in entries && HasPrefix(k, TASKS_PREFIX);
      if keys != {} {
        entries := map k | k in entries && k !in keys :: entries[k];
        deleted := keys;
        assert entries == WithoutTaskKeys(old(entries));
      } else {
        assert forall k :: k in entries ==> k !in keys;
        assert entries == WithoutTaskKeys(entries);
      }
    }
  }
}
