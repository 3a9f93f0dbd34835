/** The response cache of the backend services: a key derived from the request payload,
    an in-memory dict or a Redis client behind it, and the manager that picks one. */
module Cache {
  import opened Wrappers
  import opened Text
  import opened Json

  /** hashlib.md5(s.encode('utf-8')).hexdigest(), taken as given. */
  type Digest = string -> string

  /** json.dumps(value) applied to an already key-sorted value, taken as given. */
  type Encoder = Json -> string

  /** The expiry the callers pass when they give none. */
  const DefaultTtl := 3600

  /** The prefix used when the caller gives none. */
  const DefaultPrefix := "cache"

  /** The cache key of a payload: the digest of the prefix followed by the payload's
      sorted-key encoding. */
  function CacheKey(md5: Digest, dumps: Encoder, data: Json, prefix: string): string {
    md5(prefix + dumps(SortKeys(data)))
  }

  /** Two payloads that list the same keys in different orders share a cache key. */
  lemma CacheKeyIgnoresKeyOrder(md5: Digest, dumps: Encoder, a: seq<Field>, b: seq<Field>, prefix: string)
    requires DistinctKeys(a) && DistinctKeys(b)
    requires multiset(a) == multiset(b)
    ensures CacheKey(md5, dumps, JObj(a), prefix) == CacheKey(md5, dumps, JObj(b), prefix)
  {
    SortKeysIgnoresOrder(a, b);
  }

  /** A plain dict; the ttl is accepted and ignored, so entries never expire. */
  class InMemoryCache {
    var entries: map<string, Json>

    constructor()
      ensures entries == map[]
    {
      entries := map[];
    }

    method Get(key: string) returns (r: Option<Json>)
      ensures key in entries ==> r == Some(entries[key])
      ensures key !in entries ==> r == None
    {
      if key in entries {
        r := Some(entries[key]);
      } else {
        r := None;
      }
    }

    method Set(key: string, value: Json, ttl: int)
      modifies this
      ensures entries == old(entries)[key := value]
    {
      entries := entries[key := value];
    }
  }

  /** What the Redis server answers to GET key: a stored payload (non-empty bytes that
      json.loads accepts), nil (or empty bytes), or an error (connection, decoding). */
  datatype RedisReply = Stored(payload: Json) | Missing | Fails

  /** A command the client sends to the server. */
  datatype RedisCommand = SetEx(key: string, value: Json, ex: int)

  /** A Redis client. The server itself is outside the model: its answers to GET are the
      function `replies`, and what the client sends is the log `sent`. */
  class RedisCache {
    /** self.client is not None: ping() succeeded when the client was made. */
    const connected: bool
    const replies: string -> RedisReply
    var sent: seq<RedisCommand>

    constructor(pingSucceeds: bool, replies: string -> RedisReply)
      ensures connected == pingSucceeds && this.replies == replies && sent == []
    {
      connected := pingSucceeds;
      this.replies := replies;
      sent := [];
    }

    /** Never raises: no client, nil and any error all read as a miss. */
    method Get(key: string) returns (r: Option<Json>)
      ensures r.Some? <==> connected && replies(key).Stored?
      ensures r.Some? ==> r.value == replies(key).payload
    {
      if !connected {
        return None;
      }
      match replies(key)
      case Stored(p) => r := Some(p);
      case Missing => r := None;
      case Fails => r := None;
    }

    /** Sends SET key value EX ttl when connected; a failure of the server is swallowed. */
    method Set(key: string, value: Json, ttl: int)
      modifies this
      ensures sent == if connected then old(sent) + [SetEx(key, value, ttl)] else old(sent)
    {
      if connected {
        sent := sent + [SetEx(key, value, ttl)];
      }
    }
  }

  datatype Backend = Memory(mem: InMemoryCache) | Redis(redis: RedisCache)

  /** The backend chosen for a configured cache type: Redis only when the type is
      'redis' in any letter case and the connection check succeeded. */
  predicate UsesRedis(cacheType: string, pingSucceeds: bool) {
    Lower(cacheType) == "redis" && pingSucceeds
  }

  class CacheManager {
    const backend: Backend
    const md5: Digest
    const dumps: Encoder
    /** _generate_cache_key of the backend. */
    const key: (Json, string) -> string

    /** The key function is CacheKey over the manager's digest and encoder. */
    ghost predicate KeysDerived() {
      forall d: Json, p: string :: key(d, p) == CacheKey(md5, dumps, d, p)
    }

    /** The one object whose state the manager changes. */
    function Footprint(): set<object> {
      match backend
      case Memory(m) => {m}
      case Redis(c) => {c}
    }

    /** A Redis backend is only kept when its connection check succeeded. */
    predicate Valid() {
      backend.Redis? ==> backend.redis.connected
    }

    /** What a lookup of (data, prefix) finds in the current state. */
    function Peek(data: Json, prefix: string): Option<Json>
      reads Footprint()
    {
      var key := key(data, prefix);
      match backend
      case Memory(m) => if key in m.entries then Some(m.entries[key]) else None
      case Redis(c) => if c.connected && c.replies(key).Stored? then Some(c.replies(key).payload) else None
    }

    constructor(cacheType: string, pingSucceeds: bool, replies: string -> RedisReply, md5: Digest, dumps: Encoder)
      ensures backend.Redis? <==> UsesRedis(cacheType, pingSucceeds)
      ensures backend.Memory? ==> fresh(backend.mem) && backend.mem.entries == map[]
      ensures backend.Redis? ==> fresh(backend.redis) && backend.redis.connected
      ensures backend.Redis? ==> backend.redis.replies == replies && backend.redis.sent == []
      ensures this.md5 == md5 && this.dumps == dumps
      ensures Valid() && KeysDerived()
    {
      this.md5 := md5;
      this.dumps := dumps;
      key := (d: Json, p: string) => CacheKey(md5, dumps, d, p);
      if Lower(cacheType) == "redis" {
        var c := new RedisCache(pingSucceeds, replies);
        if !c.connected {
          var m := new InMemoryCache();
          backend := Memory(m);
        } else {
          backend := Redis(c);
        }
      } else {
        var m := new InMemoryCache();
        backend := Memory(m);
      }
    }

    method GetCachedResponse(data: Json, prefix: string) returns (r: Option<Json>)
      ensures r == Peek(data, prefix)
    {
      var key := key(data, prefix);
      match backend
      case Memory(m) => r := m.Get(key);
      case Redis(c) => r := c.Get(key);
    }

    method SaveToCache(data: Json, response: Json, prefix: string, ttl: int)
      requires Valid()
      modifies Footprint()
      ensures backend.Memory? ==>
        backend.mem.entries == old(backend.mem.entries)[key(data, prefix) := response]
      ensures backend.Redis? ==>
        backend.redis.sent == old(backend.redis.sent) + [SetEx(key(data, prefix), response, ttl)]
      ensures backend.Memory? ==> Peek(data, prefix) == Some(response)
      ensures OtherKeysKept(this, key(data, prefix))
    {
      var key := key(data, prefix);
      match backend
      case Memory(m) => m.Set(key, response, ttl);
      case Redis(c) => c.Set(key, response, ttl);
    }
  }

  /** The change one save_to_cache with the default expiry makes. */
  twostate predicate Saved(c: CacheManager, data: Json, prefix: string, response: Json)
    reads c.Footprint()
  {
    var key := c.key(data, prefix);
    match c.backend
    case Memory(m) => m.entries == old(m.entries)[key := response]
    case Redis(r) => r.sent == old(r.sent) + [SetEx(key, response, DefaultTtl)]
  }

  /** A change of the cache state that leaves every lookup of another key as it was. */
  twostate predicate OtherKeysKept(c: CacheManager, key: string)
    reads c.Footprint()
  {
    forall d: Json, p: string :: c.key(d, p) != key ==> c.Peek(d, p) == old(c.Peek(d, p))
  }

  /** With the in-memory backend a saved response is found again by the same payload,
      under any sorting of its keys, and the ttl plays no part. */
  method SavedThenFound(c: CacheManager, a: seq<Field>, b: seq<Field>, response: Json, prefix: string, ttl: int)
    returns (r: Option<Json>)
    requires c.Valid() && c.KeysDerived() && c.backend.Memory?
    requires DistinctKeys(a) && DistinctKeys(b) && multiset(a) == multiset(b)
    modifies c.Footprint()
    ensures r == Some(response)
  {
    c.SaveToCache(JObj(a), response, prefix, ttl);
    CacheKeyIgnoresKeyOrder(c.md5, c.dumps, a, b, prefix);
    r := c.GetCachedResponse(JObj(b), prefix);
  }
}
