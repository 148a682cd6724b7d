/** The Redis-backed cache: a key-value store with per-key expiry, the
    per-user session index built on it, and the fixed-window rate limiter.
    The Redis commands the service sends (GET, SET, SETEX, DEL, INCR, EXPIRE,
    TTL, SADD, SREM, SMEMBERS) are pure functions over a map from keys to
    entries; `RedisService` holds that map and runs the service's command
    sequences on it. Time is `now` in milliseconds. */
module Redis {
  import opened Wrappers
  import opened Text

  datatype Value = Str(s: string) | Int(n: int) | Members(m: set<string>)

  /** `expiresAt` is an absolute time in milliseconds. */
  datatype Entry = Entry(value: Value, expiresAt: Option<int>)

  type Store = map<string, Entry>

  const WRONGTYPE := "WRONGTYPE Operation against a key holding the wrong kind of value"
  const NOT_INTEGER := "ERR value is not an integer or out of range"
  const SETEX_ERROR := "ERR invalid expire time in 'setex' command"
  const OVERFLOW := "ERR increment or decrement would overflow"
  const MAX_INT64: int := 0x7FFF_FFFF_FFFF_FFFF
  const MIN_INT64: int := -0x8000_0000_0000_0000

  // ---------------------------------------------------------------------------
  // The commands

  /** A key is gone once its expiry time has been reached. */
  predicate IsLive(e: Entry, now: int) {
    e.expiresAt.None? || now < e.expiresAt.value
  }

  function Lookup(m: Store, key: string, now: int): (r: Option<Entry>)
    ensures r.Some? <==> key in m && IsLive(m[key], now)
    ensures r.Some? ==> r.value == m[key]
  {
    if key in m && IsLive(m[key], now) then Some(m[key]) else None
  }

  /** GET: integers are stored as their decimal text. */
  function GetIn(m: Store, key: string, now: int): Result<Option<string>> {
    match Lookup(m, key, now)
    case None => Ok(None)
    case Some(Entry(Str(s), _)) => Ok(Some(s))
    case Some(Entry(Int(n), _)) => Ok(Some(IntToString(n)))
    case Some(Entry(Members(_), _)) => Err(Failure(Internal, WRONGTYPE))
  }

  /** SET without options: stores the text and drops any expiry. */
  function PlainSetIn(m: Store, key: string, value: string): Store {
    m[key := Entry(Str(value), None)]
  }

  /** SETEX: rejects a non-positive number of seconds. */
  function SetexIn(m: Store, key: string, seconds: int, value: string, now: int): Result<Store> {
    if seconds <= 0 then Err(Failure(Internal, SETEX_ERROR))
    else Ok(m[key := Entry(Str(value), Some(now + seconds * 1000))])
  }

  function DelIn(m: Store, key: string): Store {
    m - {key}
  }

  /** The counter a stored value stands for: an integer, or text that is
      the canonical decimal form of a signed 64-bit integer. */
  function CounterOf(v: Value): (r: Option<int>)
    ensures r.Some? ==> MIN_INT64 <= r.value <= MAX_INT64
    ensures v.Int? && MIN_INT64 <= v.n <= MAX_INT64 ==> r == Some(v.n)
    ensures v.Members? ==> r.None?
  {
    match v
    case Int(n) => if MIN_INT64 <= n <= MAX_INT64 then Some(n) else None
    case Str(s) =>
      var parsed := ParseInteger(s);
      if parsed.Some? && MIN_INT64 <= parsed.value <= MAX_INT64 then parsed else None
    case Members(_) => None
  }

  /** INCR: a missing (or expired) key counts from 0 and gets no expiry; an
      existing counter keeps its expiry. Returns the new store and the new
      count. A set is refused as the wrong type, text that is no 64-bit
      integer as not an integer, and the largest 64-bit integer as an
      overflow. */
  function IncrIn(m: Store, key: string, now: int): (r: Result<(Store, int)>)
    ensures var found := Lookup(m, key, now);
      var before := if found.None? then Some(0) else CounterOf(found.value.value);
      && (r.Ok? <==> before.Some? && before.value < MAX_INT64)
      && (r.Ok? ==>
            && r.value.1 == before.value + 1
            && key in r.value.0
            && r.value.0[key].value == Int(r.value.1)
            && r.value.0[key].expiresAt == (if found.None? then None else found.value.expiresAt))
      && (r.Err? ==>
            r.error.message == (if found.value.value.Members? then WRONGTYPE
                                else if before.None? then NOT_INTEGER
                                else OVERFLOW))
    ensures r.Ok? ==> forall k :: k != key ==>
      (k in r.value.0 <==> k in m) && (k in m ==> r.value.0[k] == m[k])
  {
    match Lookup(m, key, now)
    case None => Ok((m[key := Entry(Int(1), None)], 1))
    case Some(Entry(Members(_), _)) => Err(Failure(Internal, WRONGTYPE))
    case Some(Entry(v, exp)) =>
      match CounterOf(v)
      case None => Err(Failure(Internal, NOT_INTEGER))
      case Some(n) =>
        if n == MAX_INT64 then Err(Failure(Internal, OVERFLOW))
        else Ok((m[key := Entry(Int(n + 1), exp)], n + 1))
  }

  /** GET right after INCR reads the new count back as decimal text. */
  lemma IncrThenGet(m: Store, key: string, now: int)
    requires IncrIn(m, key, now).Ok?
    ensures GetIn(IncrIn(m, key, now).value.0, key, now) == Ok(Some(IntToString(IncrIn(m, key, now).value.1)))
  {
  }

  /** INCR on a key SET to the decimal text of a 64-bit integer below the
      maximum counts on from that integer. */
  lemma IncrAfterSetText(m: Store, key: string, n: int, now: int)
    requires MIN_INT64 <= n < MAX_INT64
    ensures IncrIn(PlainSetIn(m, key, IntToString(n)), key, now) ==
      Ok((m[key := Entry(Int(n + 1), None)], n + 1))
  {
    ParseIntegerOfIntToString(n);
    assert CounterOf(Str(IntToString(n))) == Some(n);
    assert PlainSetIn(m, key, IntToString(n))[key := Entry(Int(n + 1), None)] == m[key := Entry(Int(n + 1), None)];
  }

  /** EXPIRE: no effect on a missing key; a non-positive timeout deletes it. */
  function ExpireIn(m: Store, key: string, seconds: int, now: int): Store {
    match Lookup(m, key, now)
    case None => m
    case Some(e) =>
      if seconds <= 0 then m - {key}
      else m[key := e.(expiresAt := Some(now + seconds * 1000))]
  }

  /** TTL in seconds, rounded to nearest: -2 for a missing key, -1 for a key
      without expiry. */
  function TtlIn(m: Store, key: string, now: int): (r: int)
    ensures r == -2 <==> Lookup(m, key, now).None?
    ensures r == -1 <==> Lookup(m, key, now).Some? && Lookup(m, key, now).value.expiresAt.None?
    ensures Lookup(m, key, now).Some? && Lookup(m, key, now).value.expiresAt.Some? ==> r >= 0
  {
    match Lookup(m, key, now)
    case None => -2
    case Some(Entry(_, None)) => -1
    case Some(Entry(_, Some(t))) => (t - now + 500) / 1000
  }

  /** SADD of one member: creates the set when the key is missing. */
  function SAddIn(m: Store, key: string, member: string, now: int): Result<Store> {
    match Lookup(m, key, now)
    case None => Ok(m[key := Entry(Members({member}), None)])
    case Some(Entry(Members(s), exp)) => Ok(m[key := Entry(Members(s + {member}), exp)])
    case Some(_) => Err(Failure(Internal, WRONGTYPE))
  }

  /** SREM of one member: a set left empty is deleted. */
  function SRemIn(m: Store, key: string, member: string, now: int): Result<Store> {
    match Lookup(m, key, now)
    case None => Ok(m)
    case Some(Entry(Members(s), exp)) =>
      if s - {member} == {} then Ok(m - {key}) else Ok(m[key := Entry(Members(s - {member}), exp)])
    case Some(_) => Err(Failure(Internal, WRONGTYPE))
  }

  function SMembersIn(m: Store, key: string, now: int): Result<set<string>> {
    match Lookup(m, key, now)
    case None => Ok({})
    case Some(Entry(Members(s), _)) => Ok(s)
    case Some(_) => Err(Failure(Internal, WRONGTYPE))
  }

  // ---------------------------------------------------------------------------
  // The service's composite operations, as functions of the store

  /** `set`: SETEX when `ttlSeconds` is truthy (present and non-zero), plain
      SET otherwise. */
  function SetIn(m: Store, key: string, value: string, ttlSeconds: Option<int>, now: int): (r: Result<Store>)
    ensures r.Err? <==> ttlSeconds.Some? && ttlSeconds.value < 0
  {
    if ttlSeconds.Some? && ttlSeconds.value != 0 then SetexIn(m, key, ttlSeconds.value, value, now)
    else Ok(PlainSetIn(m, key, value))
  }

  /** `getJson`: `None` for a missing or empty value and for text `parse`
      rejects; a failing GET still fails. */
  function GetJsonIn<T>(m: Store, key: string, now: int, parse: string -> Option<T>): Result<Option<T>> {
    var text :- GetIn(m, key, now);
    if text.None? || text.value == "" then Ok(None) else Ok(parse(text.value))
  }

  function SessionKey(sessionId: string): string { "session:" + sessionId }
  function IndexKey(userId: string): string { "user_sessions:" + userId }
  function RateKey(key: string): string { "ratelimit:" + key }

  function SetSessionIn(m: Store, sessionId: string, userId: string, ttlSeconds: int, now: int): Result<Store> {
    var m1 :- SetIn(m, SessionKey(sessionId), userId, Some(ttlSeconds), now);
    SAddIn(m1, IndexKey(userId), sessionId, now)
  }

  function DeleteSessionIn(m: Store, sessionId: string, userId: string, now: int): Result<Store> {
    SRemIn(DelIn(m, SessionKey(sessionId)), IndexKey(userId), sessionId, now)
  }

  function SessionKeys(ids: set<string>): set<string> {
    set id | id in ids :: SessionKey(id)
  }

  function DeleteAllUserSessionsIn(m: Store, userId: string, now: int): Result<Store> {
    var ids :- SMembersIn(m, IndexKey(userId), now);
    Ok(m - SessionKeys(ids) - {IndexKey(userId)})
  }

  datatype RateLimit = RateLimit(allowed: bool, remaining: int, resetIn: int)

  function Max(a: int, b: int): int { if a >= b then a else b }

  /** `checkRateLimit`: INCR, EXPIRE when the count has just become 1, TTL. */
  function RateLimitIn(m: Store, key: string, limit: int, windowSeconds: int, now: int): Result<(Store, RateLimit)> {
    var (m1, current) :- IncrIn(m, RateKey(key), now);
    var m2 := if current == 1 then ExpireIn(m1, RateKey(key), windowSeconds, now) else m1;
    var ttl := TtlIn(m2, RateKey(key), now);
    Ok((m2, RateLimit(current <= limit, Max(0, limit - current), if ttl > 0 then ttl else windowSeconds)))
  }

  /** ioredis's `retryStrategy`: wait `times * 50` ms, at most 2 s. */
  function RetryDelay(times: int): (delay: int)
    ensures delay <= 2000
    ensures times >= 0 ==> delay >= 0
    ensures delay == 2000 || delay == times * 50
    ensures times <= 40 ==> delay == times * 50
  {
    if times * 50 <= 2000 then times * 50 else 2000
  }

  // ---------------------------------------------------------------------------
  // The service object

  /** Whether a command sequence `spec` that either fails or yields a new
      store was applied: on success the store is the new one, on failure the
      error is reported and the store is as before. */
  predicate Applied(before: Store, after: Store, r: Result<()>, spec: Result<Store>) {
    match spec
    case Ok(m) => r == Ok(()) && after == m
    case Err(e) => r == Err(e) && after == before
  }

  class RedisService {
    var entries: Store

    constructor()
      ensures entries == map[]
    {
      entries := map[];
    }

    function Get(key: string, now: int): Result<Option<string>>
      reads this
    {
      GetIn(entries, key, now)
    }

    function Exists(key: string, now: int): bool
      reads this
    {
      Lookup(entries, key, now).Some?
    }

    function GetJson<T>(key: string, now: int, parse: string -> Option<T>): Result<Option<T>>
      reads this
    {
      GetJsonIn(entries, key, now, parse)
    }

    function GetSession(sessionId: string, now: int): Result<Option<string>>
      reads this
    {
      Get(SessionKey(sessionId), now)
    }

    method Set(key: string, value: string, ttlSeconds: Option<int>, now: int) returns (r: Result<()>)
      modifies this
      ensures Applied(old(entries), entries, r, SetIn(old(entries), key, value, ttlSeconds, now))
    {
      if ttlSeconds.Some? && ttlSeconds.value != 0 {
        var s := SetexIn(entries, key, ttlSeconds.value, value, now);
        if s.Err? {
          return Err(s.error);
        }
        entries := s.value;
      } else {
        entries := PlainSetIn(entries, key, value);
      }
      r := Ok(());
    }

    method SetJson<T>(key: string, value: T, stringify: T -> string, ttlSeconds: Option<int>, now: int) returns (r: Result<()>)
      modifies this
      ensures Applied(old(entries), entries, r, SetIn(old(entries), key, stringify(value), ttlSeconds, now))
    {
      r := Set(key, stringify(value), ttlSeconds, now);
    }

    method Del(key: string)
      modifies this
      ensures entries == DelIn(old(entries), key)
    {
      entries := entries - {key};
    }

    method Increment(key: string, now: int) returns (r: Result<int>)
      modifies this
      ensures IncrIn(old(entries), key, now).Ok? ==>
        r == Ok(IncrIn(old(entries), key, now).value.1) && entries == IncrIn(old(entries), key, now).value.0
      ensures IncrIn(old(entries), key, now).Err? ==>
        r == Err(IncrIn(old(entries), key, now).error) && entries == old(entries)
    {
      var s := IncrIn(entries, key, now);
      if s.Err? {
        return Err(s.error);
      }
      entries := s.value.0;
      r := Ok(s.value.1);
    }

    method Expire(key: string, seconds: int, now: int)
      modifies this
      ensures entries == ExpireIn(old(entries), key, seconds, now)
    {
      entries := ExpireIn(entries, key, seconds, now);
    }

    function Ttl(key: string, now: int): int
      reads this
    {
      TtlIn(entries, key, now)
    }

    method SetSession(sessionId: string, userId: string, ttlSeconds: int, now: int) returns (r: Result<()>)
      modifies this
      ensures r.Ok? ==> SetSessionIn(old(entries), sessionId, userId, ttlSeconds, now) == Ok(entries)
      ensures r.Err? ==> (
        && SetSessionIn(old(entries), sessionId, userId, ttlSeconds, now) == Err(r.error)
        && var stored := SetIn(old(entries), SessionKey(sessionId), userId, Some(ttlSeconds), now);
           entries == if stored.Ok? then stored.value else old(entries))
    {
      r := Set(SessionKey(sessionId), userId, Some(ttlSeconds), now);
      if r.Err? {
        return;
      }
      // A failing SADD leaves the SET in place.
      var s := SAddIn(entries, IndexKey(userId), sessionId, now);
      if s.Err? {
        return Err(s.error);
      }
      entries := s.value;
    }

    method DeleteSession(sessionId: string, userId: string, now: int) returns (r: Result<()>)
      modifies this
      ensures r.Ok? ==> DeleteSessionIn(old(entries), sessionId, userId, now) == Ok(entries)
      ensures r.Err? ==> (
        && DeleteSessionIn(old(entries), sessionId, userId, now) == Err(r.error)
        && entries == DelIn(old(entries), SessionKey(sessionId)))
    {
      Del(SessionKey(sessionId));
      var s := SRemIn(entries, IndexKey(userId), sessionId, now);
      if s.Err? {
        return Err(s.error);
      }
      entries := s.value;
      r := Ok(());
    }

    /** Deletes the session key of every member of the user's index, one
        at a time, then the index. */
    method DeleteAllUserSessions(userId: string, now: int) returns (r: Result<()>)
      modifies this
      ensures Applied(old(entries), entries, r, DeleteAllUserSessionsIn(old(entries), userId, now))
    {
      var ids := SMembersIn(entries, IndexKey(userId), now);
      if ids.Err? {
        return Err(ids.error);
      }
      var rest := ids.value;
      while rest != {}
        invariant rest <= ids.value
        invariant entries == old(entries) - SessionKeys(ids.value - rest)
        decreases |rest|
      {
        var id :| id in rest;
        Del(SessionKey(id));
        assert SessionKeys(ids.value - (rest - {id})) == SessionKeys(ids.value - rest) + {SessionKey(id)};
        rest := rest - {id};
      }
      assert ids.value - rest == ids.value;
      Del(IndexKey(userId));
      r := Ok(());
    }

    method CheckRateLimit(key: string, limit: int, windowSeconds: int, now: int) returns (r: Result<RateLimit>)
      modifies this
      ensures RateLimitIn(old(entries), key, limit, windowSeconds, now).Ok? ==>
        r == Ok(RateLimitIn(old(entries), key, limit, windowSeconds, now).value.1)
        && entries == RateLimitIn(old(entries), key, limit, windowSeconds, now).value.0
      ensures RateLimitIn(old(entries), key, limit, windowSeconds, now).Err? ==>
        r == Err(RateLimitIn(old(entries), key, limit, windowSeconds, now).error) && entries == old(entries)
    {
      var current := Increment(RateKey(key), now);
      if current.Err? {
        return Err(current.error);
      }
      if current.value == 1 {
        Expire(RateKey(key), windowSeconds, now);
      }
      var ttl := Ttl(RateKey(key), now);
      r := Ok(RateLimit(current.value <= limit, Max(0, limit - current.value), if ttl > 0 then ttl else windowSeconds));
    }
  }

  // ---------------------------------------------------------------------------
  // Properties of get/set/del

  lemma GetAfterSet(m: Store, key: string, value: string, ttlSeconds: Option<int>, now: int, t: int)
    requires SetIn(m, key, value, ttlSeconds, now).Ok?
    ensures var m' := SetIn(m, key, value, ttlSeconds, now).value;
      GetIn(m', key, t) == (if ttlSeconds.Some? && ttlSeconds.value != 0 && t >= now + ttlSeconds.value * 1000
                            then Ok(None) else Ok(Some(value)))
  {
  }

  /** A truthy ttl stores an expiry, a ttl of 0 or none stores none. */
  lemma SetStoresExpiry(m: Store, key: string, value: string, ttlSeconds: Option<int>, now: int)
    requires SetIn(m, key, value, ttlSeconds, now).Ok?
    ensures var m' := SetIn(m, key, value, ttlSeconds, now).value;
      && key in m'
      && (m'[key].expiresAt.None? <==> ttlSeconds.None? || ttlSeconds.value == 0)
      && TtlIn(m', key, now) == (if ttlSeconds.None? || ttlSeconds.value == 0 then -1 else ttlSeconds.value)
  {
    if ttlSeconds.Some? && ttlSeconds.value != 0 {
      assert (ttlSeconds.value * 1000 + 500) / 1000 == ttlSeconds.value;
    }
  }

  lemma SetLeavesOtherKeys(m: Store, key: string, value: string, ttlSeconds: Option<int>, now: int, other: string, t: int)
    requires SetIn(m, key, value, ttlSeconds, now).Ok? && other != key
    ensures GetIn(SetIn(m, key, value, ttlSeconds, now).value, other, t) == GetIn(m, other, t)
  {
  }

  lemma GetAfterDel(m: Store, key: string, other: string, t: int)
    ensures GetIn(DelIn(m, key), key, t) == Ok(None)
    ensures other != key ==> GetIn(DelIn(m, key), other, t) == GetIn(m, other, t)
  {
  }

  /** A stored JSON document reads back as the value, under the law that
      parsing the text of a value gives the value back. */
  lemma GetJsonAfterSetJson<T>(m: Store, key: string, value: T, stringify: T -> string,
                               parse: string -> Option<T>, ttlSeconds: Option<int>, now: int)
    requires SetIn(m, key, stringify(value), ttlSeconds, now).Ok?
    requires parse(stringify(value)) == Some(value) && stringify(value) != ""
    ensures GetJsonIn(SetIn(m, key, stringify(value), ttlSeconds, now).value, key, now, parse) == Ok(Some(value))
  {
    GetAfterSet(m, key, stringify(value), ttlSeconds, now, now);
  }

  lemma GetJsonEmpty<T>(m: Store, key: string, now: int, parse: string -> Option<T>)
    requires GetIn(m, key, now) == Ok(None) || GetIn(m, key, now) == Ok(Some(""))
    ensures GetJsonIn(m, key, now, parse) == Ok(None)
  {
  }

  // ---------------------------------------------------------------------------
  // Properties of the session index

  lemma KeyspacesDisjoint(a: string, b: string, c: string)
    ensures SessionKey(a) != IndexKey(b)
    ensures SessionKey(a) != RateKey(c) && IndexKey(b) != RateKey(c)
  {
    assert SessionKey(a)[0] == 's' && IndexKey(b)[0] == 'u' && RateKey(c)[0] == 'r';
  }

  lemma SessionKeyInjective(a: string, b: string)
    requires SessionKey(a) == SessionKey(b)
    ensures a == b
  {
    assert a == SessionKey(a)[8..];
    assert b == SessionKey(b)[8..];
  }

  /** After setSession the session key names the user (until its ttl runs
      out) and the id is in the user's index. */
  lemma SetSessionEffect(m: Store, sessionId: string, userId: string, ttlSeconds: int, now: int, t: int)
    requires SetSessionIn(m, sessionId, userId, ttlSeconds, now).Ok?
    requires now <= t && (ttlSeconds == 0 || t < now + ttlSeconds * 1000)
    ensures var m' := SetSessionIn(m, sessionId, userId, ttlSeconds, now).value;
      && GetIn(m', SessionKey(sessionId), t) == Ok(Some(userId))
      && SMembersIn(m', IndexKey(userId), now).Ok?
      && sessionId in SMembersIn(m', IndexKey(userId), now).value
  {
    KeyspacesDisjoint(sessionId, userId, "");
  }

  /** deleteSession removes the session key and the id from the index. */
  lemma DeleteSessionEffect(m: Store, sessionId: string, userId: string, now: int, t: int)
    requires DeleteSessionIn(m, sessionId, userId, now).Ok?
    ensures var m' := DeleteSessionIn(m, sessionId, userId, now).value;
      && GetIn(m', SessionKey(sessionId), t) == Ok(None)
      && SMembersIn(m', IndexKey(userId), now).Ok?
      && sessionId !in SMembersIn(m', IndexKey(userId), now).value
  {
    KeyspacesDisjoint(sessionId, userId, "");
  }

  /** deleteAllUserSessions removes every session in the index and the
      index itself, and touches no other key. */
  lemma DeleteAllUserSessionsEffect(m: Store, userId: string, now: int, other: string)
    requires SMembersIn(m, IndexKey(userId), now).Ok?
    ensures DeleteAllUserSessionsIn(m, userId, now).Ok?
    ensures var m' := DeleteAllUserSessionsIn(m, userId, now).value;
      && IndexKey(userId) !in m'
      && (forall id :: id in SMembersIn(m, IndexKey(userId), now).value ==> SessionKey(id) !in m')
      && (other != IndexKey(userId) && (forall id :: id in SMembersIn(m, IndexKey(userId), now).value ==> other != SessionKey(id))
          ==> (other in m' <==> other in m) && (other in m ==> m'[other] == m[other]))
  {
    var ids := SMembersIn(m, IndexKey(userId), now).value;
    forall id | id in ids
      ensures SessionKey(id) in SessionKeys(ids)
    {
    }
  }

  // ---------------------------------------------------------------------------
  // The fixed window of the rate limiter

  /** What a sequence of `checkRateLimit` calls, at the times given, answers. */
  function RunRateLimit(m: Store, key: string, limit: int, windowSeconds: int, times: seq<int>): Result<seq<RateLimit>>
    decreases |times|
  {
    if times == [] then Ok([])
    else
      var (m1, out) :- RateLimitIn(m, key, limit, windowSeconds, times[0]);
      var rest :- RunRateLimit(m1, key, limit, windowSeconds, times[1..]);
      Ok([out] + rest)
  }

  function CountAllowed(outs: seq<RateLimit>): nat {
    if outs == [] then 0 else (if outs[0].allowed then 1 else 0) + CountAllowed(outs[1..])
  }

  /** Inside a window whose counter stands at `count`, the i-th further call
      sees count + i + 1 and is allowed exactly when that is within the limit. */
  lemma {:induction false} RunInsideWindow(m: Store, key: string, limit: int, windowSeconds: int,
                                           times: seq<int>, count: int, expiry: int)
    requires RateKey(key) in m && m[RateKey(key)] == Entry(Int(count), Some(expiry))
    requires count >= 1 && count + |times| <= MAX_INT64
    requires forall i :: 0 <= i < |times| ==> times[i] < expiry
    ensures RunRateLimit(m, key, limit, windowSeconds, times).Ok?
    ensures var outs := RunRateLimit(m, key, limit, windowSeconds, times).value;
      |outs| == |times| && forall i :: 0 <= i < |outs| ==> (outs[i].allowed <==> count + i + 1 <= limit)
    decreases |times|
  {
    if times != [] {
      var k := RateKey(key);
      var m1 := m[k := Entry(Int(count + 1), Some(expiry))];
      assert IncrIn(m, k, times[0]) == Ok((m1, count + 1));
      assert RateLimitIn(m, key, limit, windowSeconds, times[0]).Ok?;
      assert RateLimitIn(m, key, limit, windowSeconds, times[0]).value.0 == m1;
      RunInsideWindow(m1, key, limit, windowSeconds, times[1..], count + 1, expiry);
    }
  }

  lemma {:induction false} CountAllowedBound(outs: seq<RateLimit>, limit: int, base: int)
    requires forall i :: 0 <= i < |outs| ==> (outs[i].allowed <==> base + i + 1 <= limit)
    ensures CountAllowed(outs) <= Max(0, limit - base)
    decreases |outs|
  {
    if outs != [] {
      CountAllowedBound(outs[1..], limit, base + 1);
    }
  }

  /** The fixed window: starting from a key that is absent (or expired) at
      the first call, at most `limit` of the calls made before the window
      closes are allowed. */
  lemma AtMostLimitPerWindow(m: Store, key: string, limit: int, windowSeconds: int, times: seq<int>)
    requires windowSeconds > 0 && |times| < MAX_INT64
    requires times != [] && Lookup(m, RateKey(key), times[0]).None?
    requires forall i :: 0 <= i < |times| ==> times[i] < times[0] + windowSeconds * 1000
    ensures RunRateLimit(m, key, limit, windowSeconds, times).Ok?
    ensures CountAllowed(RunRateLimit(m, key, limit, windowSeconds, times).value) <= Max(0, limit)
  {
    var k := RateKey(key);
    var t0 := times[0];
    var expiry := t0 + windowSeconds * 1000;
    var m1 := m[k := Entry(Int(1), None)];
    assert IncrIn(m, k, t0) == Ok((m1, 1));
    var m2 := m1[k := Entry(Int(1), Some(expiry))];
    assert ExpireIn(m1, k, windowSeconds, t0) == m2;
    var first := RateLimitIn(m, key, limit, windowSeconds, t0);
    assert first.Ok? && first.value.0 == m2 && (first.value.1.allowed <==> 1 <= limit);
    RunInsideWindow(m2, key, limit, windowSeconds, times[1..], 1, expiry);
    var rest := RunRateLimit(m2, key, limit, windowSeconds, times[1..]).value;
    var outs := RunRateLimit(m, key, limit, windowSeconds, times).value;
    assert outs == [first.value.1] + rest;
    assert outs[1..] == rest;
    CountAllowedBound(rest, limit, 1);
  }

  /** One call's answer: allowed iff the new count is within the limit,
      `remaining` never negative, and `resetIn` positive for a positive window. */
  lemma RateLimitAnswer(m: Store, key: string, limit: int, windowSeconds: int, now: int)
    requires RateLimitIn(m, key, limit, windowSeconds, now).Ok?
    ensures var (m', out) := RateLimitIn(m, key, limit, windowSeconds, now).value;
      var count := IncrIn(m, RateKey(key), now).value.1;
      && (out.allowed <==> count <= limit)
      && out.remaining == Max(0, limit - count) && out.remaining >= 0
      && (windowSeconds > 0 ==> out.resetIn > 0)
      && (count == 1 && windowSeconds > 0 ==> m'[RateKey(key)].expiresAt == Some(now + windowSeconds * 1000))
  {
  }
}
