/** The Redis cache adapter (internal/infrastructure/db/redis.go): key
    formats, the per-location velocity counters and the key-count read over
    them, the user-stats cache and the risk-verdict cache. Redis itself is a
    map from string keys to values plus the TTL (in seconds) last set on each
    key; the passage of time is not modelled. */
module RedisCache {
  import opened Wrappers
  import opened Domain

  /** TTLs in seconds: one minute, ten minutes, five minutes. */
  const VelocityTtl: nat := 60
  const StatsTtl: nat := 600
  const RiskTtl: nat := 300

  // ---------------------------------------------------------------------
  // Key formats

  predicate HasPrefix(s: string, p: string) {
    |p| <= |s| && s[..|p|] == p
  }

  /** The literal part of the SCAN pattern `velocity:<user>:*`. */
  function VelocityPrefix(userId: string): string {
    "velocity:" + userId + ":"
  }

  /** A velocity key is the user's SCAN prefix followed by the location, so
      it matches its own user's pattern. */
  function VelocityKey(userId: string, location: string): (k: string)
    ensures HasPrefix(k, VelocityPrefix(userId))
    ensures k[|VelocityPrefix(userId)|..] == location
  {
    assert VelocityPrefix(userId) + location == "velocity:" + userId + ":" + location;
    "velocity:" + userId + ":" + location
  }

  /** A stats key is `user_stats:` followed by the user id, which it
      therefore determines. */
  function StatsKey(userId: string): (k: string)
    ensures HasPrefix(k, "user_stats:") && k[|"user_stats:"|..] == userId
  {
    "user_stats:" + userId
  }

  /** A risk key is `ai_risk:` followed by the user id, a colon and the
      merchant. */
  function RiskKey(userId: string, merchant: string): (k: string)
    ensures HasPrefix(k, "ai_risk:") && k[|"ai_risk:"|..] == userId + ":" + merchant
  {
    assert "ai_risk:" + userId + ":" + merchant == "ai_risk:" + (userId + ":" + merchant);
    "ai_risk:" + userId + ":" + merchant
  }

  /** The keys a SCAN with pattern `velocity:<user>:*` selects: the glob's
      only wildcard is the trailing `*`. */
  ghost function VelocityKeys(store: map<string, Value>, userId: string): set<string> {
    set k | k in store && HasPrefix(k, VelocityPrefix(userId))
  }

  // ---------------------------------------------------------------------
  // Key lemmas

  /** A key built from `<u'>:<rest>` starts with `<u>:` only when u' == u,
      provided neither user id contains a colon. */
  lemma {:induction false} ColonDelimited(u: string, u': string, rest: string)
    requires ':' !in u && ':' !in u'
    requires HasPrefix(u' + ":" + rest, u + ":")
    ensures u == u'
  {
    var key := u' + ":" + rest;
    var p := u + ":";
    assert key[..|p|] == p;
    assert forall k :: 0 <= k < |u| ==> u[k] != ':';
    assert forall k :: 0 <= k < |u'| ==> u'[k] != ':';
    assert key[|u'|] == ':' && p[|u|] == ':';
    assert |u| == |u'|;
    forall k | 0 <= k < |u| ensures u[k] == u'[k] {
      assert key[k] == u'[k] && p[k] == u[k];
    }
  }

  /** For colon-free user ids, the pattern of one user never selects another
      user's velocity keys. */
  lemma VelocityPatternSelectsOwnUser(u: string, other: string, location: string)
    requires ':' !in u && ':' !in other
    requires HasPrefix(VelocityKey(other, location), VelocityPrefix(u))
    ensures other == u
  {
    var key := VelocityKey(other, location);
    var p := VelocityPrefix(u);
    var n := |"velocity:"|;
    assert key == "velocity:" + (other + ":" + location);
    assert p == "velocity:" + (u + ":");
    assert key[n..][..|p| - n] == key[..|p|][n..];
    ColonDelimited(u, other, location);
  }

  /** The glob is a plain prefix match: the pattern of user `a` also selects
      the keys of user `a:b`. */
  lemma VelocityPatternOvermatches()
    ensures HasPrefix(VelocityKey("a:b", "Kyiv"), VelocityPrefix("a"))
  {
    assert VelocityKey("a:b", "Kyiv") == VelocityPrefix("a") + "b:Kyiv";
  }

  /** For colon-free user ids the risk-cache key determines (user, merchant). */
  lemma RiskKeyInjective(u: string, m: string, u': string, m': string)
    requires ':' !in u && ':' !in u'
    requires RiskKey(u, m) == RiskKey(u', m')
    ensures u == u' && m == m'
  {
    var n := |"ai_risk:"|;
    assert RiskKey(u, m)[n..] == u + ":" + m;
    assert RiskKey(u', m')[n..] == u' + ":" + m';
    var s := u' + ":" + m';
    assert (u + ":" + m)[..|u| + 1] == u + ":";
    ColonDelimited(u, u', m');
    assert (u + ":") + m == (u + ":") + m';
    assert m == (u + ":" + m)[|u| + 1..];
  }

  /** A colon in a user id lets two different (user, merchant) pairs share one
      risk-cache entry. */
  lemma RiskKeyCollides()
    ensures RiskKey("a:b", "c") == RiskKey("a", "b:c")
  {
  }

  // ---------------------------------------------------------------------
  // Stored values

  /** What a key holds: an INCR counter, the "%.2f|%.2f" stats string, or a
      JSON-encoded alert. */
  datatype Value = Counter(n: int) | Stats(maxAmount: int, avgAmount: int) | AlertJson(alert: FraudAlert)

  /** The reply of GET: a value, `redis.Nil`, or another error. */
  datatype GetReply = Hit(v: Value) | Miss | Failed(error: string)

  const NotAnInteger := "ERR value is not an integer or out of range"
  const NotAnAlert := "json: cannot unmarshal into domain.FraudAlert"
  const NotStats := "expected float|float"

  /** What `json.Unmarshal` into a FraudAlert makes of a stored value. */
  function DecodeAlert(v: Value): (r: Option<FraudAlert>)
    ensures r.Some? <==> v.AlertJson?
  {
    if v.AlertJson? then Some(v.alert) else None
  }

  /** The result of GetRiskCache against a reachable store: nothing for a
      missing key, the alert for a stored JSON alert, and an unmarshal error
      for any other value. */
  function RiskCacheRead(store: map<string, Value>, userId: string, merchant: string): (r: Result<Option<FraudAlert>>)
    ensures var key := RiskKey(userId, merchant);
      && (r == Ok(None) <==> key !in store)
      && (r.Ok? && r.value.Some? ==> key in store && store[key] == AlertJson(r.value.value))
      && (r.Err? <==> key in store && !store[key].AlertJson?)
      && (r.Err? ==> r.error == NotAnAlert)
  {
    var key := RiskKey(userId, merchant);
    if key !in store then Ok(None)
    else match DecodeAlert(store[key])
      case Some(a) => Ok(Some(a))
      case None => Err(NotAnAlert)
  }

  /** The result of GetUserStats against a reachable store: zeros for a
      missing key, the stored pair for a stats value, and a parse error for
      any other value. */
  function StatsRead(store: map<string, Value>, userId: string): (r: Result<(int, int)>)
    ensures var key := StatsKey(userId);
      && (key !in store ==> r == Ok((0, 0)))
      && (r.Ok? <==> key !in store || store[key].Stats?)
      && (key in store && store[key].Stats? ==> r.value == (store[key].maxAmount, store[key].avgAmount))
      && (r.Err? ==> r.error == NotStats)
  {
    var key := StatsKey(userId);
    if key !in store then Ok((0, 0))
    else match store[key]
      case Stats(mx, avg) => Ok((mx, avg))
      case _ => Err(NotStats)
  }

  /** A value written by SetRiskCache is read back by GetRiskCache. */
  lemma RiskCacheRoundTrip(store: map<string, Value>, userId: string, merchant: string, alert: FraudAlert)
    ensures RiskCacheRead(store[RiskKey(userId, merchant) := AlertJson(alert)], userId, merchant) == Ok(Some(alert))
  {
  }

  /** Caching the verdict for one (user, merchant) leaves the entry of every
      other pair alone, for colon-free user ids. */
  lemma RiskCacheIsolation(store: map<string, Value>, u: string, m: string, v: Value, u': string, m': string)
    requires ':' !in u && ':' !in u'
    requires (u, m) != (u', m')
    ensures RiskCacheRead(store[RiskKey(u, m) := v], u', m') == RiskCacheRead(store, u', m')
  {
    if RiskKey(u, m) == RiskKey(u', m') {
      RiskKeyInjective(u, m, u', m');
    }
  }

  /** A value written by SetUserStats is read back by GetUserStats; a missing
      entry reads as zeros. */
  lemma StatsRoundTrip(store: map<string, Value>, userId: string, mx: int, avg: int)
    ensures StatsRead(store[StatsKey(userId) := Stats(mx, avg)], userId) == Ok((mx, avg))
    ensures StatsKey(userId) !in store ==> StatsRead(store, userId) == Ok((0, 0))
  {
  }

  // ---------------------------------------------------------------------
  // SCAN: the replies of the cursor conversation, in order

  /** One SCAN reply: a batch of keys and the next cursor, or an error. */
  datatype ScanReply = Batch(keys: seq<string>, cursor: nat) | ScanFailed(error: string)

  predicate Stops(r: ScanReply) {
    r.ScanFailed? || r.cursor == 0
  }

  /** The conversation ends: some reply has cursor 0 or is an error. */
  predicate Finished(replies: seq<ScanReply>) {
    |replies| > 0 && (Stops(replies[0]) || Finished(replies[1..]))
  }

  function AddTo(count: int, r: Result<int>): Result<int> {
    match r
    case Ok(n) => Ok(count + n)
    case Err(e) => Err(e)
  }

  /** The reply of the loop in GetVelocity: the sum of the batch sizes up to
      the reply with cursor 0, or the error of the first failed reply, before
      which every reply was a batch with more to come. */
  function ScanCount(replies: seq<ScanReply>): (r: Result<int>)
    requires Finished(replies)
    ensures r.Ok? ==> r.value >= 0
    ensures r.Err? ==>
      exists i :: 0 <= i < |replies|
        && replies[i] == ScanFailed(r.error)
        && forall j :: 0 <= j < i ==> !Stops(replies[j])
  {
    match replies[0]
    case ScanFailed(e) => Err(e)
    case Batch(keys, cursor) =>
      if cursor == 0 then Ok(|keys|)
      else
        var rest := ScanCount(replies[1..]);
        assert forall i :: 1 <= i < |replies| ==> replies[i] == replies[1..][i - 1];
        AddTo(|keys|, rest)
  }

  /** The keys the conversation enumerates, in order. */
  function ScannedKeys(replies: seq<ScanReply>): seq<string>
    requires Finished(replies)
  {
    match replies[0]
    case ScanFailed(_) => []
    case Batch(keys, cursor) =>
      if cursor == 0 then keys else keys + ScannedKeys(replies[1..])
  }

  predicate Distinct(s: seq<string>) {
    forall i, j :: 0 <= i < j < |s| ==> s[i] != s[j]
  }

  /** The conversation enumerates exactly `keys`, each once, whenever it
      completes. */
  ghost predicate ScanEnumerates(replies: seq<ScanReply>, keys: set<string>)
    requires Finished(replies)
  {
    ScanCount(replies).Ok? ==>
      Distinct(ScannedKeys(replies)) && (set k | k in ScannedKeys(replies)) == keys
  }

  lemma {:induction false} ScanCountIsScannedLength(replies: seq<ScanReply>)
    requires Finished(replies)
    ensures ScanCount(replies).Ok? ==> ScanCount(replies).value == |ScannedKeys(replies)|
  {
    match replies[0]
    case ScanFailed(_) =>
    case Batch(keys, cursor) =>
      if cursor != 0 {
        ScanCountIsScannedLength(replies[1..]);
      }
  }

  lemma {:induction false} DistinctCardinality(s: seq<string>)
    requires Distinct(s)
    ensures |set k | k in s| == |s|
  {
    if s != [] {
      var tail := s[1..];
      assert Distinct(tail) by {
        forall i, j | 0 <= i < j < |tail| ensures tail[i] != tail[j] {
          assert tail[i] == s[i + 1] && tail[j] == s[j + 1];
        }
      }
      DistinctCardinality(tail);
      assert (set k | k in s) == {s[0]} + (set k | k in tail);
      assert s[0] !in (set k | k in tail) by {
        forall i | 0 <= i < |tail| ensures tail[i] != s[0] {
          assert tail[i] == s[i + 1];
        }
      }
    }
  }

  /** A completed scan that enumerates each matching key once counts the
      matching keys. */
  lemma ScanCountsKeys(replies: seq<ScanReply>, keys: set<string>)
    requires Finished(replies)
    requires ScanEnumerates(replies, keys)
    ensures ScanCount(replies).Ok? ==> ScanCount(replies).value == |keys|
  {
    if ScanCount(replies).Ok? {
      ScanCountIsScannedLength(replies);
      DistinctCardinality(ScannedKeys(replies));
    }
  }

  /** Writing a user's velocity key adds exactly that key to the keys the
      user's pattern selects. */
  lemma VelocityKeysAfterWrite(store: map<string, Value>, userId: string, location: string, v: Value)
    ensures VelocityKeys(store[VelocityKey(userId, location) := v], userId)
         == VelocityKeys(store, userId) + {VelocityKey(userId, location)}
  {
  }

  /** Another increment at a location already counted does not raise the
      user's velocity; an increment at a new location raises it by one. */
  lemma VelocityCountsLocations(store: map<string, Value>, userId: string, location: string, v: Value)
    ensures VelocityKey(userId, location) in store ==>
      |VelocityKeys(store[VelocityKey(userId, location) := v], userId)| == |VelocityKeys(store, userId)|
    ensures VelocityKey(userId, location) !in store ==>
      |VelocityKeys(store[VelocityKey(userId, location) := v], userId)| == |VelocityKeys(store, userId)| + 1
  {
    VelocityKeysAfterWrite(store, userId, location, v);
  }

  // ---------------------------------------------------------------------
  // The store

  /** A Redis server: its keys and the TTL last set on each. */
  class Redis {
    var store: map<string, Value>
    var ttl: map<string, nat>

    constructor ()
      ensures store == map[] && ttl == map[]
    {
      store := map[];
      ttl := map[];
    }

    /** GET key; `netErr` is the outcome of the round trip. */
    method Get(key: string, netErr: Option<string>) returns (r: GetReply)
      ensures netErr.Some? ==> r == Failed(netErr.value)
      ensures netErr.None? && key in store ==> r == Hit(store[key])
      ensures netErr.None? && key !in store ==> r == Miss
    {
      if netErr.Some? {
        r := Failed(netErr.value);
      } else if key in store {
        r := Hit(store[key]);
      } else {
        r := Miss;
      }
    }

    /** SET key value EX seconds. */
    method Set(key: string, v: Value, seconds: nat, netErr: Option<string>) returns (r: Outcome)
      modifies this
      ensures netErr.Some? ==> r == Fail(netErr.value) && store == old(store) && ttl == old(ttl)
      ensures netErr.None? ==> r == Pass && store == old(store)[key := v] && ttl == old(ttl)[key := seconds]
    {
      if netErr.Some? {
        r := Fail(netErr.value);
      } else {
        store := store[key := v];
        ttl := ttl[key := seconds];
        r := Pass;
      }
    }
  }

  /** RedisRepository: the cache adapter over a shared Redis client. */
  class RedisRepository {
    const rdb: Redis

    constructor (rdb: Redis)
      ensures this.rdb == rdb
    {
      this.rdb := rdb;
    }

    /** GetVelocity: count the keys matching `velocity:<user>:*` over the
        SCAN cursor loop; any error discards the partial count. */
    method GetVelocity(userId: string, replies: seq<ScanReply>) returns (r: Result<int>)
      requires Finished(replies)
      ensures r == ScanCount(replies)
      ensures ScanEnumerates(replies, VelocityKeys(rdb.store, userId)) && r.Ok? ==>
        r.value == |VelocityKeys(rdb.store, userId)|
    {
      var i := 0;
      var count := 0;
      while true
        invariant 0 <= i <= |replies|
        invariant Finished(replies[i..])
        invariant ScanCount(replies) == AddTo(count, ScanCount(replies[i..]))
        decreases |replies| - i
      {
        match replies[i]
        case ScanFailed(e) =>
          r := Err(e);
          break;
        case Batch(keys, cursor) =>
          count := count + |keys|;
          if cursor == 0 {
            r := Ok(count);
            break;
          }
          assert replies[i..][1..] == replies[i + 1..];
          i := i + 1;
      }
      if ScanEnumerates(replies, VelocityKeys(rdb.store, userId)) {
        ScanCountsKeys(replies, VelocityKeys(rdb.store, userId));
      }
    }

    /** IncrementVelocity: the pipeline INCR key; EXPIRE key 60. */
    method IncrementVelocity(userId: string, location: string, netErr: Option<string>) returns (r: Outcome)
      modifies rdb
      ensures var key := VelocityKey(userId, location);
        if netErr.Some? then
          r == Fail(netErr.value) && rdb.store == old(rdb.store) && rdb.ttl == old(rdb.ttl)
        else if key !in old(rdb.store) then
          r == Pass && rdb.store == old(rdb.store)[key := Counter(1)] && rdb.ttl == old(rdb.ttl)[key := VelocityTtl]
        else if old(rdb.store)[key].Counter? then
          r == Pass && rdb.store == old(rdb.store)[key := Counter(old(rdb.store)[key].n + 1)]
          && rdb.ttl == old(rdb.ttl)[key := VelocityTtl]
        else
          r == Fail(NotAnInteger) && rdb.store == old(rdb.store) && rdb.ttl == old(rdb.ttl)[key := VelocityTtl]
    {
      var key := VelocityKey(userId, location);
      if netErr.Some? {
        return Fail(netErr.value);
      }
      if key !in rdb.store {
        rdb.store := rdb.store[key := Counter(1)];
        r := Pass;
      } else if rdb.store[key].Counter? {
        rdb.store := rdb.store[key := Counter(rdb.store[key].n + 1)];
        r := Pass;
      } else {
        r := Fail(NotAnInteger);
      }
      rdb.ttl := rdb.ttl[key := VelocityTtl];
    }

    /** GetUserStats: a missing key reads as zeros; an unparsable value is an
        error. */
    method GetUserStats(userId: string, netErr: Option<string>) returns (r: Result<(int, int)>)
      ensures netErr.Some? ==> r == Err(netErr.value)
      ensures netErr.None? ==> r == StatsRead(rdb.store, userId)
    {
      var reply := rdb.Get(StatsKey(userId), netErr);
      match reply
      case Miss => r := Ok((0, 0));
      case Failed(e) => r := Err(e);
      case Hit(v) =>
        if v.Stats? {
          r := Ok((v.maxAmount, v.avgAmount));
        } else {
          r := Err(NotStats);
        }
    }

    method SetUserStats(userId: string, maxAmount: int, avgAmount: int, netErr: Option<string>) returns (r: Outcome)
      modifies rdb
      ensures netErr.Some? ==> r == Fail(netErr.value) && rdb.store == old(rdb.store) && rdb.ttl == old(rdb.ttl)
      ensures netErr.None? ==> (r == Pass
        && rdb.store == old(rdb.store)[StatsKey(userId) := Stats(maxAmount, avgAmount)]
        && rdb.ttl == old(rdb.ttl)[StatsKey(userId) := StatsTtl])
    {
      r := rdb.Set(StatsKey(userId), Stats(maxAmount, avgAmount), StatsTtl, netErr);
    }

    /** GetRiskCache: `(nil, nil)` on a miss, an error on a store error or an
        undecodable value. */
    method GetRiskCache(userId: string, merchant: string, netErr: Option<string>) returns (r: Result<Option<FraudAlert>>)
      ensures netErr.Some? ==> r == Err(netErr.value)
      ensures netErr.None? ==> r == RiskCacheRead(rdb.store, userId, merchant)
    {
      var reply := rdb.Get(RiskKey(userId, merchant), netErr);
      match reply
      case Miss => r := Ok(None);
      case Failed(e) => r := Err(e);
      case Hit(v) =>
        var decoded := DecodeAlert(v);
        if decoded.Some? {
          r := Ok(Some(decoded.value));
        } else {
          r := Err(NotAnAlert);
        }
    }

    method SetRiskCache(userId: string, merchant: string, alert: FraudAlert, netErr: Option<string>) returns (r: Outcome)
      modifies rdb
      ensures netErr.Some? ==> r == Fail(netErr.value) && rdb.store == old(rdb.store) && rdb.ttl == old(rdb.ttl)
      ensures netErr.None? ==> (r == Pass
        && rdb.store == old(rdb.store)[RiskKey(userId, merchant) := AlertJson(alert)]
        && rdb.ttl == old(rdb.ttl)[RiskKey(userId, merchant) := RiskTtl])
    {
      r := rdb.Set(RiskKey(userId, merchant), AlertJson(alert), RiskTtl, netErr);
    }
  }
}
