/** The response cache in its in-memory mode: a map from key to (value,
    expiry time in milliseconds). The clock is an explicit `now` argument.
    Expired entries are dropped lazily by `get`, and in bulk by a sweep that
    runs when a write leaves more than 100 entries. */
module Cache {

  import opened Options
  import opened Text

  datatype Entry<V> = Entry(data: V, expiry: int)

  type Store<V> = map<string, Entry<V>>

  /** A write that leaves more than this many entries triggers a sweep. */
  const SweepThreshold := 100

  /** Lifetime in seconds when the caller gives none. */
  const DefaultTtl := 300

  /** What `get` returns, and the store it leaves behind. */
  datatype Lookup<V> = Lookup(value: Option<V>, store: Store<V>)

  /** An entry is live while its expiry lies strictly in the future. */
  predicate Live<V>(c: Store<V>, key: string, now: int)
  {
    key in c && c[key].expiry > now
  }

  /** `get`: the stored value while live; otherwise the key is deleted and
      nothing is returned. */
  function Get<V>(c: Store<V>, key: string, now: int): (r: Lookup<V>)
    ensures r.value.Some? <==> Live(c, key, now)
    ensures r.value.Some? ==> r.value.value == c[key].data && r.store == c
    ensures r.value.None? ==> r.store == c - {key}
  {
    if key in c && c[key].expiry > now then Lookup(Some(c[key].data), c)
    else Lookup(None, c - {key})
  }

  /** The sweep: drops exactly the entries whose expiry is strictly before
      `now`. An entry expiring at `now` itself survives. */
  function Sweep<V>(c: Store<V>, now: int): (r: Store<V>)
    ensures forall k :: k in r <==> k in c && c[k].expiry >= now
    ensures forall k :: k in r ==> r[k] == c[k]
  {
    map k | k in c && c[k].expiry >= now :: c[k]
  }

  /** The ttl actually used by `set`: the given one, or 300 seconds. */
  function TtlOrDefault(ttlSeconds: Option<int>): (t: int)
    ensures ttlSeconds.None? ==> t == DefaultTtl
    ensures ttlSeconds.Some? ==> t == ttlSeconds.value
  {
    ttlSeconds.GetOr(DefaultTtl)
  }

  /** `set`: stores the value with expiry now + ttl*1000, replacing any
      earlier entry for the key, then sweeps if more than 100 entries remain. */
  function Set<V>(c: Store<V>, key: string, value: V, ttlSeconds: Option<int>, now: int): (r: Store<V>)
    ensures var e := Entry(value, now + TtlOrDefault(ttlSeconds) * 1000);
      (|c[key := e]| <= SweepThreshold ==> r == c[key := e])
      && (|c[key := e]| > SweepThreshold ==> r == Sweep(c[key := e], now))
  {
    var written := c[key := Entry(value, now + TtlOrDefault(ttlSeconds) * 1000)];
    if |written| > SweepThreshold then Sweep(written, now) else written
  }

  /** `delete`. */
  function Delete<V>(c: Store<V>, key: string): (r: Store<V>)
    ensures key !in r
    ensures forall k :: k != key ==> (k in r <==> k in c)
    ensures forall k :: k in r ==> r[k] == c[k]
  {
    c - {key}
  }

  /** `flush`. */
  function Flush<V>(c: Store<V>): (r: Store<V>)
    ensures |r| == 0
  {
    map[]
  }

  /** After `set`, the written entry is in place unless a sweep dropped it,
      which only happens to a negative ttl; every other key keeps its entry
      or loses it to the sweep. */
  lemma SetEffect<V>(c: Store<V>, key: string, value: V, ttlSeconds: Option<int>, now: int)
    ensures var r := Set(c, key, value, ttlSeconds, now);
      var expiry := now + TtlOrDefault(ttlSeconds) * 1000;
      (TtlOrDefault(ttlSeconds) >= 0 ==> key in r && r[key] == Entry(value, expiry))
      && (forall k :: k != key && k in r ==> k in c && r[k] == c[k])
      && (forall k :: k != key && k in c && c[k].expiry >= now ==> k in r)
  {
  }

  /** Round trip: after `set(k, v, ttl)` at time t0, `get(k)` at time `now`
      returns v exactly while now < t0 + ttl*1000. A negative ttl is covered
      as long as the read does not precede the write. */
  lemma SetThenGet<V>(c: Store<V>, key: string, value: V, ttlSeconds: Option<int>, t0: int, now: int)
    requires TtlOrDefault(ttlSeconds) >= 0 || now >= t0
    ensures var r := Get(Set(c, key, value, ttlSeconds, t0), key, now);
      (now < t0 + TtlOrDefault(ttlSeconds) * 1000 ==> r.value == Some(value))
      && (now >= t0 + TtlOrDefault(ttlSeconds) * 1000 ==> r.value.None?)
  {
    SetEffect(c, key, value, ttlSeconds, t0);
  }

  /** The boundary asymmetry: an entry expiring exactly now is already dead
      for `get` but still survives the sweep. */
  lemma ExpiryBoundary<V>(c: Store<V>, key: string, now: int)
    requires key in c && c[key].expiry == now
    ensures Get(c, key, now).value.None?
    ensures key in Sweep(c, now)
  {
  }

  /** The sweep is invisible to readers: at the sweep's time or later, `get`
      returns the same thing from the swept store as from the full one. */
  lemma SweepInvisible<V>(c: Store<V>, now: int, later: int, key: string)
    requires later >= now
    ensures Get(Sweep(c, now), key, later).value == Get(c, key, later).value
  {
  }

  /** `delete(k)` makes k unreadable and leaves every other read unchanged. */
  lemma DeleteThenGet<V>(c: Store<V>, key: string, other: string, now: int)
    requires other != key
    ensures Get(Delete(c, key), key, now).value.None?
    ensures Get(Delete(c, key), other, now).value == Get(c, other, now).value
  {
  }

  /** After `flush` nothing is readable. */
  lemma FlushThenGet<V>(c: Store<V>, key: string, now: int)
    ensures Get(Flush(c), key, now).value.None?
  {
  }

  const KeyPrefix := "lol-coach"

  /** `generateKey(type, identifier, extra)`: "lol-coach:type:identifier",
      followed by ":extra" only when extra is a non-empty string. */
  function GenerateKey(kind: string, identifier: string, extra: Option<string>): (key: string)
  {
    KeyPrefix + [':'] + kind + [':'] + identifier + (if Truthy(extra) then [':'] + extra.value else "")
  }

  /** The colon-separated pieces a key is built from. */
  function KeyParts(kind: string, identifier: string, extra: Option<string>): (parts: seq<string>)
    ensures |parts| >= 3
  {
    [KeyPrefix, kind, identifier] + (if Truthy(extra) then [extra.value] else [])
  }

  predicate NoColon(s: string)
  {
    ':' !in s
  }

  lemma GenerateKeyIsJoin(kind: string, identifier: string, extra: Option<string>)
    ensures GenerateKey(kind, identifier, extra) == Join(KeyParts(kind, identifier, extra), ':')
  {
    var parts := KeyParts(kind, identifier, extra);
    if Truthy(extra) {
      assert parts[1..] == [kind, identifier, extra.value];
      assert parts[1..][1..] == [identifier, extra.value];
      assert parts[1..][1..][1..] == [extra.value];
      var tail := identifier + [':'] + extra.value;
      assert Join(parts[1..][1..], ':') == tail;
      assert Join(parts[1..], ':') == kind + [':'] + tail;
      assert GenerateKey(kind, identifier, extra) == KeyPrefix + [':'] + (kind + [':'] + tail);
    } else {
      assert parts[1..] == [kind, identifier];
      assert parts[1..][1..] == [identifier];
      assert Join(parts[1..], ':') == kind + [':'] + identifier;
      assert GenerateKey(kind, identifier, extra) == KeyPrefix + [':'] + (kind + [':'] + identifier);
    }
  }

  /** Reading a key back: splitting at ':' recovers the namespace, type,
      identifier and (non-empty) extra the key was generated from, provided
      none of them contains ':'. */
  lemma GenerateKeySplit(kind: string, identifier: string, extra: Option<string>)
    requires NoColon(kind) && NoColon(identifier)
    requires extra.Some? ==> NoColon(extra.value)
    ensures Split(GenerateKey(kind, identifier, extra), ':') == KeyParts(kind, identifier, extra)
  {
    GenerateKeyIsJoin(kind, identifier, extra);
    var parts := KeyParts(kind, identifier, extra);
    assert NoColon(KeyPrefix);
    SplitJoin(parts, ':');
  }

  /** Distinct colon-free requests get distinct keys. */
  lemma GenerateKeyInjective(k1: string, i1: string, e1: Option<string>, k2: string, i2: string, e2: Option<string>)
    requires NoColon(k1) && NoColon(i1) && (e1.Some? ==> NoColon(e1.value))
    requires NoColon(k2) && NoColon(i2) && (e2.Some? ==> NoColon(e2.value))
    requires GenerateKey(k1, i1, e1) == GenerateKey(k2, i2, e2)
    ensures k1 == k2 && i1 == i2
    ensures Truthy(e1) <==> Truthy(e2)
    ensures Truthy(e1) ==> e1.value == e2.value
  {
    GenerateKeySplit(k1, i1, e1);
    GenerateKeySplit(k2, i2, e2);
    var p1 := KeyParts(k1, i1, e1);
    var p2 := KeyParts(k2, i2, e2);
    assert p1 == p2;
    assert p1[1] == k1 && p2[1] == k2;
    assert p1[2] == i1 && p2[2] == i2;
    if Truthy(e1) {
      assert p1[3] == e1.value;
    }
    if Truthy(e2) {
      assert p2[3] == e2.value;
    }
  }
}
