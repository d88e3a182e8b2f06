/** The Riot API client's request policy: cache first, a rate-limited HTTP
    call otherwise, successful responses cached, failures classified by HTTP
    status. The rate limiter and the HTTP transport are an oracle: the
    outcome the call would have, supplied by the caller. */
module Client {

  import opened Options
  import opened Text
  import opened Seqs
  import opened Cache
  import opened Config
  import opened RiotTypes

  /** What the rate-limited HTTP call produced: a response body, an error
      carrying an HTTP status, or an error with no response at all (timeout,
      network failure). */
  datatype HttpOutcome<T> = Response(data: T) | HttpError(status: int) | NoResponse

  /** The error a request raises. */
  datatype Failure =
    | RateLimitExceeded               // 'Rate limit exceeded'
    | ServerError(status: int)        // 'Riot API server error: <status>'
    | Rethrown(cause: Option<int>)    // the transport's own error, passed on

  /** A call that either completes with a value or raises. */
  datatype Attempt<T> = Done(value: T) | Raised(failure: Failure)

  /** The result of one request, the cache it leaves, and whether the HTTP
      call was made. */
  datatype Request<T> = Request(result: Attempt<Option<T>>, store: Store<T>, calledApi: bool)

  /** Classification of a failed call, in the order the source tests it:
      404 gives null, 429 a rate-limit error, 500 and above a server error
      with the status, anything else (including no response) is rethrown. */
  function Classify<T>(status: Option<int>): (r: Attempt<Option<T>>)
    ensures status == Some(404) <==> r == Done(None)
    ensures r.Done? ==> r.value.None?
    ensures status == Some(429) <==> r == Raised(RateLimitExceeded)
    ensures r.Raised? && r.failure.ServerError? <==> status.Some? && status.value >= 500
    ensures r.Raised? && r.failure.ServerError? ==> r.failure.status == status.value
    ensures r.Raised? && r.failure.Rethrown? <==>
      status.None? || (status.value != 404 && status.value != 429 && status.value < 500)
    ensures r.Raised? && r.failure.Rethrown? ==> r.failure.cause == status
  {
    if status == Some(404) then Done(None)
    else if status == Some(429) then Raised(RateLimitExceeded)
    else if status.Some? && status.value >= 500 then Raised(ServerError(status.value))
    else Raised(Rethrown(status))
  }

  /** A cache hit: a live entry whose value is truthy. */
  predicate Hit<T>(c: Store<T>, key: string, now: int, truthy: T -> bool)
  {
    Live(c, key, now) && truthy(c[key].data)
  }

  /** `makeRequest(url, cacheKey, cacheDuration)`. */
  function MakeRequest<T>(c: Store<T>, key: string, ttl: int, now: int, truthy: T -> bool, call: HttpOutcome<T>): (r: Request<T>)
    ensures Hit(c, key, now, truthy) ==> r == Request(Done(Some(c[key].data)), c, false)
    ensures !Hit(c, key, now, truthy) ==> r.calledApi
    ensures !Hit(c, key, now, truthy) && call.Response? ==>
      r.result == Done(Some(call.data))
      && r.store == Set(Get(c, key, now).store, key, call.data, Some(ttl), now)
    ensures !Hit(c, key, now, truthy) && !call.Response? ==>
      r.store == Get(c, key, now).store
      && r.result == Classify(if call.HttpError? then Some(call.status) else None)
  {
    var lookup := Get(c, key, now);
    if lookup.value.Some? && truthy(lookup.value.value) then
      Request(Done(Some(lookup.value.value)), lookup.store, false)
    else
      match call
      case Response(data) => Request(Done(Some(data)), Set(lookup.store, key, data, Some(ttl), now), true)
      case HttpError(status) => Request(Classify(Some(status)), lookup.store, true)
      case NoResponse => Request(Classify(None), lookup.store, true)
  }

  /** Only success writes: on every path that does not return fresh data,
      no key gains or changes an entry. */
  lemma FailuresNeverCache<T>(c: Store<T>, key: string, ttl: int, now: int, truthy: T -> bool, call: HttpOutcome<T>)
    requires !call.Response?
    ensures var r := MakeRequest(c, key, ttl, now, truthy, call);
      forall k :: k in r.store ==> k in c && r.store[k] == c[k]
  {
  }

  /** A response fetched from the API is served from the cache afterwards:
      asking again for the same key before the ttl runs out returns the same
      data without calling the API, whatever the API would have answered. */
  lemma RequestThenHit<T>(c: Store<T>, key: string, ttl: int, t0: int, now: int, truthy: T -> bool, data: T, second: HttpOutcome<T>)
    requires ttl >= 0 && t0 <= now < t0 + ttl * 1000
    requires truthy(data)
    requires !Hit(c, key, t0, truthy)
    ensures var first := MakeRequest(c, key, ttl, t0, truthy, Response(data));
      first.result == Done(Some(data))
      && MakeRequest(first.store, key, ttl, now, truthy, second) == Request(Done(Some(data)), first.store, false)
  {
    SetEffect(Get(c, key, t0).store, key, data, Some(ttl), t0);
  }

  /** Options of the match-history request. `kind` is the `type` option. */
  datatype HistoryOptions = HistoryOptions(queue: Option<int>, kind: Option<string>, start: Option<int>, count: Option<int>)

  /** JavaScript truthiness of an optional number: present and non-zero. */
  predicate NumTruthy(x: Option<int>)
  {
    x.Some? && x.value != 0
  }

  /** The (name, value) parameters appended, in order, for the truthy
      options. */
  function QueryParams(o: HistoryOptions): (ps: seq<(string, string)>)
    ensures |ps| <= 4
  {
    (if NumTruthy(o.queue) then [("queue", IntToString(o.queue.value))] else [])
    + (if Truthy(o.kind) then [("type", o.kind.value)] else [])
    + (if NumTruthy(o.start) then [("start", IntToString(o.start.value))] else [])
    + (if NumTruthy(o.count) then [("count", IntToString(o.count.value))] else [])
  }

  function Pieces(ps: seq<(string, string)>): (pieces: seq<string>)
    ensures |pieces| == |ps|
  {
    seq(|ps|, i requires 0 <= i < |ps| => ps[i].0 + "=" + ps[i].1)
  }

  /** `URLSearchParams.toString()` for the parameters (values are used as
      given; percent-encoding is not modelled). */
  function QueryString(o: HistoryOptions): string
  {
    Join(Pieces(QueryParams(o)), '&')
  }

  /** Splits "name=value" at its first '='. */
  function Pair(piece: string): (string, string)
  {
    var parts := Split(piece, '=');
    (parts[0], Join(parts[1..], '='))
  }

  /** The parameters a query string carries. */
  function DecodeQuery(q: string): seq<(string, string)>
  {
    if q == "" then [] else
      var pieces := Split(q, '&');
      seq(|pieces|, i requires 0 <= i < |pieces| => Pair(pieces[i]))
  }

  /** Only `start` and `count` options can be zero or empty; the `type` option
      must not itself hold a separator for the string to read back. */
  predicate PlainKind(o: HistoryOptions)
  {
    o.kind.Some? ==> '&' !in o.kind.value && '=' !in o.kind.value
  }

  lemma IntToStringPlain(i: int)
    ensures '&' !in IntToString(i) && '=' !in IntToString(i)
  {
    var s := IntToString(i);
    var ds := NatToString(if i < 0 then -i else i);
    assert s == (if i < 0 then "-" + ds else ds);
    forall j | 0 <= j < |ds|
      ensures ds[j] != '&' && ds[j] != '='
    {
      assert IsDigit(ds[j]);
    }
  }

  lemma PairOf(name: string, value: string)
    requires '=' !in name && '=' !in value
    ensures Pair(name + "=" + value) == (name, value)
  {
    SplitAtSep(name, '=', value);
    SplitNoSep(value, '=');
    assert name + "=" + value == name + ['='] + value;
  }

  lemma ParamsPlain(o: HistoryOptions)
    requires PlainKind(o)
    ensures forall i :: 0 <= i < |QueryParams(o)| ==>
      '&' !in QueryParams(o)[i].0 && '=' !in QueryParams(o)[i].0
      && '&' !in QueryParams(o)[i].1 && '=' !in QueryParams(o)[i].1
  {
    if o.queue.Some? { IntToStringPlain(o.queue.value); }
    if o.start.Some? { IntToStringPlain(o.start.value); }
    if o.count.Some? { IntToStringPlain(o.count.value); }
  }

  /** Reading the match-history query string back gives exactly the
      parameters that were appended: nothing for a falsy option (so a start
      of 0 never appears), in the order queue, type, start, count. */
  lemma QueryStringRoundTrip(o: HistoryOptions)
    requires PlainKind(o)
    ensures DecodeQuery(QueryString(o)) == QueryParams(o)
  {
    var ps := QueryParams(o);
    var pieces := Pieces(ps);
    ParamsPlain(o);
    if |ps| == 0 {
      assert QueryString(o) == "";
    } else {
      forall i | 0 <= i < |pieces|
        ensures '&' !in pieces[i]
        ensures Pair(pieces[i]) == ps[i]
      {
        PairOf(ps[i].0, ps[i].1);
      }
      SplitJoin(pieces, '&');
    }
  }

  /** The parameter names, in order: queue, type, start, count, each
      present exactly when its option is truthy. */
  lemma QueryParamNames(o: HistoryOptions)
    ensures var ps := QueryParams(o);
      seq(|ps|, i requires 0 <= i < |ps| => ps[i].0) ==
        (if NumTruthy(o.queue) then ["queue"] else [])
        + (if Truthy(o.kind) then ["type"] else [])
        + (if NumTruthy(o.start) then ["start"] else [])
        + (if NumTruthy(o.count) then ["count"] else [])
  {
  }

  /** The client's endpoints with their arguments. */
  datatype Endpoint =
    | SummonerByPuuid(puuid: string)
    | AccountByRiotId(gameName: string, tagLine: string)
    | MatchHistory(historyPuuid: string, options: HistoryOptions)
    | MatchById(matchId: string)
    | RankedBySummoner(summonerId: string)
    | HealthCheck

  /** The cache key each endpoint reads and writes. */
  function CacheKey(e: Endpoint): string
  {
    match e
    case SummonerByPuuid(puuid) => GenerateKey("summoner", puuid, None)
    case AccountByRiotId(name, tag) => GenerateKey("account", name + "#" + tag, None)
    case MatchHistory(puuid, o) => GenerateKey("matchlist", puuid, Some(QueryString(o)))
    case MatchById(id) => GenerateKey("match", id, None)
    case RankedBySummoner(id) => GenerateKey("ranked", id, None)
    case HealthCheck => "health-check"
  }

  /** The namespace word of an endpoint's key. */
  function KindName(e: Endpoint): string
  {
    match e
    case SummonerByPuuid(_) => "summoner"
    case AccountByRiotId(_, _) => "account"
    case MatchHistory(_, _) => "matchlist"
    case MatchById(_) => "match"
    case RankedBySummoner(_) => "ranked"
    case HealthCheck => "health-check"
  }

  /** The identifier and extra a generated key carries. */
  function KeyIdentifier(e: Endpoint): string
  {
    match e
    case SummonerByPuuid(puuid) => puuid
    case AccountByRiotId(name, tag) => name + "#" + tag
    case MatchHistory(puuid, _) => puuid
    case MatchById(id) => id
    case RankedBySummoner(id) => id
    case HealthCheck => ""
  }

  function KeyExtra(e: Endpoint): Option<string>
  {
    if e.MatchHistory? then Some(QueryString(e.options)) else None
  }

  /** Cache lifetime, in seconds, of each endpoint's responses. */
  function TtlOf(e: Endpoint): (ttl: int)
    ensures ttl > 0
    ensures e.SummonerByPuuid? || e.AccountByRiotId? <==> ttl == SummonerTtl
    ensures e.MatchHistory? <==> ttl == MatchHistoryTtl
    ensures e.MatchById? <==> ttl == MatchTtl
    ensures e.RankedBySummoner? <==> ttl == RankTtl
    ensures e.HealthCheck? <==> ttl == 60
  {
    match e
    case SummonerByPuuid(_) => SummonerTtl
    case AccountByRiotId(_, _) => SummonerTtl
    case MatchHistory(_, _) => MatchHistoryTtl
    case MatchById(_) => MatchTtl
    case RankedBySummoner(_) => RankTtl
    case HealthCheck => 60
  }

  /** The host an endpoint calls for the configured region: match, match
      list and account data go through the regional routing, the others
      through the platform's own entry of the host table. */
  function HostOf(e: Endpoint, region: string): (host: Option<string>)
    ensures e.AccountByRiotId? || e.MatchHistory? || e.MatchById? ==> host == Some(GetRegionalEndpoint(region))
    ensures e.SummonerByPuuid? || e.RankedBySummoner? || e.HealthCheck? ==> host == EndpointHost(region)
  {
    if e.AccountByRiotId? || e.MatchHistory? || e.MatchById? then Some(GetRegionalEndpoint(region))
    else EndpointHost(region)
  }

  /** The colon-free condition under which keys read back. */
  predicate PlainEndpoint(e: Endpoint)
  {
    NoColon(KeyIdentifier(e)) && (e.MatchHistory? ==> NoColon(QueryString(e.options)))
  }

  /** Every key but the health check's is "lol-coach:<kind>:<identifier>"
      (plus the query for a match list), so it splits back into its parts. */
  lemma CacheKeyParts(e: Endpoint)
    requires !e.HealthCheck? && PlainEndpoint(e)
    ensures Split(CacheKey(e), ':') == KeyParts(KindName(e), KeyIdentifier(e), KeyExtra(e))
  {
    assert NoColon(KindName(e));
    GenerateKeySplit(KindName(e), KeyIdentifier(e), KeyExtra(e));
  }

  /** Endpoints of different kinds never share a cache entry, and two
      requests to the same endpoint share one only when their arguments
      agree. */
  lemma CacheKeysSeparate(e1: Endpoint, e2: Endpoint)
    requires PlainEndpoint(e1) && PlainEndpoint(e2)
    requires CacheKey(e1) == CacheKey(e2)
    ensures KindName(e1) == KindName(e2)
    ensures KeyIdentifier(e1) == KeyIdentifier(e2)
  {
    KeyOfEndpoint(e1);
    KeyOfEndpoint(e2);
    if !e1.HealthCheck? && !e2.HealthCheck? {
      GenerateKeyInjective(KindName(e1), KeyIdentifier(e1), KeyExtra(e1), KindName(e2), KeyIdentifier(e2), KeyExtra(e2));
    }
  }

  /** Every endpoint but the health check keys by its kind, identifier and
      extra, under a colon-free kind; the health check's key is no
      generated key. */
  lemma KeyOfEndpoint(e: Endpoint)
    ensures !e.HealthCheck? ==>
      NoColon(KindName(e)) && CacheKey(e) == GenerateKey(KindName(e), KeyIdentifier(e), KeyExtra(e))
    ensures e.HealthCheck? <==> CacheKey(e) == "health-check"
  {
    if !e.HealthCheck? {
      GeneratedNotHealth(KindName(e), KeyIdentifier(e), KeyExtra(e));
    }
  }

  /** A generated key starts with the prefix, so it is never the health
      check's key. */
  lemma GeneratedNotHealth(kind: string, identifier: string, extra: Option<string>)
    ensures GenerateKey(kind, identifier, extra) != "health-check"
  {
    assert GenerateKey(kind, identifier, extra)[0] == 'l';
  }

  /** A request to an endpoint: `makeRequest` with its key and ttl. */
  function Fetch<T>(c: Store<T>, e: Endpoint, now: int, truthy: T -> bool, call: HttpOutcome<T>): (r: Request<T>)
    ensures !Hit(c, CacheKey(e), now, truthy) && call.Response? && TtlOf(e) >= 0 ==>
      CacheKey(e) in r.store && r.store[CacheKey(e)] == Entry(call.data, now + TtlOf(e) * 1000)
  {
    var r := MakeRequest(c, CacheKey(e), TtlOf(e), now, truthy, call);
    if call.Response? then
      SetEffect(Get(c, CacheKey(e), now).store, CacheKey(e), call.data, Some(TtlOf(e)), now);
      r
    else r
  }

  /** `healthCheck`: true unless the request raises. A 404 reads as healthy. */
  function Health<T>(c: Store<T>, now: int, truthy: T -> bool, call: HttpOutcome<T>): (r: (bool, Store<T>))
    ensures r.0 <==> Hit(c, "health-check", now, truthy) || call.Response? || call == HttpError(404)
    ensures r.1 == Fetch(c, HealthCheck, now, truthy, call).store
  {
    var req := Fetch(c, HealthCheck, now, truthy, call);
    (req.result.Done?, req.store)
  }

  /** Number of match requests issued together. */
  const BatchSize: nat := 5

  /** All requests of `ids` complete. */
  predicate AllDone(ids: seq<string>, getMatch: string -> Attempt<Option<MatchData>>)
  {
    forall i :: 0 <= i < |ids| ==> getMatch(ids[i]).Done?
  }

  /** `getMatches`: the ids in batches of five, each batch awaited as a
      whole (`Promise.all`), with a pause between consecutive batches.
      `getMatch` is the outcome of `getMatch(id)`. The first failing request,
      by position, fails the whole call, and no later batch is issued.
      Returns the outcome, the number of requests issued and the number of
      pauses taken. */
  method GetMatches(ids: seq<string>, getMatch: string -> Attempt<Option<MatchData>>)
    returns (r: Attempt<seq<Option<MatchData>>>, issued: nat, pauses: nat)
    ensures AllDone(ids, getMatch) ==>
      r.Done? && |r.value| == |ids| && issued == |ids|
      && (forall i :: 0 <= i < |ids| ==> r.value[i] == getMatch(ids[i]).value)
      && pauses == (if |ids| == 0 then 0 else |Chunks(ids, BatchSize)| - 1)
    ensures !AllDone(ids, getMatch) ==>
      exists f :: 0 <= f < |ids| && getMatch(ids[f]).Raised?
        && (forall j :: 0 <= j < f ==> getMatch(ids[j]).Done?)
        && r == Raised(getMatch(ids[f]).failure)
        && issued == Min(|ids|, (f / BatchSize + 1) * BatchSize)
  {
    var batches := Chunks(ids, BatchSize);
    var results: seq<Option<MatchData>> := [];
    var b := 0;
    pauses := 0;
    issued := 0;
    while b < |batches|
      invariant 0 <= b <= |batches|
      invariant b < |batches| ==> b * BatchSize < |ids|
      invariant issued == Min(b * BatchSize, |ids|)
      invariant ResultsUpTo(ids, getMatch, results, issued)
      invariant pauses == (if b == 0 then 0 else if b < |batches| then b else b - 1)
      invariant b > 0 && b < |batches| ==> issued == b * BatchSize
    {
      var k := b * BatchSize;
      ChunkAt(ids, BatchSize, b, k);
      var batch := batches[b];
      var hi := Min(k + BatchSize, |ids|);
      assert batch == ids[k .. hi];
      // the batch's outcomes, awaited together
      var j := FirstRaised(batch, getMatch);
      if j < |batch| {
        r := Raised(getMatch(batch[j]).failure);
        issued := hi;
        FailureInBatch(ids, getMatch, b, batch, j);
        return;
      }
      BatchExtends(ids, getMatch, results, k, hi);
      results := results + BatchValues(batch, getMatch);
      issued := hi;
      ChunkExists(ids, BatchSize, b + 1);
      if k + BatchSize < |ids| {
        pauses := pauses + 1;
      }
      b := b + 1;
    }
    r := Done(results);
    if |ids| > 0 {
      ChunkExists(ids, BatchSize, |batches|);
    }
  }

  /** The values of a batch whose requests all complete, in order. */
  function BatchValues(batch: seq<string>, getMatch: string -> Attempt<Option<MatchData>>): (r: seq<Option<MatchData>>)
    requires forall m :: 0 <= m < |batch| ==> getMatch(batch[m]).Done?
    ensures |r| == |batch|
    ensures forall m :: 0 <= m < |batch| ==> r[m] == getMatch(batch[m]).value
  {
    seq(|batch|, m requires 0 <= m < |batch| => getMatch(batch[m]).value)
  }

  /** The first `n` requests completed and `results` holds their values. */
  predicate ResultsUpTo(ids: seq<string>, getMatch: string -> Attempt<Option<MatchData>>,
                        results: seq<Option<MatchData>>, n: nat)
  {
    n <= |ids| && |results| == n
    && forall i :: 0 <= i < n ==> getMatch(ids[i]).Done? && results[i] == getMatch(ids[i]).value
  }

  /** A completed batch extends the collected values. */
  lemma BatchExtends(ids: seq<string>, getMatch: string -> Attempt<Option<MatchData>>,
                     results: seq<Option<MatchData>>, k: nat, hi: nat)
    requires ResultsUpTo(ids, getMatch, results, k)
    requires k <= hi <= |ids|
    requires forall m :: 0 <= m < |ids[k .. hi]| ==> getMatch(ids[k .. hi][m]).Done?
    ensures ResultsUpTo(ids, getMatch, results + BatchValues(ids[k .. hi], getMatch), hi)
  {
    var batch := ids[k .. hi];
    var r := results + BatchValues(batch, getMatch);
    forall i | 0 <= i < hi
      ensures getMatch(ids[i]).Done? && r[i] == getMatch(ids[i]).value
    {
      if i >= k {
        assert ids[i] == batch[i - k];
      }
    }
  }

  /** The position of the first request of a batch that raises, or the
      batch's length when all complete. */
  method FirstRaised(batch: seq<string>, getMatch: string -> Attempt<Option<MatchData>>) returns (j: nat)
    ensures j <= |batch|
    ensures forall m :: 0 <= m < j ==> getMatch(batch[m]).Done?
    ensures j < |batch| ==> getMatch(batch[j]).Raised?
  {
    j := 0;
    while j < |batch| && getMatch(batch[j]).Done?
      invariant 0 <= j <= |batch|
      invariant forall m :: 0 <= m < j ==> getMatch(batch[m]).Done?
    {
      j := j + 1;
    }
  }

  /** A request that raises in batch `b`, after every earlier request
      completed, is the first failure by position. */
  lemma FailureInBatch(ids: seq<string>, getMatch: string -> Attempt<Option<MatchData>>, b: nat,
                       batch: seq<string>, j: nat)
    requires b * BatchSize < |ids|
    requires batch == ids[b * BatchSize .. Min(b * BatchSize + BatchSize, |ids|)]
    requires forall i :: 0 <= i < b * BatchSize ==> getMatch(ids[i]).Done?
    requires j < |batch| && getMatch(batch[j]).Raised?
    requires forall m :: 0 <= m < j ==> getMatch(batch[m]).Done?
    ensures var f := b * BatchSize + j;
      f < |ids| && getMatch(ids[f]).Raised? && f / BatchSize == b
      && (forall m :: 0 <= m < f ==> getMatch(ids[m]).Done?)
      && getMatch(ids[f]).failure == getMatch(batch[j]).failure
  {
    var k := b * BatchSize;
    assert ids[k + j] == batch[j];
    forall m | 0 <= m < k + j
      ensures getMatch(ids[m]).Done?
    {
      if m >= k {
        assert ids[m] == batch[m - k];
      }
    }
  }
}
