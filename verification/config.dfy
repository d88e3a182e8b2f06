/** Static configuration of the Riot client: API hosts, the platform to
    region routing used by the match and account endpoints, queue ids,
    cache lifetimes and the default client settings. */
module Config {

  import opened Options

  const EuropeHost := "europe.api.riotgames.com"
  const AmericasHost := "americas.api.riotgames.com"
  const AsiaHost := "asia.api.riotgames.com"

  /** The host table, indexed by platform or region name; other names are
      not in the table (`undefined` in the source). */
  function EndpointHost(name: string): (host: Option<string>)
  {
    if name == "eun1" then Some("eun1.api.riotgames.com")
    else if name == "euw1" then Some("euw1.api.riotgames.com")
    else if name == "na1" then Some("na1.api.riotgames.com")
    else if name == "europe" then Some(EuropeHost)
    else if name == "americas" then Some(AmericasHost)
    else if name == "asia" then Some(AsiaHost)
    else None
  }

  /** The regional host serving match and account data for a platform:
      'na1' is routed to the Americas, every other platform to Europe. */
  function GetRegionalEndpoint(platform: string): (host: string)
    ensures host == AmericasHost <==> platform == "na1"
    ensures host != AmericasHost ==> host == EuropeHost
  {
    match platform
    case "eun1" => EuropeHost
    case "euw1" => EuropeHost
    case "na1" => AmericasHost
    case _ => EuropeHost
  }

  /** Routing only ever lands on a regional host of the table, never on a
      platform host, and never on Asia. */
  lemma RegionalEndpointIsRegional(platform: string)
    ensures Some(GetRegionalEndpoint(platform)) == EndpointHost("europe")
         || Some(GetRegionalEndpoint(platform)) == EndpointHost("americas")
    ensures GetRegionalEndpoint(platform) != AsiaHost
  {
  }

  /** The queues the client knows by name. */
  datatype Queue = RankedSolo | RankedFlex | NormalDraft | NormalBlind | Aram

  function QueueId(q: Queue): (id: int)
    ensures 400 <= id <= 450
  {
    match q
    case RankedSolo => 420
    case RankedFlex => 440
    case NormalDraft => 400
    case NormalBlind => 430
    case Aram => 450
  }

  /** The queue a numeric id names, if any. */
  function QueueOf(id: int): (q: Option<Queue>)
    ensures q.Some? ==> QueueId(q.value) == id
  {
    if id == 420 then Some(RankedSolo)
    else if id == 440 then Some(RankedFlex)
    else if id == 400 then Some(NormalDraft)
    else if id == 430 then Some(NormalBlind)
    else if id == 450 then Some(Aram)
    else None
  }

  /** Queue ids are distinct: every queue is recovered from its id. */
  lemma QueueIdRoundTrip(q: Queue)
    ensures QueueOf(QueueId(q)) == Some(q)
  {
  }

  /** Cache lifetimes in seconds. */
  const SummonerTtl := 3600
  const MatchTtl := 1800
  const MatchHistoryTtl := 300
  const RankTtl := 600

  /** Long-lived identities outlast matches, which outlast rank data, which
      outlasts the quickly changing match list. */
  lemma CacheDurationsOrdered()
    ensures SummonerTtl > MatchTtl > RankTtl > MatchHistoryTtl > 0
  {
  }

  /** The client settings. */
  datatype RiotConfig = RiotConfig(apiKey: string, region: string, retriesBeforeAbort: nat, delayBeforeRetry: nat)

  /** The default settings, read from the RIOT_API_KEY environment variable
      (`process.env.RIOT_API_KEY || ''`). */
  function DefaultConfig(envApiKey: Option<string>): (c: RiotConfig)
    ensures c.region == "eun1"
    ensures c.apiKey == OrElse(envApiKey, "")
    ensures envApiKey.None? ==> c.apiKey == ""
    ensures c.retriesBeforeAbort == 3 && c.delayBeforeRetry == 1000
  {
    RiotConfig(OrElse(envApiKey, ""), "eun1", 3, 1000)
  }

  /** The default region is a platform of the host table and routes to
      Europe. */
  lemma DefaultRegionRouting(envApiKey: Option<string>)
    ensures EndpointHost(DefaultConfig(envApiKey).region).Some?
    ensures GetRegionalEndpoint(DefaultConfig(envApiKey).region) == EuropeHost
  {
  }
}
