# lol-coaching-dashboard, modelled in Dafny

This project models the server-side core of a League of Legends jungle
coaching dashboard:

- **The Riot API layer.** The configuration (region routing, queue ids,
  cache durations), the in-memory cache and the rate-limited client. The
  client covers the cache-first request, error classification, the
  match-history query string, cache keys and the five-at-a-time batch
  fetch.
- **The match scraper.** Jungle-role detection, parsing a match into a
  jungle game, the most recent games, and the statistics overview with its
  favourite champions.
- **The analytics engine.** The eight KPIs, the coaching insights and
  their priority sort, champion performance, and performance trends over
  chunks of games.
- **The Notion side.** A schemaless page store with the select and
  rich-text filters and the `page_size` cut. Over it sit the routes that
  write to it: refresh-games, riot-webhook and sync-dates. It also carries
  both Notion helper libraries (`lib/notion.ts` and
  `lib/notion-enhanced.ts`) and the two alert routes (the Notion page
  webhook and the coaching-alerts endpoint).

Remote services are parameters.

- Every Riot or Notion answer is an oracle: a reply value or a function
  from id to reply.
- A Notion database is a `seq<Page>`. Its order stands for the order the
  service answers in.
- Clocks are `now` arguments.
- Calendar formatting is a `dayOf` or `isoOf` function parameter.

JavaScript semantics are written out where they matter:

- `parseInt` yields NaN.
- `||` defaults treat `""` and `0` as missing.
- A comparison with NaN is false.
- JSON `null` compares as 0.

Modules follow the source files:

| module | source |
|---|---|
| `Options` | helpers |
| `Text` | helpers |
| `Seqs` | helpers |
| `Sorting` | helpers |
| `RiotTypes` | `lib/riot-api/types.ts` |
| `Config` | `config.ts` |
| `Cache` | `cache.ts` |
| `Client` | `client.ts` |
| `Scraper` | `MatchScraper.ts` |
| `Champions` | champion grouping shared by the analytics engine and the scraper |
| `Analytics` | `JungleAnalytics.ts` |
| `NotionStore` | the Notion database |
| `RefreshGames` | the refresh-games route |
| `RiotWebhook` | the riot-webhook route |
| `SyncDates` | the sync-dates route |
| `NotionLib` | `lib/notion.ts` |
| `NotionEnhanced` | `lib/notion-enhanced.ts` |
| `Alerts` | both webhook alert routes |

The routes write the same database in different shapes, and several
lemmas state the consequences.

- riot-webhook writes and filters `match_id` as rich text, while
  refresh-games and sync-dates write and read it as a title. A real Notion
  database gives `match_id` one type, so one of the two sides has its
  requests rejected there. The model's store is schemaless and accepts
  both shapes. In it, the two keyings never see each other's pages
  (`RiotWebhook.DuplicateAcrossRoutes`), and sync-dates passes over a
  riot-webhook page (`SyncDates.SkipsWebhookPages`). These lemmas show the
  disagreement between the routes; the schemaless store, not the program,
  is what lets both writes succeed.
- Pages store the result as the option "Win". One reader compares it with
  "WIN"; `lib/notion.ts` passes it through unchanged (see Findings).
- `lib/notion.ts` reads a `duration_minutes` field that no route writes
  (`NotionLib.DurationNeverRecorded`).
- The two alert routes disagree on Nocturne
  (`Alerts.NocturneOnlyInWebhook`).

## Model

| member | source | states |
|---|---|---|
| Options.OrElse | lib/notion.ts:31 | `x \|\| default` on an optional string: the value when present and non-empty, otherwise the default |
| Text.KdaDeathsRoundTrip | lib/notion.ts:39 | reading deaths back with `parseInt(kda.split('/')[1] \|\| '0')` from a `kills/deaths/assists` text gives exactly the deaths written |
| Text.KdaDeathsAbsent | app/api/webhook/notion/route.ts:62 | a missing kda text reads as 0 deaths through the `'0'` default |
| Text.KdaDeathsNoSlash | lib/notion-enhanced.ts:120 | a kda text without a slash reads as 0 deaths |
| Text.ParseIntRoundTrip | app/api/refresh-games/route.ts:168 | `parseInt` of an integer's decimal text gives that integer back, negative ones included |
| Text.PieceOr | app/api/refresh-games/route.ts:168 | the `split(sep)[i] \|\| default` piece is piece i itself exactly when there is a non-empty piece i, and the default otherwise; a returned piece is free of the separator |
| Text.SplitJoin | lib/riot-api/cache.ts:111-114 | splitting a join of separator-free parts recovers the parts |
| Text.Split | app/api/refresh-games/route.ts:168 | JavaScript `split`: at least one piece, and no piece contains the separator; `Text.SplitJoin` states that it inverts a join |
| Text.ParseInt | app/api/refresh-games/route.ts:168 | contract stated by `Text.ParseIntRoundTrip`: it reads back the decimal text of any integer |
| Sorting.SortDesc | lib/analytics/JungleAnalytics.ts:295-301 | contract stated by `Sorting.SortDescCorrect` and `Sorting.SortDescStable`: JavaScript's stable `sort` with a two-key descending comparator |
| Sorting.SortDescCorrect | lib/analytics/JungleAnalytics.ts:295-301 | the sort returns a permutation of its input, ordered by the first key and then the second, both descending |
| Sorting.SortDescStable | lib/analytics/JungleAnalytics.ts:295-301 | elements tying on both keys keep their input order |
| Sorting.SortDescDistinct | lib/analytics/JungleAnalytics.ts:295-301 | entries whose keys (champion names) are pairwise distinct stay so after sorting |
| RiotTypes.ResultOf | lib/scraper/MatchScraper.ts:79 | the result is a win exactly when the participant's `win` flag is set |
| RiotTypes.ResultText | lib/scraper/MatchScraper.ts:79 | the result text is always "WIN" or "LOSS" |
| RiotTypes.FindParticipant | lib/scraper/MatchScraper.ts:62 | `find` by puuid: none exactly when no participant has the puuid, otherwise a participant with that puuid |
| RiotTypes.FindParticipantFirst | lib/scraper/MatchScraper.ts:62 | `find` returns the first participant with the puuid |
| Config.GetRegionalEndpoint | lib/riot-api/config.ts:26-36 | the Americas host exactly for `na1`, and Europe for every other platform, unknown ones included |
| Config.RegionalEndpointIsRegional | lib/riot-api/config.ts:14-36 | the match host is always one of the regional endpoints, never Asia |
| Config.QueueId | lib/riot-api/config.ts:39-45 | every queue id lies between 400 and 450 |
| Config.QueueIdRoundTrip | lib/riot-api/config.ts:39-45 | the queue table is injective: mapping an id back gives the queue |
| Config.QueueOf | lib/riot-api/config.ts:39-45 | reverse lookup agrees with the table |
| Config.CacheDurationsOrdered | lib/riot-api/config.ts:48-53 | summoner data is cached longest, then matches, then rank, then match history, all positive |
| Config.DefaultConfig | lib/riot-api/config.ts:4-11 | the default region is `eun1`, the key is the environment key or "", with 3 retries and a 1000 ms delay |
| Config.DefaultRegionRouting | lib/riot-api/config.ts:4-36 | the default region has a platform host and routes matches to Europe |
| Cache.Get | lib/riot-api/cache.ts:43-48 | a value comes back exactly for a live entry (expiry after now) and the store is unchanged; otherwise the key is dropped |
| Cache.Sweep | lib/riot-api/cache.ts:77-84 | cleaning keeps exactly the entries not yet expired, unchanged |
| Cache.TtlOrDefault | lib/riot-api/cache.ts:56 | the TTL defaults to 300 seconds |
| Cache.Set | lib/riot-api/cache.ts:56-70 | writes the entry expiring `ttl*1000` ms from now, and sweeps only when the store then holds more than 100 keys |
| Cache.SetEffect | lib/riot-api/cache.ts:62-70 | after a set, the key holds the new entry, no other key changes, and every live entry survives the sweep |
| Cache.SetThenGet | lib/riot-api/cache.ts:43-70 | a get after a set returns the value strictly before the expiry and nothing from the expiry on |
| Cache.ExpiryBoundary | lib/riot-api/cache.ts:44-84 | at the expiry instant a get misses (strict `>`) while a sweep keeps the entry (strict `<`) |
| Cache.SweepInvisible | lib/riot-api/cache.ts:43-84 | a sweep never changes what a later get returns |
| Cache.Delete | lib/riot-api/cache.ts:86-96 | removes the key and keeps every other entry |
| Cache.DeleteThenGet | lib/riot-api/cache.ts:43-96 | a get after deleting the key misses, and other keys read as before |
| Cache.Flush | lib/riot-api/cache.ts:98-108 | the store is empty |
| Cache.FlushThenGet | lib/riot-api/cache.ts:43-108 | every get misses after a flush |
| Cache.KeyParts | lib/riot-api/cache.ts:111-114 | a key has prefix, type and identifier, plus the extra part only when it is truthy |
| Cache.GenerateKeyIsJoin | lib/riot-api/cache.ts:111-114 | the key is the colon join of those parts |
| Cache.GenerateKeySplit | lib/riot-api/cache.ts:111-114 | for colon-free parts, splitting the key at colons recovers the parts |
| Cache.GenerateKeyInjective | lib/riot-api/cache.ts:111-114 | for colon-free parts, equal keys mean equal type, identifier and truthy extra |
| Cache.GenerateKey | lib/riot-api/cache.ts:111-114 | contract stated by `Cache.GenerateKeyIsJoin`, `Cache.GenerateKeySplit` and `Cache.GenerateKeyInjective`: the colon join of prefix, type, identifier and any extra, from which the parts are recovered |
| Client.Classify | lib/riot-api/client.ts:57-76 | 404 becomes null, 429 the rate-limit error, 500 and above a server error carrying the status, anything else is rethrown |
| Client.MakeRequest | lib/riot-api/client.ts:29-77 | a cache hit with truthy data returns it without a call; otherwise the API is called, a response is cached with the endpoint's TTL, and a failure leaves only the get's effect |
| Client.FailuresNeverCache | lib/riot-api/client.ts:50-76 | a failed call adds or changes no cache entry |
| Client.RequestThenHit | lib/riot-api/client.ts:29-56 | a second request within the TTL is a cache hit returning the first response |
| Client.QueryParams | lib/riot-api/client.ts:113-118 | at most four parameters |
| Client.QueryParamNames | lib/riot-api/client.ts:113-118 | the parameter names are queue, type, start, count in that order, each present exactly when its option is truthy |
| Client.QueryStringRoundTrip | lib/riot-api/client.ts:113-122 | the query string decodes back to the parameter list |
| Client.QueryString | lib/riot-api/client.ts:113-120 | contract stated by `Client.QueryStringRoundTrip`: the string decodes back to the appended parameters, in order |
| Client.ParamsPlain | lib/riot-api/client.ts:115-118 | names and numeric values never contain `&` or `=` |
| Client.IntToStringPlain | lib/riot-api/client.ts:115-118 | a number's text never contains `&` or `=` |
| Client.PairOf | lib/riot-api/client.ts:113-120 | a `name=value` piece decodes to its name and value |
| Client.Pieces | lib/riot-api/client.ts:113-120 | one `name=value` piece per parameter |
| Client.TtlOf | lib/riot-api/client.ts:82-146 | each endpoint's cache duration: summoner and account, match history, match, rank, and 60 s for the health check |
| Client.HostOf | lib/riot-api/client.ts:83-179 | account, history and match calls go to the regional host; summoner, rank and health calls go to the platform host |
| Client.CacheKeyParts | lib/riot-api/client.ts:84-143 | each endpoint's cache key splits into its type, identifier and query string |
| Client.CacheKeysSeparate | lib/riot-api/client.ts:84-143 | two endpoints with the same cache key share type and identifier |
| Client.KeyOfEndpoint | lib/riot-api/client.ts:84-143 | every endpoint but the health check keys as `lol-coach:<kind>:<identifier>` (plus the query for a match list) under a colon-free kind, and only the health check uses `health-check` |
| Client.Fetch | lib/riot-api/client.ts:82-146 | a fresh successful call caches the data under the endpoint's key until now plus its TTL |
| Client.Health | lib/riot-api/client.ts:176-186 | the health check is true exactly on a cache hit, a response or a 404 (null does not throw) |
| Client.GetMatches | lib/riot-api/client.ts:151-171 | in batches of five: all matches in id order with one pause between batches, or the first failure with the calls issued up to the end of its batch |
| Client.FirstRaised | lib/riot-api/client.ts:159-161 | the first request of a batch that raises, every earlier one of the batch completing |
| Client.FailureInBatch | lib/riot-api/client.ts:158-161 | a request that raises in a batch after every earlier request completed is the first failure by position, in that batch |
| Scraper.IsJungleRole | lib/scraper/MatchScraper.ts:109-130 | jungle by team position, by lane, or by Smite (summoner spell 11) with more than 50 neutral minions |
| Scraper.ParseJungleGame | lib/scraper/MatchScraper.ts:60-104 | none exactly when the puuid is absent or the participant is not a jungler; otherwise the participant's projection |
| Scraper.ParsedGameFacts | lib/scraper/MatchScraper.ts:76-96 | the parsed game carries the participant's deaths, jungle CS, total CS as lane plus jungle, win flag, match id and creation time, and its kda reads back its deaths |
| Scraper.RecentRequestQuery | lib/scraper/MatchScraper.ts:24-27 | the history request asks for queue 420 and twice the count |
| Scraper.JungleGames | lib/scraper/MatchScraper.ts:37-43 | no more games than matches |
| Scraper.JungleGamesSound | lib/scraper/MatchScraper.ts:37-43 | every game comes from a present match that parses |
| Scraper.JungleGamesComplete | lib/scraper/MatchScraper.ts:37-43 | every present match that parses contributes its game |
| Scraper.MostRecentFacts | lib/scraper/MatchScraper.ts:48-50 | at most `count` games, newest first, a sub-multiset of the input (no game gained or repeated), and any game left out is no newer than every game kept, with `count` kept |
| Scraper.MostRecent | lib/scraper/MatchScraper.ts:48-50 | contract stated by `Scraper.MostRecentFacts` |
| Scraper.ScrapeRecentMatches | lib/scraper/MatchScraper.ts:19-55 | an empty or missing history or any failed fetch gives `[]`; otherwise the newest `count` jungle games of the fetched matches |
| Scraper.RecentMatches | lib/scraper/MatchScraper.ts:19-55 | with no count given, at most 20 games, and for a complete history the 20 newest jungle games; otherwise at most the count |
| Scraper.ScrapeMatch | lib/scraper/MatchScraper.ts:135-147 | a game exactly when the match is found and parses as a jungle game |
| Scraper.CreateFeraxinScraper | lib/scraper/MatchScraper.ts:208-223 | a scraper exactly when the account lookup returns an account, with its puuid |
| Scraper.FavoriteLines | lib/scraper/MatchScraper.ts:179-198 | one line per distinct champion |
| Scraper.FavoriteLinesFacts | lib/scraper/MatchScraper.ts:179-198 | each line holds the champion's game count (at least 1), its win percentage and its average deaths |
| Scraper.FavoritesSorted | lib/scraper/MatchScraper.ts:199-201 | at most five champions, each with two or more games, by descending win rate |
| Scraper.FavoritesTopFive | lib/scraper/MatchScraper.ts:199-201 | a champion with two or more games is left out only when five others have at least its win rate |
| Scraper.FavoriteChampions | lib/scraper/MatchScraper.ts:178-201 | contract stated by `Scraper.FavoritesSorted` and `Scraper.FavoritesTopFive`: the top five champions with two or more games by win rate |
| Scraper.VisionScores | lib/scraper/MatchScraper.ts:157 | the vision scores in game order |
| Scraper.GetJungleStats | lib/scraper/MatchScraper.ts:152-173 | null exactly for no games; otherwise wins is the number of won games and losses the rest; the win rate is `wins * 100 / games` and equals the analytics engine's, as do average deaths and compliance; average vision score and objective damage are their totals over the game count |
| Scraper.Results | lib/scraper/MatchScraper.ts:170 | the results in game order |
| Scraper.DecodeFormCons | lib/scraper/MatchScraper.ts:170 | the form text decodes one result at a time |
| Scraper.FormRoundTrip | lib/scraper/MatchScraper.ts:170 | a joined WIN/LOSS form decodes back to the results |
| Scraper.JungleStatsFacts | lib/scraper/MatchScraper.ts:152-173 | the recent form is the first five results, at most five favourites, and win rate, average deaths and compliance agree with the analytics KPIs |
| Champions.KdaRatio | lib/analytics/JungleAnalytics.ts:274 | the ratio is kills plus assists over the deaths when there are more than one (`r * deaths == kills + assists`), over one otherwise, and lies between 0 and kills plus assists |
| Champions.IndexOf | lib/analytics/JungleAnalytics.ts:263-280 | the first group of the champion, or the end when there is none |
| Champions.TallySnoc | lib/analytics/JungleAnalytics.ts:263-280 | appending a game adds its value to its own champion's totals only |
| Champions.TallyAbsent | lib/analytics/JungleAnalytics.ts:263-280 | a champion absent from the games has zero totals |
| Champions.PlayedSnoc | lib/analytics/JungleAnalytics.ts:263-280 | the played set grows by the new game's champion |
| Champions.AddGameDistinct | lib/analytics/JungleAnalytics.ts:263-280 | adding a game keeps one group per champion |
| Champions.AddGameNames | lib/analytics/JungleAnalytics.ts:263-280 | adding a game adds its champion to the group names |
| Champions.AddGameSum | lib/analytics/JungleAnalytics.ts:263-280 | adding a game raises the total game count by one |
| Champions.AccountsSnoc | lib/analytics/JungleAnalytics.ts:263-280 | another champion's game leaves a group's totals correct |
| Champions.AccountsAbsorb | lib/analytics/JungleAnalytics.ts:263-280 | absorbing a game of the group's champion keeps its totals correct |
| Champions.AddGameAccounts | lib/analytics/JungleAnalytics.ts:263-280 | after adding a game, every group's totals match the games so far |
| Champions.GroupFacts | lib/analytics/JungleAnalytics.ts:263-280 | grouping gives one group per played champion with exact totals, and the counts sum to the number of games |
| Champions.Summaries | lib/analytics/JungleAnalytics.ts:282-293 | one summary per group |
| Champions.SummariesFacts | lib/analytics/JungleAnalytics.ts:282-294 | the summaries are distinct, cover the played champions, are exact and non-empty, and count every game once |
| Champions.StatsNamesPermutation | lib/analytics/JungleAnalytics.ts:295-301 | reordering keeps the champion names |
| Champions.ChampionPerformance | lib/analytics/JungleAnalytics.ts:260-302 | one exact entry per played champion, counting every game once |
| Champions.ChampionPerformanceOrder | lib/analytics/JungleAnalytics.ts:295-301 | sorted by games then win rate, descending, and stable among ties |
| Champions.AnalyzeChampionPerformance | lib/analytics/JungleAnalytics.ts:260-302 | contract stated by `Champions.ChampionPerformance` and `Champions.ChampionPerformanceOrder` |
| Analytics.Percent | lib/analytics/JungleAnalytics.ts:43-62 | the part as a percentage of the whole: `p * whole == part * 100`, so 100 exactly for all of it and 0 exactly for none |
| Analytics.Mean | lib/scraper/MatchScraper.ts:162-165 | a total over `n` items: the mean taken `n` times gives the total back |
| Analytics.Minutes | lib/analytics/JungleAnalytics.ts:70 | a positive duration gives positive minutes |
| Analytics.JungleEff | lib/analytics/JungleAnalytics.ts:68-77 | per-game jungle efficiency in [0, 1], reaching 1 exactly at 4 CS per minute |
| Analytics.VisionEff | lib/analytics/JungleAnalytics.ts:94-103 | per-game vision efficiency in [0, 1], reaching 1 exactly at 1.5 vision per minute |
| Analytics.EarlyScore | lib/analytics/JungleAnalytics.ts:109-120 | per-game early score in [0, 1], and 0 from five deaths on |
| Analytics.MeanOfUnit | lib/analytics/JungleAnalytics.ts:68-120 | a mean of unit-interval scores stays in the unit interval |
| Analytics.MeanPercent | lib/analytics/JungleAnalytics.ts:68-120 | the mean of the scores as a percentage, `p * n == sum * 100`, in [0, 100] for unit scores |
| Analytics.CappedPercent | lib/analytics/JungleAnalytics.ts:83-88 | the average against a reference as a percentage, equal to `total * 100 / (n * reference)` below the cap of 100, and reaching 100 exactly at the reference |
| Analytics.Winrate | lib/analytics/JungleAnalytics.ts:43-46 | the share of wins: `w * |games| == wins * 100`; 100 exactly when every game is won, 0 exactly when every game is lost |
| Analytics.AvgDeaths | lib/analytics/JungleAnalytics.ts:51-54 | the mean deaths: `d * |games|` is the total deaths, and it is non-negative |
| Analytics.ProtocolCompliance | lib/analytics/JungleAnalytics.ts:59-62 | the share of games with at most five deaths: `c * |games| == compliant * 100`; 100 exactly when every game complies, 0 exactly when none does |
| Analytics.FullComplianceBoundsDeaths | lib/analytics/JungleAnalytics.ts:51-62 | full compliance bounds average deaths by five |
| Analytics.CalculateAdvancedKPIs | lib/analytics/JungleAnalytics.ts:11-131 | all zeros for no games; otherwise each field is its definition (win rate, mean deaths, compliance, the three mean-of-scores percentages, and the capped objective and gold percentages); every percentage in [0, 100] and mean deaths non-negative |
| Analytics.JungleEffs | lib/analytics/JungleAnalytics.ts:68-77 | per-game efficiencies in game order |
| Analytics.VisionEffs | lib/analytics/JungleAnalytics.ts:94-103 | per-game vision scores in game order |
| Analytics.EarlyScores | lib/analytics/JungleAnalytics.ts:109-120 | per-game early scores in game order |
| Analytics.Deaths | lib/analytics/JungleAnalytics.ts:51-54 | deaths in game order |
| Analytics.ObjectiveDamage | lib/analytics/JungleAnalytics.ts:83-88 | objective damage in game order |
| Analytics.Gold | lib/analytics/JungleAnalytics.ts:126-131 | gold in game order |
| Analytics.Rank | lib/analytics/JungleAnalytics.ts:251-254 | the sort key of a priority is between 1 and 3 |
| Analytics.DeathRuleTiers | lib/analytics/JungleAnalytics.ts:142-162 | compliance below 50 is a high-priority error, 50 to 70 a medium warning, 70 and above nothing |
| Analytics.PoorWarnings | lib/analytics/JungleAnalytics.ts:206-219 | one warning per poor champion |
| Analytics.PoorWarningsAt | lib/analytics/JungleAnalytics.ts:206-219 | the i-th warning is about the i-th poor champion |
| Analytics.PoorWarningsCount | lib/analytics/JungleAnalytics.ts:206-219 | the poor-champion warnings are all warnings, one per champion |
| Analytics.ChampionRuleCounts | lib/analytics/JungleAnalytics.ts:191-219 | one success exactly when the top champion is strong, and as many warnings as poor champions |
| Analytics.ChampionWarningsExact | lib/analytics/JungleAnalytics.ts:206-219 | a champion warning is raised exactly for the poor champions (win rate below 40 over three or more games) |
| Analytics.FormRuleIff | lib/analytics/JungleAnalytics.ts:223-236 | the form alert fires exactly when the last five games hold at most one win, including for no games |
| Analytics.InsightsOrdered | lib/analytics/JungleAnalytics.ts:136-255 | the insights are a permutation of the rules that fired, by descending priority, stable within a priority |
| Analytics.GenerateCoachingInsights | lib/analytics/JungleAnalytics.ts:136-255 | contract stated by `Analytics.InsightsOrdered` and `Analytics.EmptyHistoryInsights` |
| Analytics.EmptyHistoryInsights | lib/analytics/JungleAnalytics.ts:136-255 | for no games, the five insights that fire, in order |
| Analytics.EmptyHistoryFired | lib/analytics/JungleAnalytics.ts:136-249 | for no games the rules fire in push order: death control, efficiency, vision, recent form, objectives |
| Analytics.SortTwoHighThreeMedium | lib/analytics/JungleAnalytics.ts:251-254 | the priority sort moves the later high insight ahead of the medium ones and keeps each priority's order |
| Analytics.ChunkSize | lib/analytics/JungleAnalytics.ts:309 | the chunk size is at least 5 |
| Analytics.ChunkSizeQuarter | lib/analytics/JungleAnalytics.ts:309 | 5 below twenty games, otherwise a quarter of the games rounded down |
| Analytics.SpansTile | lib/analytics/JungleAnalytics.ts:312-314 | the spans cover the games in order without gaps, full-sized except the last |
| Analytics.SpanStart | lib/analytics/JungleAnalytics.ts:312-314 | the i-th span starts at i times the size |
| Analytics.SpansAreChunks | lib/analytics/JungleAnalytics.ts:312-314 | each span is exactly the matching slice |
| Analytics.SliceValid | lib/analytics/JungleAnalytics.ts:312-314 | a slice of valid games is valid |
| Analytics.GetPerformanceTrends | lib/analytics/JungleAnalytics.ts:307-323 | one trend per chunk |
| Analytics.TrendIsChunk | lib/analytics/JungleAnalytics.ts:307-323 | the i-th trend covers games `i*size+1` to the chunk end and carries that chunk's KPIs |
| Analytics.TrendsTile | lib/analytics/JungleAnalytics.ts:307-323 | the trend periods run from game 1 to the last game, consecutive and full-sized except the last |
| NotionStore.TitleText | app/api/sync-dates/route.ts:48 | `title?.[0]?.text?.content`: present exactly for a non-empty title, and its first piece |
| NotionStore.RichTextOf | lib/notion.ts:33 | `rich_text?.[0]?.text?.content`: present exactly for non-empty rich text, and its first piece |
| NotionStore.SelectName | lib/notion.ts:35 | `select?.name`: present exactly for a select with a name |
| NotionStore.DateStart | app/api/sync-dates/route.ts:49 | `date?.start`: present exactly for a date with a start |
| NotionStore.NumberOf | lib/notion.ts:41 | `number`: present exactly for a number property with a value |
| NotionStore.NumberOr | lib/notion.ts:41 | `n \|\| default`: the number unless it is missing or 0 |
| NotionStore.ResultSelect | app/api/refresh-games/route.ts:206 | a stored result is the option "Win" or "Loss" |
| NotionStore.ResultFromSelect | app/api/refresh-games/route.ts:167 | a win exactly for the option "Win" |
| NotionStore.ResultSelectRoundTrip | app/api/refresh-games/route.ts:167-206 | a stored result reads back as itself, and the stored option differs from the WIN/LOSS text |
| NotionStore.Matching | app/api/sync-dates/route.ts:29-35 | the filter keeps exactly the pages satisfying the condition, each once, in store order |
| NotionStore.MatchingConcat | app/api/sync-dates/route.ts:29-35 | the matches of two stores placed end to end are the matches of the first followed by those of the second, so filtering keeps store order |
| NotionStore.MatchingSnoc | app/api/sync-dates/route.ts:29-35 | a page added at the end of the store is the last match exactly when it satisfies the condition, and the earlier matches stay as they were |
| NotionStore.Query | app/api/sync-dates/route.ts:22-36 | the first `page_size` matching pages, in order |
| NotionStore.QueryNonEmpty | lib/notion.ts:62-65 | a query is non-empty exactly when some page matches |
| NotionStore.RichPropMatches | app/api/riot-webhook/route.ts:127-136 | a rich-text equals filter matches exactly the equal text |
| NotionStore.TitleNeverMatchesRichText | app/api/riot-webhook/route.ts:127-136 | in the schemaless store, a rich-text filter never matches a title property |
| NotionStore.SetProp | app/api/sync-dates/route.ts:87-101 | a PATCH sets the property on the page with that id and leaves every other page alone |
| RefreshGames.ClassifiersDiffer | app/api/refresh-games/route.ts:99-101 | this route's jungle test (role or lane) and the scraper's accept different participants |
| RefreshGames.ToNotionGame | app/api/refresh-games/route.ts:104-111 | the stored game carries the participant's champion, win and deaths, and its kda reads back its deaths |
| RefreshGames.GameOf | app/api/refresh-games/route.ts:81-101 | a game exactly for an ok match with the player present in a jungle role |
| RefreshGames.CollectGames | app/api/refresh-games/route.ts:75-122 | at most one game per match id |
| RefreshGames.CollectGamesAppend | app/api/refresh-games/route.ts:75-122 | the loop handles each id on its own |
| RefreshGames.CollectGamesSound | app/api/refresh-games/route.ts:75-122 | every collected game is the parse of one of the ids |
| RefreshGames.FetchRiotRecentGames | app/api/refresh-games/route.ts:40-130 | throws exactly without a key or on a failed summoner or match-list call; otherwise it makes two requests plus one per id |
| RefreshGames.ParseExisting | app/api/refresh-games/route.ts:164-171 | the stored page read back as match id, WIN exactly for "Win", and deaths from the kda |
| RefreshGames.ParseAll | app/api/refresh-games/route.ts:164-171 | every page is parsed, in order |
| RefreshGames.GetExistingGames | app/api/refresh-games/route.ts:133-177 | fails exactly without token or database or on a failed query; otherwise parses the first 100 jungle pages |
| RefreshGames.GameProps | app/api/refresh-games/route.ts:196-213 | contract stated by `RefreshGames.StoreRoundTrip` and `NotionEnhanced.ParsesRefreshPage`: the page reads back as the same game |
| RefreshGames.StoreRoundTrip | app/api/refresh-games/route.ts:164-213 | a page written by the add step reads back as the same game and is a jungle page |
| RefreshGames.NewGames | app/api/refresh-games/route.ts:268-270 | exactly the fetched games whose match id is not stored |
| RefreshGames.NewGamesNone | app/api/refresh-games/route.ts:268-270 | nothing is new when every match id is stored |
| RefreshGames.AddedPages | app/api/refresh-games/route.ts:180-236 | the pages created for the first n new games |
| RefreshGames.AddFrom | app/api/refresh-games/route.ts:280-295 | contract stated by `RefreshGames.AddFromFacts` |
| RefreshGames.AddFromFacts | app/api/refresh-games/route.ts:280-295 | adding from game i on stops at the first failed create, keeping the earlier pages |
| RefreshGames.AddNewGames | app/api/refresh-games/route.ts:280-295 | adds a prefix of the new games and fails exactly when a create fails |
| RefreshGames.Refresh | app/api/refresh-games/route.ts:248-312 | contract stated by `RefreshGames.RefreshFacts`, `RefreshGames.RefreshRecordsAll` and `RefreshGames.RefreshIdempotent` |
| RefreshGames.RefreshFacts | app/api/refresh-games/route.ts:248-312 | a fetch or query failure leaves the store alone and streams an error; otherwise some prefix of the new games is added and success reports found and added |
| RefreshGames.RecordedIsExisting | app/api/refresh-games/route.ts:133-171 | a stored jungle page is seen as existing (within 100 pages) |
| RefreshGames.AddedIsRecorded | app/api/refresh-games/route.ts:196-213 | every added page is a jungle page recording its match id |
| RefreshGames.ExistingIsRecorded | app/api/refresh-games/route.ts:164-171 | an existing game comes from a stored jungle page |
| RefreshGames.RefreshRecordsAll | app/api/refresh-games/route.ts:248-304 | after a successful refresh every fetched game is stored |
| RefreshGames.AllFetchedStored | app/api/refresh-games/route.ts:267-281 | a fetched game is either new, and so appended, or already recorded by an existing page |
| RefreshGames.RefreshIdempotent | app/api/refresh-games/route.ts:248-304 | a second refresh with the same Riot answers adds nothing |
| RiotWebhook.Dispatch | app/api/riot-webhook/route.ts:24-33 | match completion needs a truthy match id and puuid; refresh_recent is recognised; anything else is unknown |
| RiotWebhook.MatchProps | app/api/riot-webhook/route.ts:145-211 | contract stated by `RiotWebhook.MatchPropsFields` and `RiotWebhook.MatchPropsFacts` |
| RiotWebhook.MatchPropsFields | app/api/riot-webhook/route.ts:145-211 | the created page holds the champion and kda as rich text, the Win/Loss select and the calendar day of the game |
| RiotWebhook.MatchPropsFacts | app/api/riot-webhook/route.ts:145-211 | the page stores the result option, role JUNGLE, `match_id` only as rich text, and the floored duration in minutes |
| RiotWebhook.SaveMatch | app/api/riot-webhook/route.ts:118-220 | skipped exactly when the duplicate check finds the match; created exactly when configured, not skipped and the create succeeds; only a create changes the store |
| RiotWebhook.SaveAllFrom | app/api/riot-webhook/route.ts:100-106 | contract stated by `RiotWebhook.SaveAllAppends`, `RiotWebhook.SaveAllRecords` and `RiotWebhook.SaveAllNoop` |
| RiotWebhook.SaveAllAppends | app/api/riot-webhook/route.ts:100-106 | the refresh loop only appends pages for its games |
| RiotWebhook.RecordedGrows | app/api/riot-webhook/route.ts:126-141 | a stored match stays found as the store grows |
| RiotWebhook.SaveOneRecords | app/api/riot-webhook/route.ts:118-220 | after a save with duplicate check, the match is stored |
| RiotWebhook.SaveAllRecords | app/api/riot-webhook/route.ts:100-106 | when every call succeeds, each recent game ends up stored |
| RiotWebhook.SaveAllNoop | app/api/riot-webhook/route.ts:100-106 | when every game is already stored, the loop changes nothing |
| RiotWebhook.HandleRefreshRecent | app/api/riot-webhook/route.ts:86-113 | no scraper throws and changes nothing; otherwise it completes, since each save error is swallowed |
| RiotWebhook.RefreshIdempotent | app/api/riot-webhook/route.ts:86-141 | a second refresh over the same recent games adds nothing |
| RiotWebhook.HandleMatchCompleted | app/api/riot-webhook/route.ts:55-81 | without a scraper it throws; a missing or non-jungle match does nothing; for a scraped jungle game the run completes exactly when the games database is configured and the create succeeds, appending exactly the match's page, and a failed create throws with the store unchanged |
| RiotWebhook.MatchCompletedTwice | app/api/riot-webhook/route.ts:55-81 | the same completion delivered twice stores the match twice (no duplicate check) |
| RiotWebhook.DuplicateAcrossRoutes | app/api/riot-webhook/route.ts:126-141 | in the schemaless store, a page keyed the refresh-games way (title `match_id`) is not seen by the rich-text duplicate check, and the create goes through; a typed Notion database would reject one of the two shapes |
| RiotWebhook.Post | app/api/riot-webhook/route.ts:12-50 | a wrong secret gives 401, an unknown action 400 and an unreadable body 500; an authorised match-completed or refresh-recent request has exactly the store effect of its handler, answering 200 when the handler completes and 500 when it throws |
| RiotWebhook.Authorized | app/api/riot-webhook/route.ts:17-21 | contract stated by `RiotWebhook.Post` and `RiotWebhook.UnsetSecretRejects`: only a present header equal to a configured secret passes |
| RiotWebhook.UnsetSecretRejects | app/api/riot-webhook/route.ts:17-21 | with no secret configured, every request is rejected |
| RiotWebhook.Get | app/api/riot-webhook/route.ts:226-257 | without `action=refresh` a usage answer and no change; with it the refresh, failing with 500 exactly when no scraper exists |
| SyncDates.Visit | app/api/sync-dates/route.ts:46-121 | an untitled page leaves no trace; a dated page is reported; for any other page a failed match fetch gives a Riot API error, a failed PATCH a Notion update error and a throw a processing error, each leaving the store alone; an ok match and an ok PATCH give an update detail with the match day and set exactly that page's `game_date` to it; the match is fetched, and PATCHed only after an ok match |
| SyncDates.SetDateKeepsRest | app/api/sync-dates/route.ts:94-100 | a PATCH of `game_date` keeps every other property and page |
| SyncDates.VisitFrom | app/api/sync-dates/route.ts:46-121 | contract stated by `SyncDates.VisitFromFacts` |
| SyncDates.VisitFromFacts | app/api/sync-dates/route.ts:46-121 | over the loop the counters never exceed the details, at most one detail per page, only dates change, and only titled undated pages are fetched or patched |
| SyncDates.Post | app/api/sync-dates/route.ts:6-142 | 400 exactly when a setting is missing; the summary total is the number of queried pages, at most 100 |
| SyncDates.SyncFacts | app/api/sync-dates/route.ts:22-133 | updated plus errors is at most the details, which are at most the total; only `game_date` changes; only titled undated pages are fetched or patched |
| SyncDates.SkipsWebhookPages | app/api/sync-dates/route.ts:48-54 | a page created by the riot-webhook route has no title `match_id`, so it is skipped |
| NotionLib.PageRow | lib/notion.ts:28-44 | each field read with its default ("" or 0), deaths from the kda text, duration from `duration_minutes` |
| NotionLib.PageRowOfStored | lib/notion.ts:28-44 | a page that refresh-games creates reads back with its match id, champion, stored Win/Loss option, kda, the kda's deaths and its date; duration is 0 |
| NotionLib.GetRecentGames | lib/notion.ts:10-45 | throws exactly when the query fails; otherwise one row per page of the first `limit` jungle pages |
| NotionLib.RecentGames | lib/notion.ts:10-45 | with no limit given, at most ten rows, fewer only when the jungle pages run out; every row from a jungle page; throws exactly when the query fails |
| NotionLib.RecentGamesFromJunglePages | lib/notion.ts:10-45 | each row maps some jungle page; fewer than `limit` rows only when no more jungle pages exist |
| NotionLib.GetCurrentSession | lib/notion.ts:47-80 | null exactly when no session is active; otherwise the first active page's fields with "" or 0 defaults |
| NotionLib.SessionIsFirstActive | lib/notion.ts:47-80 | a session exactly when some page is active, and it is the first such page |
| NotionLib.FirstMatch | lib/notion.ts:62-66 | the first result of a query is a matching page with no matching page before it, and its index is returned |
| NotionLib.DurationNeverRecorded | lib/notion.ts:41 | a page without `duration_minutes` (every page the routes write) shows duration 0 |
| NotionLib.RowResultIsRawOption | lib/notion.ts:35 | as written, a stored result reads back as "Win"/"Loss", outside the `'WIN' \| 'LOSS'` values the `Game` type allows |
| NotionLib.StoredWinShownAsLoss | lib/notion.ts:35 | as written, the `result === 'WIN'` test fails on the row of a stored win |
| NotionLib.NormalisedRow | lib/notion.ts:28-44 | the corrected row: result WIN exactly for the option "Win", LOSS otherwise, every other field unchanged |
| NotionLib.NormalisedRowRoundTrip | lib/notion.ts:35 | with the correction, a stored result reads back as itself |
| NotionEnhanced.ConvertRiotToGameFormat | lib/notion-enhanced.ts:56-71 | one dashboard game per Riot game with its id, champion, result, deaths, kda, ISO date and the five extra metrics |
| NotionEnhanced.ConvertedDeathsMatchKda | lib/notion-enhanced.ts:56-71 | a converted game's kda reads back its deaths |
| NotionEnhanced.ParseNotionPage | lib/notion-enhanced.ts:114-131 | champion defaults to "Unknown", kda to "0/0/0", date to now; WIN exactly for "Win"; deaths from the kda; no extras |
| NotionEnhanced.MissingKdaIsZeroDeaths | lib/notion-enhanced.ts:119-120 | a page without kda shows 0 deaths |
| NotionEnhanced.ParsesRefreshPage | lib/notion-enhanced.ts:114-131 | a page written by refresh-games reads back as the game stored |
| NotionEnhanced.SourcesAgree | lib/notion-enhanced.ts:56-131 | a page written by riot-webhook reads back with the same champion, result, kda and deaths as the live conversion |
| NotionEnhanced.PageSize | lib/notion-enhanced.ts:104 | `Math.min(limit, 100)` |
| NotionEnhanced.GetRecentGamesFromNotion | lib/notion-enhanced.ts:76-132 | throws exactly without token or database or on a failed query; otherwise one parsed game per page of the first `min(limit, 100)` jungle pages |
| NotionEnhanced.GetLiveRiotData | lib/notion-enhanced.ts:44-51 | throws exactly when no scraper can be created; otherwise at most `limit` games |
| NotionEnhanced.GetRecentGamesEnhanced | lib/notion-enhanced.ts:16-39 | live Riot games when there are any; otherwise the Notion games, or `[]` when that also fails |
| NotionEnhanced.EnhancedSourceVisible | lib/notion-enhanced.ts:16-132 | at most `limit` games; extras exactly when Riot answered; empty exactly when both sources give nothing |
| NotionEnhanced.RecentGamesEnhanced | lib/notion-enhanced.ts:16-39 | with no limit given, at most 20 games (the default); otherwise at most the limit; with no scraper, the Notion games or nothing; Riot-only fields only when a scraper exists |
| NotionEnhanced.GetAdvancedAnalytics | lib/notion-enhanced.ts:137-167 | null exactly without Riot games; otherwise the game count is the number of games |
| NotionEnhanced.AdvancedWithinLimit | lib/notion-enhanced.ts:137-146 | read with the fixed limit of 25, the analytics cover between one and 25 games |
| NotionEnhanced.AdvancedCountsAgree | lib/notion-enhanced.ts:148-161 | the champion stats count every game once, the last trend ends at the game count, and the win rate is a percentage |
| NotionEnhanced.GetCurrentSession | lib/notion-enhanced.ts:172-237 | the fallback session whenever settings are missing, the query fails or no session is active |
| NotionEnhanced.SessionFallbackAgrees | lib/notion-enhanced.ts:210-219 | with at most one active session, each field is the session that `lib/notion.ts` returns, or the fallback's when that field is empty or 0 |
| NotionEnhanced.SyncRiotDataToNotion | lib/notion-enhanced.ts:242-273 | succeeds exactly when a scraper exists, reporting at most ten games |
| Alerts.AlertsFor | app/api/webhook/notion/route.ts:66-83 | the death alert exactly above ten deaths, the pick alert exactly for Karthus or Nocturne, the excellent alert exactly at three deaths or fewer with result "WIN"; in that order |
| Alerts.NotionWebhook | app/api/webhook/notion/route.ts:22-104 | echoes the challenge for url_verification; processes a game exactly for an updated page, reading champion, result and deaths from its properties and firing the three rules on them, with `alerts_sent` exactly when an alert fires; Discord gets them only when configured; other types are reported back |
| Alerts.EmptyUpdateFiresNothing | app/api/webhook/notion/route.ts:58-96 | an update without properties reads 0 deaths and fires nothing |
| Alerts.ExcellentNeverForStoredWin | app/api/webhook/notion/route.ts:79 | as written, a page holding a stored result never fires the excellent alert |
| Alerts.ExcellentMissedExample | app/api/webhook/notion/route.ts:79 | as written, a stored Kindred 2/1/8 win fires no alert at all |
| Alerts.AlertsForStored | app/api/webhook/notion/route.ts:66-83 | the corrected rules: the excellent alert exactly at three deaths or fewer with the option "Win" |
| Alerts.ExcellentForStoredWin | app/api/webhook/notion/route.ts:79 | with the correction, a stored win with at most three deaths fires the excellent alert |
| Alerts.CoachingAlerts | app/api/webhook/coaching-alerts/route.ts:3-36 | critical exactly above ten deaths, a warning exactly for Karthus, success exactly at three or fewer whatever the result; in that order |
| Alerts.CoachingAlertsExclusive | app/api/webhook/coaching-alerts/route.ts:11-33 | critical and success never together; a null count is a success; a missing count fires only the Karthus warning |
| Alerts.NocturneOnlyInWebhook | app/api/webhook/coaching-alerts/route.ts:19-25 | Nocturne is an experimental pick for the page webhook but not for this endpoint |

## Left out

- Redis: only the in-memory cache backend is modelled. A JavaScript `Map` cannot fail, so the `catch` branches of the cache are dead there.
- Rate limiting, the axios timeout and retries: the limiter is an oracle answering each call.
- Sleeps between requests and batches (`setTimeout`): they are counted (`pauses` in `Client.GetMatches`) but not timed.
- Console logging, message texts, emoji and `toFixed` formatting.
- `revalidateTag`, `revalidatePath` and the server-sent progress events of refresh-games. Only the final event (success or error) is modelled.
- Calendar conversion (`toISOString`, the `YYYY-MM-DD` split): these are the `dayOf` and `isoOf` parameters. `new Date()` is the `nowIso` parameter.
- URL encoding of Riot ids, and `URLSearchParams` escaping. Values with `&` or `=` are outside `Client.QueryStringRoundTrip`'s precondition.
- Notion's schema validation and its server-side sort by `game_date` or `start_date`. Pages come back in store order. The store is schemaless: a Notion database gives each property one type and would reject a filter or a create whose shape disagrees with it, which the model does not do. So `RiotWebhook.DuplicateAcrossRoutes` and `NotionStore.TitleNeverMatchesRichText` state that the routes' keyings disagree; they do not claim that the service would store a game twice.
- Notion's rejection of `page_size` above 100. The `up` oracle stands for any failed query.
- JSON parse errors of request bodies.
- The GET usage bodies of refresh-games, sync-dates and the Notion webhook. They are constant texts.
- The thin routes `games`, `session`, `revalidate` and `test-riot`, and the UI components.
- `lib/notion-enhanced.ts` line 276 re-exports `getCurrentSession` from `lib/notion.ts` while also exporting its own. The model keeps the file's own definition as `NotionEnhanced.GetCurrentSession`.
- Analytics.CalculateAdvancedKPIs: requires every game duration to be positive. A zero duration gives Infinity or NaN in JavaScript floats, which reals do not model.
- Analytics.GetPerformanceTrends: the same positive-duration requirement.
- NotionEnhanced.GetAdvancedAnalytics: the same positive-duration requirement. Its `catch` that turns an error into `null` is not modelled.
- Analytics.Percent: ratios are exact reals, not IEEE doubles. The same holds for every average and percentage.
- Text.ParseIntRoundTrip: `parseInt` is modelled for decimal text with leading ASCII whitespace and an optional sign. Hex prefixes, other Unicode whitespace and precision loss on huge numbers are not.
- Client.GetMatches: `Promise.all` over a batch is modelled as reporting the first failing id in order, and no later batch is issued. Which failure rejects first in time is not modelled.
- Cache.Set: one `now` serves both the write and the sweep, where the source reads the clock twice.
- Scraper.ScrapeRecentMatches: a throw from the history call or a match fetch is folded into the `[]` result, as the `catch` does. The sort is modelled as stable on creation time.
- Alerts.CoachingAlerts: the posted `deaths` is a number, null or missing. Strings and booleans, which JavaScript would coerce in `>`, are not modelled.
- Alerts.NotionWebhook: Discord delivery is modelled by whether the webhook URL is set. Delivery failures are swallowed by the route and not modelled.
- RiotWebhook.HandleRefreshRecent: the games returned by `scrapeRecentMatches(10)` are the `recent` field of the remote, given as they are. The scrape itself is `Scraper.ScrapeRecentMatches`, a method with loops that a function cannot call, so the model does not tie `recent` to its contract (at most ten games, newest first).
- NotionEnhanced.SessionFallbackAgrees: holds only with at most one active session. `lib/notion.ts` (lines 56-61) sorts active sessions by `start_date`, descending, and `lib/notion-enhanced.ts` (lines 193-201) sends no sort. With two or more active sessions, the two helpers may therefore return different sessions. The store's order is not modelled, so no relation is claimed for that case.
- NotionEnhanced.SyncRiotDataToNotion: the source only logs the games it would sync, so only the report is modelled.

## Findings

| source | as written | input that shows it | evidently intended | confidence | as-written member | corrected member |
|---|---|---|---|---|---|---|
| lib/notion.ts:35 | `getRecentGames` builds rows that carry `Game`'s field names (lib/types.ts:2-9) whose `result` is the select option itself ("Win"/"Loss"), outside `Game.result`'s 'WIN' \| 'LOSS'; nothing in the source types or renders these rows as `Game`, so no visible effect is claimed | a page stored by refresh-games or riot-webhook for a won game, with result option "Win" | normalise to "WIN" exactly for the option "Win", as refresh-games (line 167) and notion-enhanced (line 118) do | not executed | NotionLib.RowResultIsRawOption, NotionLib.StoredWinShownAsLoss | NotionLib.NormalisedRow, NotionLib.NormalisedRowRoundTrip |
| app/api/webhook/notion/route.ts:79 | the excellent-game alert requires `result === 'WIN'`, but pages hold the select option "Win" | an updated page with champion Kindred, kda "2/1/8" and result option "Win" fires no alert | compare with the stored option "Win" | not executed | Alerts.ExcellentNeverForStoredWin, Alerts.ExcellentMissedExample | Alerts.AlertsForStored, Alerts.ExcellentForStoredWin |
