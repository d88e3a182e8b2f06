/** The sync-dates route: one query of up to 100 jungle pages; for each
    page with a match id and no date, the match is fetched from Riot and
    the page's `game_date` is set to the match's calendar day. Riot and
    Notion calls are oracles; `dayOf` stands for the `YYYY-MM-DD` day of a
    time stamp. */
module SyncDates {

  import opened Options
  import opened Seqs
  import opened RiotTypes
  import opened NotionStore
  import RiotWebhook

  /** One line of the summary's details. */
  datatype Detail =
    | AlreadyHasDate(matchId: string, date: string)
    | RiotApiError(matchId: string, code: int)
    | Updated(matchId: string, date: string)
    | NotionUpdateFailed(matchId: string)
    | ProcessingError(matchId: string)

  /** The loop's state. `fetched` lists the match ids requested from Riot
      and `patchCalls` the page ids a PATCH was sent for, in order. */
  datatype SyncState = SyncState(
    store: seq<Page>,
    updated: nat,
    errors: nat,
    details: seq<Detail>,
    fetched: seq<string>,
    patchCalls: seq<string>)

  /** The remote side: settings, whether the query succeeds, the Riot
      match request and the PATCH of a page, by id. */
  datatype Remote = Remote(
    riotKey: Option<string>,
    notionToken: Option<string>,
    dbId: Option<string>,
    notionUp: bool,
    getMatch: string -> Reply<MatchData>,
    patch: string -> Reply<()>,
    dayOf: int -> string)

  /** The date a PATCH writes: `game_date` and nothing else. */
  function DateProp(day: string): Prop
  {
    Date(Some(day))
  }

  /** `if (!matchId) continue`: only a page with a title match id is
      looked at. */
  predicate Titled(p: Page)
  {
    Truthy(TitleText(p.properties, "match_id"))
  }

  predicate Dated(p: Page)
  {
    Truthy(DateStart(p.properties, "game_date"))
  }

  function MatchIdOf(p: Page): string
  {
    OrElse(TitleText(p.properties, "match_id"), "")
  }

  predicate IsError(d: Detail)
  {
    d.RiotApiError? || d.NotionUpdateFailed? || d.ProcessingError?
  }

  /** One page of the loop. A page without a match id leaves no trace; a
      dated page is reported and nothing is requested for it; any other
      page adds one detail and one to exactly one counter, and the store
      changes only when the PATCH succeeds. */
  function Visit(st: SyncState, p: Page, rm: Remote): (r: SyncState)
    ensures !Titled(p) ==> r == st
    ensures Titled(p) && Dated(p) ==>
      r == st.(details := st.details + [AlreadyHasDate(MatchIdOf(p), DateStart(p.properties, "game_date").value)])
    ensures Titled(p) && !Dated(p) ==>
      |r.details| == |st.details| + 1 && r.details[..|st.details|] == st.details
      && r.fetched == st.fetched + [MatchIdOf(p)]
      && r.updated + r.errors == st.updated + st.errors + 1
      && (r.updated == st.updated + 1 <==> r.details[|st.details|].Updated?)
      && (r.errors == st.errors + 1 <==> IsError(r.details[|st.details|]))
    ensures Titled(p) && !Dated(p) && !(rm.getMatch(MatchIdOf(p)).Ok? && rm.patch(p.id).Ok?) ==>
      IsError(r.details[|st.details|]) && r.details[|st.details|].matchId == MatchIdOf(p)
      && r.store == st.store && r.updated == st.updated
    ensures Titled(p) && !Dated(p) && rm.getMatch(MatchIdOf(p)).NotOk? ==>
      r.details[|st.details|] == RiotApiError(MatchIdOf(p), rm.getMatch(MatchIdOf(p)).status)
    ensures Titled(p) && !Dated(p) && rm.getMatch(MatchIdOf(p)).Ok? && rm.patch(p.id).NotOk? ==>
      r.details[|st.details|] == NotionUpdateFailed(MatchIdOf(p))
    ensures Titled(p) && !Dated(p) && (rm.getMatch(MatchIdOf(p)).Threw? || (rm.getMatch(MatchIdOf(p)).Ok? && rm.patch(p.id).Threw?)) ==>
      r.details[|st.details|] == ProcessingError(MatchIdOf(p))
    ensures Titled(p) && !Dated(p) && rm.getMatch(MatchIdOf(p)).Ok? && rm.patch(p.id).Ok? ==>
      r.details[|st.details|] == Updated(MatchIdOf(p), rm.dayOf(rm.getMatch(MatchIdOf(p)).body.gameCreation))
      && r.store == SetProp(st.store, p.id, "game_date", DateProp(rm.dayOf(rm.getMatch(MatchIdOf(p)).body.gameCreation)))
    ensures Titled(p) && !Dated(p) ==>
      r.patchCalls == (if rm.getMatch(MatchIdOf(p)).Ok? then st.patchCalls + [p.id] else st.patchCalls)
    ensures r.store != st.store ==>
      Titled(p) && !Dated(p) && rm.getMatch(MatchIdOf(p)).Ok? && rm.patch(p.id).Ok?
      && r.store == SetProp(st.store, p.id, "game_date", DateProp(rm.dayOf(rm.getMatch(MatchIdOf(p)).body.gameCreation)))
  {
    var matchId := TitleText(p.properties, "match_id");
    var current := DateStart(p.properties, "game_date");
    if !Truthy(matchId) then st
    else
      var id := matchId.value;
      if Truthy(current) then st.(details := st.details + [AlreadyHasDate(id, current.value)])
      else
        var fetched := st.fetched + [id];
        match rm.getMatch(id)
        case NotOk(code) =>
          st.(errors := st.errors + 1, details := st.details + [RiotApiError(id, code)], fetched := fetched)
        case Threw =>
          st.(errors := st.errors + 1, details := st.details + [ProcessingError(id)], fetched := fetched)
        case Ok(m) =>
          var day := rm.dayOf(m.gameCreation);
          var calls := st.patchCalls + [p.id];
          match rm.patch(p.id)
          case Ok(_) =>
            SyncState(SetProp(st.store, p.id, "game_date", DateProp(day)), st.updated + 1, st.errors,
                      st.details + [Updated(id, day)], fetched, calls)
          case NotOk(_) =>
            st.(errors := st.errors + 1, details := st.details + [NotionUpdateFailed(id)],
                fetched := fetched, patchCalls := calls)
          case Threw =>
            st.(errors := st.errors + 1, details := st.details + [ProcessingError(id)],
                fetched := fetched, patchCalls := calls)
  }

  /** The loop over the queried pages from page `i` on; an error never stops
      it. */
  function VisitFrom(st: SyncState, pages: seq<Page>, i: nat, rm: Remote): SyncState
    requires i <= |pages|
    decreases |pages| - i
  {
    if i == |pages| then st else VisitFrom(Visit(st, pages[i], rm), pages, i + 1, rm)
  }

  /** Two stores hold the same pages except for `game_date`. */
  predicate SameButDates(a: seq<Page>, b: seq<Page>)
  {
    |a| == |b| && forall i :: 0 <= i < |a| ==>
      a[i].id == b[i].id && a[i].properties - {"game_date"} == b[i].properties - {"game_date"}
  }

  lemma SetDateKeepsRest(db: seq<Page>, s: seq<Page>, id: string, day: string)
    requires SameButDates(db, s)
    ensures SameButDates(db, SetProp(s, id, "game_date", DateProp(day)))
  {
    var t := SetProp(s, id, "game_date", DateProp(day));
    forall i | 0 <= i < |db|
      ensures db[i].id == t[i].id && db[i].properties - {"game_date"} == t[i].properties - {"game_date"}
    {
    }
  }

  /** What the loop keeps: every page adds at most one detail; the
      counters together never exceed the details; only `game_date` ever
      changes; and every Riot request is for a titled, undated page. */
  lemma {:induction false} VisitFromFacts(db: seq<Page>, st: SyncState, pages: seq<Page>, i: nat, rm: Remote)
    requires i <= |pages|
    requires st.updated + st.errors <= |st.details|
    requires SameButDates(db, st.store)
    requires forall id :: id in st.fetched ==> exists p :: p in pages && Titled(p) && !Dated(p) && MatchIdOf(p) == id
    requires forall id :: id in st.patchCalls ==> exists p :: p in pages && Titled(p) && !Dated(p) && p.id == id
    ensures var r := VisitFrom(st, pages, i, rm);
      r.updated + r.errors <= |r.details| <= |st.details| + (|pages| - i)
      && SameButDates(db, r.store)
      && (forall id :: id in r.fetched ==> exists p :: p in pages && Titled(p) && !Dated(p) && MatchIdOf(p) == id)
      && (forall id :: id in r.patchCalls ==> exists p :: p in pages && Titled(p) && !Dated(p) && p.id == id)
    decreases |pages| - i
  {
    if i < |pages| {
      var p := pages[i];
      var next := Visit(st, p, rm);
      if next.store != st.store {
        SetDateKeepsRest(db, st.store, p.id, rm.dayOf(rm.getMatch(MatchIdOf(p)).body.gameCreation));
      }
      forall id | id in next.fetched
        ensures exists q :: q in pages && Titled(q) && !Dated(q) && MatchIdOf(q) == id
      {
        if id !in st.fetched {
          assert Titled(p) && !Dated(p) && id == MatchIdOf(p);
        }
      }
      forall id | id in next.patchCalls
        ensures exists q :: q in pages && Titled(q) && !Dated(q) && q.id == id
      {
        if id !in st.patchCalls {
          assert Titled(p) && !Dated(p) && id == p.id;
        }
      }
      VisitFromFacts(db, next, pages, i + 1, rm);
    }
  }

  datatype Summary = Summary(total: nat, updated: nat, errors: nat, details: seq<Detail>)

  datatype SyncResult =
    | MissingKeys
    | SyncFailed
    | Synced(store: seq<Page>, summary: Summary, fetched: seq<string>, patchCalls: seq<string>)

  /** `POST`: 400 before any call when a setting is missing; a failed query
      fails the sync; otherwise the loop over the queried pages. */
  function Post(db: seq<Page>, rm: Remote): (r: SyncResult)
    ensures r.MissingKeys? <==> !Truthy(rm.riotKey) || !Truthy(rm.notionToken) || !Truthy(rm.dbId)
    ensures r.Synced? ==> r.summary.total == |Query(db, JunglePages, 100)| <= 100
  {
    if !Truthy(rm.riotKey) || !Truthy(rm.notionToken) || !Truthy(rm.dbId) then MissingKeys
    else if !rm.notionUp then SyncFailed
    else
      var pages := Query(db, JunglePages, 100);
      var st := VisitFrom(SyncState(db, 0, 0, [], [], []), pages, 0, rm);
      Synced(st.store, Summary(|pages|, st.updated, st.errors, st.details), st.fetched, st.patchCalls)
  }

  /** The summary's counters add up to at most the number of pages, the
      store keeps every page and every property but `game_date`, and only
      titled pages without a date are fetched from Riot or patched. */
  lemma SyncFacts(db: seq<Page>, rm: Remote)
    requires Post(db, rm).Synced?
    ensures var r := Post(db, rm);
      r.summary.updated + r.summary.errors <= |r.summary.details| <= r.summary.total
      && SameButDates(db, r.store)
      && (forall id :: id in r.fetched ==> exists p :: p in Query(db, JunglePages, 100) && Titled(p) && !Dated(p) && MatchIdOf(p) == id)
      && (forall id :: id in r.patchCalls ==> exists p :: p in Query(db, JunglePages, 100) && Titled(p) && !Dated(p) && p.id == id)
  {
    var pages := Query(db, JunglePages, 100);
    VisitFromFacts(db, SyncState(db, 0, 0, [], [], []), pages, 0, rm);
  }

  /** A page the riot-webhook route created keeps its match id in rich_text,
      so this route passes over it without a trace. */
  lemma SkipsWebhookPages(st: SyncState, id: string, g: JungleGame, dayOf: int -> string, rm: Remote)
    ensures Visit(st, Page(id, RiotWebhook.MatchProps(g, dayOf)), rm) == st
  {
    RiotWebhook.MatchPropsFacts(g, dayOf, g.matchId);
  }
}
