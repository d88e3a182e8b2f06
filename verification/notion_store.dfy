/** The Notion games and sessions databases as the routes see them: pages
    with an id and a map from property name to a typed value. Only the
    property kinds the routes read or write are kept. Title and rich_text
    values are their list of text segments; select, date and number values
    may be null. The store is schemaless: a property holds whatever kind it
    was written with. */
module NotionStore {

  import opened Options
  import opened Seqs
  import opened RiotTypes

  datatype Prop =
    | Title(title: seq<string>)
    | RichText(richText: seq<string>)
    | Select(name: Option<string>)
    | Date(start: Option<string>)
    | Number(number: Option<int>)
    | Checkbox(checked: bool)

  type Props = map<string, Prop>

  datatype Page = Page(id: string, properties: Props)

  /** What a remote call gave back: a body, a response that is not ok, or a
      thrown error (network failure, malformed body). */
  datatype Reply<T> = Ok(body: T) | NotOk(status: int) | Threw

  /** How a step of a route ends: with a value, or by throwing. */
  datatype Outcome<T> = Completed(value: T) | Thrown(reason: string)

  /** A step that may write to the store: the store afterwards and how the
      step ended. */
  datatype Run<T> = Run(store: seq<Page>, outcome: Outcome<T>)

  /** `props[key]?.title?.[0]?.text?.content`. */
  function TitleText(ps: Props, key: string): (r: Option<string>)
    ensures r.Some? <==> key in ps && ps[key].Title? && |ps[key].title| > 0
    ensures r.Some? ==> r.value == ps[key].title[0]
  {
    if key in ps && ps[key].Title? && |ps[key].title| > 0 then Some(ps[key].title[0]) else None
  }

  /** `props[key]?.rich_text?.[0]?.text?.content`. */
  function RichTextOf(ps: Props, key: string): (r: Option<string>)
    ensures r.Some? <==> key in ps && ps[key].RichText? && |ps[key].richText| > 0
    ensures r.Some? ==> r.value == ps[key].richText[0]
  {
    if key in ps && ps[key].RichText? && |ps[key].richText| > 0 then Some(ps[key].richText[0]) else None
  }

  /** `props[key]?.select?.name`. */
  function SelectName(ps: Props, key: string): (r: Option<string>)
    ensures r.Some? <==> key in ps && ps[key].Select? && ps[key].name.Some?
    ensures r.Some? ==> r.value == ps[key].name.value
  {
    if key in ps && ps[key].Select? then ps[key].name else None
  }

  /** `props[key]?.date?.start`. */
  function DateStart(ps: Props, key: string): (r: Option<string>)
    ensures r.Some? <==> key in ps && ps[key].Date? && ps[key].start.Some?
    ensures r.Some? ==> r.value == ps[key].start.value
  {
    if key in ps && ps[key].Date? then ps[key].start else None
  }

  /** `props[key]?.number`. */
  function NumberOf(ps: Props, key: string): (r: Option<int>)
    ensures r.Some? <==> key in ps && ps[key].Number? && ps[key].number.Some?
    ensures r.Some? ==> r.value == ps[key].number.value
  {
    if key in ps && ps[key].Number? then ps[key].number else None
  }

  /** JavaScript `n || default` on an optional number: null and 0 both give
      way to the default. */
  function NumberOr(n: Option<int>, default: int): (r: int)
    ensures n.Some? && n.value != 0 ==> r == n.value
    ensures (n.None? || n.value == 0) ==> r == default
  {
    if n.Some? && n.value != 0 then n.value else default
  }

  /** The plain text of a rich text value, which Notion's text filters
      compare. */
  function PlainText(segments: seq<string>): string
  {
    Flatten(segments)
  }

  /** A one-segment value, as the routes write `[{ text: { content } }]`. */
  function TitleProp(s: string): Prop { Title([s]) }

  function RichProp(s: string): Prop { RichText([s]) }

  /** The select option a result is stored as. */
  function ResultSelect(r: GameResult): (name: string)
    ensures name == "Win" || name == "Loss"
  {
    if r == Win then "Win" else "Loss"
  }

  /** `select?.name === 'Win' ? 'WIN' : 'LOSS'`: anything but the exact
      option "Win", including a missing select, reads as a loss. */
  function ResultFromSelect(name: Option<string>): (r: GameResult)
    ensures r == Win <==> name == Some("Win")
  {
    if name == Some("Win") then Win else Loss
  }

  /** The Win/Loss select mapping is a round trip, and the stored option is
      never the upper-case result text. */
  lemma ResultSelectRoundTrip(r: GameResult)
    ensures ResultFromSelect(Some(ResultSelect(r))) == r
    ensures ResultSelect(r) != ResultText(r)
  {
  }

  /** The filters the routes send with a database query. */
  datatype Condition =
    | SelectEquals(property: string, value: string)
    | RichTextEquals(property: string, value: string)

  /** The filter every games query sends: `role` select equals JUNGLE. */
  const JunglePages := SelectEquals("role", "JUNGLE")

  /** A `rich_text` filter looks only at rich_text values. */
  predicate Satisfies(p: Page, c: Condition)
  {
    match c
    case SelectEquals(k, v) => SelectName(p.properties, k) == Some(v)
    case RichTextEquals(k, v) =>
      k in p.properties && p.properties[k].RichText? && PlainText(p.properties[k].richText) == v
  }

  /** The pages of the store that satisfy a condition, in store order. */
  function Matching(db: seq<Page>, c: Condition): (r: seq<Page>)
    ensures |r| <= |db|
    ensures forall i :: 0 <= i < |r| ==> r[i] in db && Satisfies(r[i], c)
    ensures forall i :: 0 <= i < |db| && Satisfies(db[i], c) ==> db[i] in r
    decreases |db|
  {
    if |db| == 0 then []
    else
      var rest := Matching(db[1..], c);
      assert forall i :: 1 <= i < |db| ==> db[i] == db[1..][i - 1];
      (if Satisfies(db[0], c) then [db[0]] else []) + rest
  }

  /** Matching distributes over concatenation: the matches of a store are
      those of its front followed by those of its back, so the order of the
      store is kept. */
  lemma {:induction false} MatchingConcat(a: seq<Page>, b: seq<Page>, c: Condition)
    ensures Matching(a + b, c) == Matching(a, c) + Matching(b, c)
    decreases |a|
  {
    if |a| > 0 {
      var p, t := a[0], a[1..];
      assert a == [p] + t;
      assert a + b == [p] + (t + b);
      MatchingCons(p, t, c);
      MatchingCons(p, t + b, c);
      MatchingConcat(t, b, c);
      SeqAssoc(Matching([p], c), Matching(t, c), Matching(b, c));
    } else {
      assert a + b == b;
    }
  }

  lemma SeqAssoc<T>(x: seq<T>, y: seq<T>, z: seq<T>)
    ensures x + (y + z) == (x + y) + z
  {
  }

  /** The matches of a store with a page in front. */
  lemma MatchingCons(p: Page, rest: seq<Page>, c: Condition)
    ensures Matching([p] + rest, c) == Matching([p], c) + Matching(rest, c)
    ensures Matching([p], c) == if Satisfies(p, c) then [p] else []
  {
    MatchingFront(p, rest, c);
    MatchingFront(p, [], c);
    assert [p] + [] == [p];
  }

  lemma MatchingFront(p: Page, rest: seq<Page>, c: Condition)
    ensures Matching([p] + rest, c) == (if Satisfies(p, c) then [p] else []) + Matching(rest, c)
  {
    assert ([p] + rest)[0] == p && ([p] + rest)[1..] == rest;
  }

  /** Appending a page adds it at the end of the matches exactly when it
      satisfies the condition. */
  lemma MatchingSnoc(db: seq<Page>, p: Page, c: Condition)
    ensures Matching(db + [p], c) == Matching(db, c) + (if Satisfies(p, c) then [p] else [])
  {
    MatchingConcat(db, [p], c);
    MatchingCons(p, [], c);
  }

  /** `databases.query` with one filter and a page size: the first
      `pageSize` matching pages. The store's order stands for the order the
      service answers in. */
  function Query(db: seq<Page>, c: Condition, pageSize: nat): (r: seq<Page>)
    ensures |r| <= pageSize && |r| <= |Matching(db, c)|
    ensures r == Matching(db, c)[..|r|]
    ensures |Matching(db, c)| <= pageSize ==> r == Matching(db, c)
    ensures |Matching(db, c)| > pageSize ==> |r| == pageSize
  {
    Take(Matching(db, c), pageSize)
  }

  /** With room for at least one page, a query comes back non-empty exactly
      when some page of the store matches. */
  lemma QueryNonEmpty(db: seq<Page>, c: Condition, pageSize: nat)
    requires pageSize >= 1
    ensures |Query(db, c, pageSize)| > 0 <==> exists i :: 0 <= i < |db| && Satisfies(db[i], c)
  {
    var m := Matching(db, c);
    if exists i :: 0 <= i < |db| && Satisfies(db[i], c) {
      var i :| 0 <= i < |db| && Satisfies(db[i], c);
      assert db[i] in m;
    }
    if |m| > 0 {
      assert m[0] in db && Satisfies(m[0], c);
      var j :| 0 <= j < |db| && db[j] == m[0];
    }
  }

  /** A one-segment rich_text value matches exactly its own text. */
  lemma RichPropMatches(ps: Props, k: string, s: string, v: string)
    requires k in ps && ps[k] == RichProp(s)
    ensures Satisfies(Page("", ps), RichTextEquals(k, v)) <==> s == v
  {
    assert Flatten([s]) == s + Flatten([]);
  }

  /** In the schemaless store, a title value never matches a rich_text
      filter. Notion would reject the filter on a title property outright;
      either way no page is found. */
  lemma TitleNeverMatchesRichText(p: Page, k: string, v: string)
    requires k in p.properties && p.properties[k].Title?
    ensures !Satisfies(p, RichTextEquals(k, v))
  {
  }

  /** Sets one property of every page with the given id (`pages.update`). */
  function SetProp(db: seq<Page>, id: string, key: string, v: Prop): (r: seq<Page>)
    ensures |r| == |db|
    ensures forall i :: 0 <= i < |db| ==> r[i].id == db[i].id
    ensures forall i :: 0 <= i < |db| && db[i].id != id ==> r[i] == db[i]
    ensures forall i :: 0 <= i < |db| && db[i].id == id ==>
      key in r[i].properties && r[i].properties[key] == v
      && r[i].properties - {key} == db[i].properties - {key}
  {
    seq(|db|, i requires 0 <= i < |db| =>
      if db[i].id == id then Page(id, db[i].properties[key := v]) else db[i])
  }
}
