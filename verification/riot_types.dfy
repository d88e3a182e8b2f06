/** Record shapes of the Riot match API and of the game record the dashboard
    derives from it. Only the fields some operation reads are kept; counts
    are natural numbers, timestamps and durations plain integers. */
module RiotTypes {

  import opened Options

  /** A game's outcome, 'WIN' or 'LOSS' in the source. */
  datatype GameResult = Win | Loss

  /** `win ? 'WIN' : 'LOSS'`. */
  function ResultOf(win: bool): (r: GameResult)
    ensures r == Win <==> win
  {
    if win then Win else Loss
  }

  /** The literal text of a result: "WIN" or "LOSS". */
  function ResultText(r: GameResult): (t: string)
    ensures t == "WIN" || t == "LOSS"
  {
    match r
    case Win => "WIN"
    case Loss => "LOSS"
  }

  /** One player's line in a finished match. `role` is read only by the
      refresh route, which consumes the raw JSON. */
  datatype Participant = Participant(
    puuid: string,
    championName: string,
    win: bool,
    kills: nat,
    deaths: nat,
    assists: nat,
    totalMinionsKilled: nat,
    neutralMinionsKilled: nat,
    visionScore: nat,
    damageDealtToObjectives: nat,
    wardsPlaced: nat,
    wardsKilled: nat,
    goldEarned: nat,
    teamPosition: string,
    lane: string,
    role: string,
    summoner1Id: int,
    summoner2Id: int)

  /** A match as returned by the match endpoint. `gameCreation` is a time
      stamp in milliseconds. */
  datatype MatchData = MatchData(
    matchId: string,
    gameCreation: int,
    gameDuration: int,
    gameVersion: string,
    queueId: int,
    participants: seq<Participant>)

  /** The tracked player's jungle game. `gameDate` is the creation time stamp
      (`new Date(gameCreation)`, compared through `getTime()`). */
  datatype JungleGame = JungleGame(
    matchId: string,
    champion: string,
    result: GameResult,
    kda: string,
    deaths: nat,
    kills: nat,
    assists: nat,
    cs: nat,
    jungleCS: nat,
    gameDate: int,
    gameDuration: int,
    visionScore: nat,
    objectivesDamage: nat,
    wardsPlaced: nat,
    wardsKilled: nat,
    goldEarned: nat,
    teamPosition: string,
    gameVersion: string,
    queueId: int)

  /** A Riot account, as the account endpoint returns it. */
  datatype AccountData = AccountData(puuid: string, gameName: string, tagLine: string)

  /** The first participant with the given puuid (`participants.find`). */
  function FindParticipant(ps: seq<Participant>, puuid: string): (r: Option<Participant>)
    ensures r.None? <==> forall i :: 0 <= i < |ps| ==> ps[i].puuid != puuid
    ensures r.Some? ==> exists i :: 0 <= i < |ps| && ps[i] == r.value && ps[i].puuid == puuid
    ensures r.Some? ==> r.value in ps
    decreases |ps|
  {
    if |ps| == 0 then None
    else if ps[0].puuid == puuid then Some(ps[0])
    else FindParticipant(ps[1..], puuid)
  }

  /** Participant lookup finds the first match: no earlier participant has
      the puuid. */
  lemma {:induction false} FindParticipantFirst(ps: seq<Participant>, puuid: string, k: nat)
    requires k < |ps| && ps[k].puuid == puuid
    requires forall i :: 0 <= i < k ==> ps[i].puuid != puuid
    ensures FindParticipant(ps, puuid) == Some(ps[k])
    decreases k
  {
    if k > 0 {
      FindParticipantFirst(ps[1..], puuid, k - 1);
    }
  }
}
