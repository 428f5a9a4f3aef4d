/**
 * The stored records: a match (standalone or recorded inside a tournament)
 * and a tournament. Leader snapshots are copied by value into each match.
 */
module Records {
  import opened Wrappers
  import opened Identity

  /**
   * A match. `turnOrder` is "first", "second" or absent; `result` is "win" or
   * "loss" as recorded. `gameFormat` is what the match form stores; `format`
   * and `tournamentId` are what a tournament round stores.
   */
  datatype Match = Match(
    id: int,
    myLeader: Leader,
    opponentLeader: Leader,
    turnOrder: Option<string>,
    result: string,
    notes: string,
    gameFormat: Option<string>,
    date: string,
    format: Option<string>,
    tournamentId: Option<int>)

  /** Which leader of a match a view looks at. */
  datatype Side = Mine | Theirs

  function Pick(m: Match, side: Side): Leader {
    if side == Mine then m.myLeader else m.opponentLeader
  }

  /** The opposing side: a detail view of my leader looks at the opponents, and vice versa. */
  function Other(side: Side): (r: Side)
    ensures r != side
  {
    if side == Mine then Theirs else Mine
  }

  /** A tournament: `kind` is the source's `type` field; `rounds` is the target number of matches. */
  datatype Tournament = Tournament(
    id: int,
    kind: string,
    date: string,
    rounds: int,
    format: string,
    location: string,
    matches: seq<Match>,
    completed: bool,
    createdAt: string)
}
