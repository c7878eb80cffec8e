/**
 * Leaderboard snapshots as the scoring service sends them, and the client's lookup of the
 * current user's row (`leaderboard.find(player => player.username === username)`).
 */
module Leaderboard {

  import opened Wrappers

  /** One row of a snapshot. Score and rank are computed by the server only. */
  datatype Entry = Entry(username: string, score: int, rank: int)

  /** What the server promises of a snapshot: one row per user, ranks from 1, in rank order. */
  predicate WellFormed(board: seq<Entry>)
  {
    && UniqueNames(board)
    && (forall i :: 0 <= i < |board| ==> board[i].rank >= 1)
    && (forall i, j :: 0 <= i < j < |board| ==> board[i].rank <= board[j].rank)
  }

  predicate UniqueNames(board: seq<Entry>)
  {
    forall i, j :: 0 <= i < j < |board| ==> board[i].username != board[j].username
  }

  /** The first index at or after `from` whose row belongs to `name`, if any. */
  function FindFrom(board: seq<Entry>, name: string, from: nat): (r: Option<nat>)
    requires from <= |board|
    ensures r.Some? ==> from <= r.value < |board| && board[r.value].username == name
    ensures r.Some? ==> forall j :: from <= j < r.value ==> board[j].username != name
    ensures r.None? ==> forall j :: from <= j < |board| ==> board[j].username != name
    decreases |board| - from
  {
    if from == |board| then None
    else if board[from].username == name then Some(from)
    else FindFrom(board, name, from + 1)
  }

  /** `Array.prototype.find` by username: the index of the first matching row, or none. */
  function FindFirst(board: seq<Entry>, name: string): (r: Option<nat>)
    ensures r.Some? ==> r.value < |board| && board[r.value].username == name
    ensures r.Some? ==> forall j :: 0 <= j < r.value ==> board[j].username != name
    ensures r.None? <==> forall j :: 0 <= j < |board| ==> board[j].username != name
  {
    FindFrom(board, name, 0)
  }

  /** The same search as a linear scan over the rows. */
  method FindEntry(board: seq<Entry>, name: string) returns (r: Option<nat>)
    ensures r == FindFirst(board, name)
  {
    var i := 0;
    while i < |board|
      invariant 0 <= i <= |board|
      invariant FindFrom(board, name, i) == FindFirst(board, name)
    {
      if board[i].username == name {
        return Some(i);
      }
      i := i + 1;
    }
    return None;
  }

  /**
   * The rank shown after a snapshot arrives: the rank of the first row of `name`,
   * and the previously shown rank when the snapshot has no such row.
   */
  function RankOf(board: seq<Entry>, name: string, prior: Option<int>): (r: Option<int>)
    ensures forall i :: 0 <= i < |board| && board[i].username == name
                          && (forall j :: 0 <= j < i ==> board[j].username != name)
                        ==> r == Some(board[i].rank)
    ensures (forall i :: 0 <= i < |board| ==> board[i].username != name) ==> r == prior
  {
    match FindFirst(board, name)
    case Some(i) => Some(board[i].rank)
    case None => prior
  }

  /** In a snapshot with one row per user, the shown rank is that user's row's rank, wherever it is. */
  lemma RankOfUniqueRow(board: seq<Entry>, name: string, i: int, prior: Option<int>)
    requires UniqueNames(board)
    requires 0 <= i < |board| && board[i].username == name
    ensures RankOf(board, name, prior) == Some(board[i].rank)
  {
  }
}
