/**
 * The best-score table: one record per difficulty, replaced only by a
 * strictly smaller attempt count, so a tie keeps the first achiever.
 */
module Scores {
  import opened Rules

  datatype Record = Record(player: string, bestAttempts: int)

  type ScoreTable = map<Difficulty, Record>

  /** The name recorded with a win: the trimmed input, or "Player" when it is empty. */
  function PlayerName(trimmed: string): (n: string)
    ensures n != []
    ensures trimmed == [] ==> n == "Player"
    ensures trimmed != [] ==> n == trimmed
  {
    if trimmed == [] then "Player" else trimmed
  }

  /** A win with `used` attempts is a new best for `d`. */
  predicate Beats(table: ScoreTable, d: Difficulty, used: int) {
    d !in table || used < table[d].bestAttempts
  }

  /** The table after recording a win; other difficulties are never touched. */
  function Merge(table: ScoreTable, d: Difficulty, player: string, used: int): (r: ScoreTable)
    ensures r.Keys == table.Keys + {d}
    ensures forall e :: e in table && e != d ==> r[e] == table[e]
    ensures Beats(table, d, used) ==> r[d] == Record(player, used)
    ensures !Beats(table, d, used) ==> r == table
    ensures r[d].bestAttempts == if d in table && table[d].bestAttempts <= used
                                 then table[d].bestAttempts else used
  {
    if Beats(table, d, used) then table[d := Record(player, used)] else table
  }

  /** A second win with the same count keeps the first record. */
  lemma TieKeepsFirst(table: ScoreTable, d: Difficulty, p: string, q: string, used: int)
    ensures Merge(Merge(table, d, p, used), d, q, used) == Merge(table, d, p, used)
  {
  }

  /** The table after a sequence of wins at one difficulty, oldest first. */
  function MergeAll(table: ScoreTable, d: Difficulty, wins: seq<Record>): ScoreTable
    decreases |wins|
  {
    if wins == [] then table
    else
      var w := wins[|wins| - 1];
      Merge(MergeAll(table, d, wins[..|wins| - 1]), d, w.player, w.bestAttempts)
  }

  /**
   * Starting from no entry, the record kept is the fewest attempts of all
   * wins, held by the first player who reached it.
   */
  lemma {:induction false} MergeAllKeepsFirstBest(table: ScoreTable, d: Difficulty, wins: seq<Record>)
    requires d !in table && wins != []
    ensures d in MergeAll(table, d, wins)
    ensures var best := MergeAll(table, d, wins)[d];
      && (forall j :: 0 <= j < |wins| ==> best.bestAttempts <= wins[j].bestAttempts)
      && exists i :: 0 <= i < |wins| && wins[i] == best &&
           forall j :: 0 <= j < i ==> wins[j].bestAttempts > best.bestAttempts
    decreases |wins|
  {
    var n := |wins|;
    var w := wins[n - 1];
    var front := wins[..n - 1];
    if front == [] {
      assert MergeAll(table, d, front) == table;
      assert MergeAll(table, d, wins)[d] == w;
    } else {
      MergeAllKeepsFirstBest(table, d, front);
      var prev := MergeAll(table, d, front)[d];
      var best := MergeAll(table, d, wins)[d];
      var i :| 0 <= i < |front| && front[i] == prev &&
               forall j :: 0 <= j < i ==> front[j].bestAttempts > prev.bestAttempts;
      if w.bestAttempts < prev.bestAttempts {
        assert best == w;
        assert forall j :: 0 <= j < n - 1 ==> wins[j] == front[j];
        assert wins[n - 1] == best;
      } else {
        assert best == prev;
        assert forall j :: 0 <= j < n - 1 ==> wins[j] == front[j];
        assert wins[i] == best;
      }
    }
  }

  /** Wins recorded at `d` leave the entries of every other difficulty as they were. */
  lemma {:induction false} MergeAllOtherKeys(table: ScoreTable, d: Difficulty, wins: seq<Record>, e: Difficulty)
    requires e != d
    ensures e in MergeAll(table, d, wins) <==> e in table
    ensures e in table ==> MergeAll(table, d, wins)[e] == table[e]
    decreases |wins|
  {
    if wins != [] {
      MergeAllOtherKeys(table, d, wins[..|wins| - 1], e);
    }
  }
}
