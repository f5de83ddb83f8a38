/** The statistics endpoint: tallies of the stored game records by winner label. */
module Stats {
  import opened Wrappers
  import opened Moves

  /** The answer of the statistics endpoint. */
  datatype StatsResponse = StatsResponse(total: nat, xWins: nat, oWins: nat, draws: nat)

  /** The number of records whose winner is `mark`; never more than there are records. */
  function Tally(games: seq<Game>, mark: string): (n: nat)
    ensures n <= |games|
  {
    if games == [] then 0
    else (if games[0].winner == Some(mark) then 1 else 0) + Tally(games[1..], mark)
  }

  /** The positions of the records whose winner is `mark`. */
  ghost function Positions(games: seq<Game>, mark: string): set<int>
  {
    set i | 0 <= i < |games| && games[i].winner == Some(mark)
  }

  /** The tally of `mark` is the number of records whose winner is `mark`. */
  lemma {:induction false} TallyCountsRecords(games: seq<Game>, mark: string)
    ensures Tally(games, mark) == |Positions(games, mark)|
    decreases |games|
  {
    if games == [] {
      assert Positions(games, mark) == {};
    } else {
      var n := |games| - 1;
      var front := games[..n];
      assert games == front + [games[n]];
      TallyCountsRecords(front, mark);
      TallyAppend(front, games[n], mark);
      var last: set<int> := if games[n].winner == Some(mark) then {n} else {};
      assert Positions(games, mark) == Positions(front, mark) + last;
      assert n !in Positions(front, mark);
    }
  }

  /** The record carries one of the three labels the statistics count. */
  predicate Counted(g: Game)
  {
    g.winner in {Some("X"), Some("O"), Some(DrawLabel)}
  }

  /** The three tallies together never exceed the number of records. */
  lemma {:induction false} TalliesBounded(games: seq<Game>)
    ensures Tally(games, "X") + Tally(games, "O") + Tally(games, DrawLabel) <= |games|
  {
    if games != [] {
      TalliesBounded(games[1..]);
    }
  }

  /** The three tallies add up to the number of records exactly when every record is counted. */
  lemma {:induction false} TalliesComplete(games: seq<Game>)
    ensures Tally(games, "X") + Tally(games, "O") + Tally(games, DrawLabel) == |games| <==>
      forall i :: 0 <= i < |games| ==> Counted(games[i])
  {
    if games != [] {
      TalliesComplete(games[1..]);
      TalliesBounded(games[1..]);
      assert forall i :: 1 <= i < |games| ==> games[i] == games[1..][i - 1];
    }
  }

  /** Appending a record raises the tally of its own label by one and leaves the others alone. */
  lemma {:induction false} TallyAppend(games: seq<Game>, g: Game, mark: string)
    ensures Tally(games + [g], mark) == Tally(games, mark) + (if g.winner == Some(mark) then 1 else 0)
  {
    if games != [] {
      TallyAppend(games[1..], g, mark);
      assert (games + [g])[1..] == games[1..] + [g];
    }
  }

  /**
   * The statistics over the stored records: the total, and how many were won by
   * "X", won by "O" and drawn.
   */
  function GetStats(games: seq<Game>): (s: StatsResponse)
    ensures s.total == |games|
    ensures s.xWins == |Positions(games, "X")| && s.oWins == |Positions(games, "O")|
    ensures s.draws == |Positions(games, DrawLabel)|
    ensures s.xWins <= s.total && s.oWins <= s.total && s.draws <= s.total
    ensures s.xWins + s.oWins + s.draws <= s.total
    ensures s.xWins + s.oWins + s.draws == s.total <==> forall i :: 0 <= i < |games| ==> Counted(games[i])
  {
    TalliesBounded(games);
    TalliesComplete(games);
    TallyCountsRecords(games, "X");
    TallyCountsRecords(games, "O");
    TallyCountsRecords(games, DrawLabel);
    StatsResponse(|games|, Tally(games, "X"), Tally(games, "O"), Tally(games, DrawLabel))
  }

  /**
   * After an accepted move the statistics grow as the move's record says: the
   * total by one and the tally of the record's label by one when the game
   * ended, and not at all otherwise.
   */
  lemma StatsAfterStep(games: seq<Game>, board: Rules.Board, pos: int, player: string)
    requires |board| == 9 && 0 <= pos < 9
    requires Step(board, pos, player).Success?
    ensures var o := Step(board, pos, player).value;
      var before := GetStats(games);
      var after := GetStats(games + Recorded(o));
      (o.record.None? ==> after == before) &&
      (o.record.Some? ==>
        after.total == before.total + 1 &&
        after.xWins == before.xWins + (if o.record.value.winner == Some("X") then 1 else 0) &&
        after.oWins == before.oWins + (if o.record.value.winner == Some("O") then 1 else 0) &&
        after.draws == before.draws + (if o.record.value.winner == Some(DrawLabel) then 1 else 0))
  {
    var o := Step(board, pos, player).value;
    if o.record.Some? {
      var g := o.record.value;
      TallyAppend(games, g, "X");
      TallyAppend(games, g, "O");
      TallyAppend(games, g, DrawLabel);
    } else {
      assert games + Recorded(o) == games;
    }
  }

  /**
   * A store filled only by moves of "X" and "O" on boards of "X" and "O" marks
   * keeps its tallies summing to its total.
   */
  lemma StatsCompleteAfterStep(games: seq<Game>, board: Rules.Board, pos: int, player: string)
    requires |board| == 9 && 0 <= pos < 9
    requires PlainBoard(board) && player in {"X", "O"}
    requires Step(board, pos, player).Success?
    requires forall i :: 0 <= i < |games| ==> Counted(games[i])
    ensures var s := GetStats(games + Recorded(Step(board, pos, player).value));
      s.xWins + s.oWins + s.draws == s.total
  {
    StepRecordLabel(board, pos, player);
    var all := games + Recorded(Step(board, pos, player).value);
    assert forall i :: 0 <= i < |all| ==> Counted(all[i]);
  }
}
