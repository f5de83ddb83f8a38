/**
 * The move endpoint of the single-player game: validating, placing and judging
 * one move, and storing a record of every finished game.
 */
module Moves {
  import opened Wrappers
  import opened Rules

  /** A stored game record: the winner label ("X", "O" or "empate") and the move count. */
  datatype Game = Game(winner: Option<string>, moves: int)

  /** The error the endpoint answers with instead of a new board. */
  datatype HttpError = HttpError(statusCode: int, detail: string)

  /** The answer to an accepted move. */
  datatype MoveResponse = MoveResponse(board: Board, currentPlayer: string, gameOver: bool, status: string)

  /** An accepted move: the answer, and the record stored for it, if any. */
  datatype Outcome = Outcome(response: MoveResponse, record: Option<Game>)

  /** The label stored as the winner of a drawn game. */
  const DrawLabel: string := "empate"

  /** The rejection of a move onto an occupied cell (HTTP 400). */
  const Occupied: HttpError := HttpError(400, "Posición ocupada")

  function WinStatus(winner: string): string { "¡" + winner + " gana!" }

  const DrawStatus: string := "¡Empate!"

  function TurnStatus(next: string): string { "Turno: " + next }

  /** The player who moves after `player`: "O" after "X", and "X" after anything else. */
  function NextPlayer(player: string): (next: string)
    ensures next in {"X", "O"}
    ensures next == "O" <==> player == "X"
    ensures next != player || player !in {"X", "O"}
  {
    if player == "X" then "O" else "X"
  }

  /**
   * One move as a value: `player` plays `pos` on `board`.
   * A move onto an occupied cell is rejected. Otherwise exactly cell `pos`
   * changes, a won line ends the game for the mover (even on a full board), a
   * full board without a won line is a draw, and in every other case the turn
   * passes. A record is stored exactly when the game ends, with the number of
   * occupied cells as its move count.
   */
  function Step(board: Board, pos: int, player: string): (r: Result<Outcome, HttpError>)
    requires |board| == 9 && 0 <= pos < 9
    ensures r.Failure? <==> board[pos] != Empty
    ensures r.Failure? ==> r.error == Occupied
    ensures r.Success? ==>
      var b := r.value.response.board;
      |b| == 9 && b[pos] == player &&
      (forall i :: 0 <= i < 9 && i != pos ==> b[i] == board[i]) &&
      (player != Empty ==> CountFilled(b) == CountFilled(board) + 1)
    ensures r.Success? ==>
      var o := r.value;
      (o.response.gameOver <==> HasWinningLine(o.response.board) || IsFull(o.response.board)) &&
      (o.record.Some? <==> o.response.gameOver) &&
      (o.record.Some? ==> o.record.value.moves == CountFilled(o.response.board))
    ensures r.Success? && HasWinningLine(r.value.response.board) ==>
      var o := r.value;
      var w := CheckWinner(o.response.board).value;
      o.response.currentPlayer == player &&
      o.record == Some(Game(Some(w), CountFilled(o.response.board))) &&
      o.response.status == WinStatus(w)
    ensures r.Success? && !HasWinningLine(r.value.response.board) && IsFull(r.value.response.board) ==>
      var o := r.value;
      o.response.currentPlayer == player &&
      o.record == Some(Game(Some(DrawLabel), 9)) &&
      o.response.status == DrawStatus
    ensures r.Success? && !r.value.response.gameOver ==>
      var o := r.value;
      o.response.currentPlayer == NextPlayer(player) &&
      o.response.status == TurnStatus(NextPlayer(player))
  {
    if board[pos] != Empty then Failure(Occupied)
    else
      var b := board[pos := player];
      CountFilledUpdate(board, pos, player);
      var winner := CheckWinner(b);
      var moves := CountFilled(b);
      if winner.Some? then
        Success(Outcome(MoveResponse(b, player, true, WinStatus(winner.value)), Some(Game(winner, moves))))
      else if Empty !in b then
        Success(Outcome(MoveResponse(b, player, true, DrawStatus), Some(Game(Some(DrawLabel), moves))))
      else
        var next := NextPlayer(player);
        Success(Outcome(MoveResponse(b, next, false, TurnStatus(next)), None))
  }

  /** The record, if any, that an accepted move appends to the store. */
  function Recorded(o: Outcome): seq<Game>
  {
    if o.record.Some? then [o.record.value] else []
  }

  /** The game store: records are only ever appended. */
  class Database {
    var games: seq<Game>

    constructor ()
      ensures games == []
    {
      games := [];
    }

    /** Adds one record and commits it. */
    method Add(g: Game)
      modifies this
      ensures games == old(games) + [g]
    {
      games := games + [g];
    }
  }

  /**
   * The move endpoint: writes `player` into `board` at `pos` in place, stores a
   * record in `db` when the game ends, and answers as `Step` says.
   */
  method MakeMove(db: Database, board: array<string>, pos: int, player: string)
      returns (r: Result<MoveResponse, HttpError>)
    requires board.Length == 9 && 0 <= pos < 9
    modifies board, db
    ensures Step(old(board[..]), pos, player).Failure? ==>
      r == Failure(Occupied) && board[..] == old(board[..]) && db.games == old(db.games)
    ensures Step(old(board[..]), pos, player).Success? ==>
      var o := Step(old(board[..]), pos, player).value;
      r == Success(o.response) && board[..] == o.response.board &&
      db.games == old(db.games) + Recorded(o)
  {
    if board[pos] != Empty {
      return Failure(Occupied);
    }
    board[pos] := player;
    var b := board[..];
    var winner := CheckWinner(b);
    var moves := CountFilled(b);
    if winner.Some? {
      db.Add(Game(winner, moves));
      return Success(MoveResponse(b, player, true, WinStatus(winner.value)));
    }
    if Empty !in b {
      db.Add(Game(Some(DrawLabel), moves));
      return Success(MoveResponse(b, player, true, DrawStatus));
    }
    var next := NextPlayer(player);
    return Success(MoveResponse(b, next, false, TurnStatus(next)));
  }

  /** Every cell is empty, "X" or "O". */
  predicate PlainBoard(board: Board)
  {
    forall i :: 0 <= i < |board| ==> board[i] in {Empty, "X", "O"}
  }

  /**
   * On a board of "X" and "O" marks, played by "X" or "O", any stored record is
   * labelled "X", "O" or "empate".
   */
  lemma StepRecordLabel(board: Board, pos: int, player: string)
    requires |board| == 9 && 0 <= pos < 9
    requires PlainBoard(board) && player in {"X", "O"}
    requires Step(board, pos, player).Success?
    ensures var o := Step(board, pos, player).value;
      PlainBoard(o.response.board) &&
      (o.record.Some? ==> o.record.value.winner in {Some("X"), Some("O"), Some(DrawLabel)})
  {
    var o := Step(board, pos, player).value;
    var b := o.response.board;
    assert PlainBoard(b);
    if CheckWinner(b).Some? {
      WinnerOnBoard(b);
    }
  }
}
