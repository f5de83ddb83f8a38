/**
 * The rules engine of the single-player game: winner detection over the eight
 * fixed lines of a 3x3 board, and the count of occupied cells.
 *
 * A board is a sequence of nine strings; the empty string is an empty cell and
 * any other string is a mark (the game uses "X" and "O", but the server accepts
 * whatever strings the client sends).
 */
module Rules {
  import opened Wrappers

  type Board = seq<string>

  /** The content of an empty cell. */
  const Empty: string := ""

  /** A cell index of the 3x3 board, row-major. */
  type Cell = i: int | 0 <= i < 9

  /** The eight winning lines, in the order the engine scans them: rows, columns, diagonals. */
  const Lines: seq<(Cell, Cell, Cell)> :=
    [ (0, 1, 2), (3, 4, 5), (6, 7, 8),
      (0, 3, 6), (1, 4, 7), (2, 5, 8),
      (0, 4, 8), (2, 4, 6) ]

  /** Line `k` holds the same non-empty mark in all three of its cells. */
  predicate LineWon(board: Board, k: int)
    requires |board| == 9 && 0 <= k < |Lines|
  {
    var (a, b, c) := Lines[k];
    board[a] != Empty && board[a] == board[b] && board[b] == board[c]
  }

  /** The mark in the first cell of line `k`. */
  function LineMark(board: Board, k: int): string
    requires |board| == 9 && 0 <= k < |Lines|
  {
    board[Lines[k].0]
  }

  /** Some line of the board is won. */
  predicate HasWinningLine(board: Board)
    requires |board| == 9
  {
    exists k :: 0 <= k < |Lines| && LineWon(board, k)
  }

  /** No cell of the board is empty. */
  predicate IsFull(board: Board)
  {
    Empty !in board
  }

  /**
   * Scans the lines from index `i` on and returns the mark of the first won line.
   * The result is the mark of the first won line at or after `i`, and is `None`
   * exactly when no line at or after `i` is won.
   */
  function ScanLines(board: Board, i: int): (r: Option<string>)
    requires |board| == 9 && 0 <= i <= |Lines|
    ensures r.None? <==> forall k :: i <= k < |Lines| ==> !LineWon(board, k)
    ensures r.Some? ==> r.value != Empty
    ensures r.Some? ==>
      exists k :: i <= k < |Lines| && LineWon(board, k) && LineMark(board, k) == r.value &&
        forall j :: i <= j < k ==> !LineWon(board, j)
    decreases |Lines| - i
  {
    if i == |Lines| then None
    else if LineWon(board, i) then Some(LineMark(board, i))
    else ScanLines(board, i + 1)
  }

  /**
   * The winner of the board: the mark of the first won line in the order rows,
   * columns, diagonals, or `None` when no line is won.
   */
  function CheckWinner(board: Board): (r: Option<string>)
    requires |board| == 9
    ensures r.None? <==> !HasWinningLine(board)
    ensures r.Some? ==> r.value != Empty
    ensures r.Some? ==>
      exists k :: 0 <= k < |Lines| && LineWon(board, k) && LineMark(board, k) == r.value &&
        forall j :: 0 <= j < k ==> !LineWon(board, j)
  {
    ScanLines(board, 0)
  }

  /**
   * When every won line carries the same mark `m`, the scan order does not
   * matter: the winner is `m`.
   */
  lemma WinnerUniqueMark(board: Board, m: string)
    requires |board| == 9
    requires HasWinningLine(board)
    requires forall k :: 0 <= k < |Lines| && LineWon(board, k) ==> LineMark(board, k) == m
    ensures CheckWinner(board) == Some(m)
  {
    var r := CheckWinner(board);
    var k :| 0 <= k < |Lines| && LineWon(board, k) && LineMark(board, k) == r.value;
  }

  /** The winner's mark is one of the board's cells. */
  lemma WinnerOnBoard(board: Board)
    requires |board| == 9
    requires CheckWinner(board).Some?
    ensures CheckWinner(board).value in board
  {
    var k :| 0 <= k < |Lines| && LineWon(board, k) && LineMark(board, k) == CheckWinner(board).value;
    assert board[Lines[k].0] in board;
  }

  /** The number of non-empty cells; full exactly when every cell is occupied. */
  function CountFilled(board: Board): (n: nat)
    ensures n <= |board|
    ensures n == |board| <==> IsFull(board)
  {
    if board == [] then 0
    else (if board[0] != Empty then 1 else 0) + CountFilled(board[1..])
  }

  /** Writing `p` at `pos` changes the count only by what was removed and what was added. */
  lemma {:induction false} CountFilledUpdate(board: Board, pos: int, p: string)
    requires 0 <= pos < |board|
    ensures CountFilled(board[pos := p]) ==
      CountFilled(board) - (if board[pos] != Empty then 1 else 0) + (if p != Empty then 1 else 0)
  {
    if pos > 0 {
      CountFilledUpdate(board[1..], pos - 1, p);
      assert board[pos := p][1..] == board[1..][pos - 1 := p];
    } else {
      assert board[pos := p][1..] == board[1..];
    }
  }
}
