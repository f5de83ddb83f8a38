# Tic-tac-toe single-player rules, in Dafny

A model of the game logic of the single-player tic-tac-toe server in
`app/main.py`:

- **Winner detection** (`check_winner`). The board is nine strings, and `""` is an empty cell.
  The engine scans the eight fixed lines in the order rows, columns, diagonals.
  It returns the mark of the first line whose three cells hold the same non-empty string.
  If no line is won, it returns `None`.
- **The move endpoint** (`make_move`). It rejects a move onto an occupied cell with HTTP 400 "Posición ocupada".
  Otherwise it writes the player's mark into the board in place and counts the occupied cells.
  It then decides the outcome in this order:
  - a win: the game is over and the mover stays current;
  - a draw (a full board with no won line): the game is over;
  - otherwise: the turn passes from "X" to "O", and from anything else to "X".

  A finished game is stored as a `Game(winner, moves)` record.
- **The statistics endpoint** (`get_stats`). It gives the number of stored records.
  It also gives how many records have winner "X", "O" and "empate".

Modules:
- `Wrappers` (`wrappers.dfy`): the `Option` and `Result` types.
- `Rules` (`rules.dfy`): the lines, `CheckWinner` and the count of occupied cells.
- `Moves` (`moves.dfy`): two models of the move endpoint.
  - `Step` is a pure function.
  - `MakeMove` is a method that mutates an `array<string>` in place and appends records to a `Database` object.
    It is proved equal to `Step`.
- `Stats` (`stats.dfy`): the tallies, as functions over the sequence of stored records.

The code validates neither the board length nor the position.
So `|board| == 9` and `0 <= pos < 9` are preconditions.
The player is any string, as in the code, so "the count rises by one" is stated for a non-empty player.

With legal play, at most one mark can complete a line, so the scan order would not matter.
The server does not check that the board is legal, because the client sends it.
So `CheckWinner` returns the mark of the first won line, as the code does, and `WinnerUniqueMark` proves that the order does not matter when every won line carries the same mark.

## Model

| member | source | states |
|---|---|---|
| `Rules.ScanLines` | app/main.py:38-42 | From line `i` on, the scan returns `None` exactly when no later line is won. Otherwise it returns the non-empty mark of the first won line at or after `i`. |
| `Rules.CheckWinner` | app/main.py:32-42 | The winner is `None` iff none of the 8 lines holds one non-empty mark in all three cells. A returned mark is non-empty and belongs to a won line, and no earlier line in the order rows, columns, diagonals is won. |
| `Rules.WinnerUniqueMark` | app/main.py:33-41 | If some line is won and every won line carries mark `m`, the winner is `m`, whatever the scan order. |
| `Rules.WinnerOnBoard` | app/main.py:40-41 | A returned winner is the content of some cell of the board. |
| `Rules.CountFilled` | app/main.py:140 | The number of non-empty cells is at most the board size. It equals the board size exactly when no cell is `""`. |
| `Rules.CountFilledUpdate` | app/main.py:138-140 | Writing `p` at `pos` changes the count only by the cell removed and the cell added. |
| `Moves.NextPlayer` | app/main.py:158 | The next player is "O" exactly when the mover is "X", and "X" otherwise; it differs from the mover whenever the mover is "X" or "O". |
| `Moves.Step` | app/main.py:130-159 | A move fails with (400, "Posición ocupada") exactly when the cell is occupied. On success, only cell `pos` changes, to `player`, and the count of occupied cells rises by one for a non-empty player. The game is over iff a line is won or the board is full. A record is stored iff the game is over, and its `moves` equals the count of occupied cells. A won line beats a full board: the mover stays current and the first won line's mark is recorded. A draw keeps the mover current and records "empate" with 9 moves. Otherwise the turn passes to `NextPlayer`. |
| `Moves.Database.constructor` | app/main.py:20-21 | A freshly created store holds no records. |
| `Moves.Database.Add` | app/main.py:144-147 | Adding a record appends it to the stored records and changes nothing else. |
| `Moves.MakeMove` | app/main.py:130-159 | The in-place endpoint answers as `Step`. A rejected move leaves the board array and the store unchanged. An accepted move leaves the array equal to `Step`'s board and appends `Step`'s record, if any, to the store. |
| `Moves.StepRecordLabel` | app/main.py:139-156 | Take a board of "", "X" and "O" cells and a move by "X" or "O". The new board again holds only those cells, and any stored record is labelled "X", "O" or "empate". |
| `Stats.Tally` | app/main.py:166-168 | The number of records with a given winner label is at most the number of records. |
| `Stats.TallyCountsRecords` | app/main.py:166-168 | The tally of a label is the number of record positions whose winner is that label. |
| `Stats.TalliesBounded` | app/main.py:165-168 | `x_wins + o_wins + draws <= total`. |
| `Stats.TalliesComplete` | app/main.py:165-169 | `x_wins + o_wins + draws == total` iff every record's winner is "X", "O" or "empate". |
| `Stats.TallyAppend` | app/main.py:166-168 | Appending a record raises the tally of its own label by one and leaves every other tally unchanged. |
| `Stats.GetStats` | app/main.py:162-169 | `total` is the number of records, and `x_wins`, `o_wins` and `draws` are the numbers of records won by "X", won by "O" and labelled "empate". Each tally is at most `total`, and so is their sum. The sum equals `total` iff every record is labelled "X", "O" or "empate". |
| `Stats.StatsAfterStep` | app/main.py:142-156 | After an accepted move the statistics do not change if the game goes on. If the game ended, the total and the tally of the record's label each rise by one. |
| `Stats.StatsCompleteAfterStep` | app/main.py:150-156 | Take a store whose every record is labelled "X", "O" or "empate", and a move by "X" or "O" on a board of "X"/"O" marks. After the move, the tallies still sum to the total. |

## Left out

- FastAPI setup, routing, the startup hook and the request/response models' validation (app/main.py:23-30, 124-127) are framework plumbing. A request is modelled as its three fields.
- The HTML page and the JavaScript client (app/main.py:45-122) are user interface, not server logic.
- The database engine, sessions and commits (app/main.py:16-21, 144-147, 152-155, 163-164) are I/O. The store is modelled as a `Database` object whose `games` sequence grows by appending. `get_stats` is a function over that sequence.
- The `id` and `created_at` columns of `Game` (app/main.py:11, 14) are left out. The first is assigned by the database, and the second is a clock read.
- An out-of-range or negative `position` is excluded by precondition: Python's negative indexing and its `IndexError` are not modelled. So is a board that does not have nine cells.
- The multiplayer matchmaking, rooms and WebSocket protocol are not part of this model.
- `Moves.Database.constructor` models only a store created empty, at the very first start. `create_all` (app/main.py:21) runs at every startup and keeps the rows already stored; the other members take the stored records as any sequence, so they do not depend on this.
