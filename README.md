# Teeko2 player

A model of `Teeko2Player`, the computer player for Teeko2. Teeko2 is played on a 5x5 board with four pieces per side, black (`'b'`) and red (`'r'`).

- **Drop phase.** For the first eight plies, each side drops a piece on any empty cell.
- **Move phase.** After that, a side moves one of its pieces to an empty neighbouring cell, diagonals included.
- **Winning.** A side wins with four in a row, column or diagonal. It also wins with four pieces on the corners of a 3x3 square whose centre is empty.

The class exists twice in the repository, in `src/teeko.py` and `teeko2.py`. Their logic is the same line for line. They differ only in the depth that `make_move` searches to: 4 in `src/teeko.py` (line 49) and 3 in `teeko2.py` (line 48). One model covers both. The search depth is an argument of the `Teeko2Player` constructor: a player built with depth 4 models `src/teeko.py`, one built with depth 3 models `teeko2.py`. The table below cites `src/teeko.py`. The matching lines of `teeko2.py` are:

| method | `src/teeko.py` | `teeko2.py` |
|---|---|---|
| `__init__` | 23-30 | 11-16 |
| `make_move` | 32-59 | 18-59 |
| `succ` | 61-109 | 61-97 |
| `heuristic_game_value` | 138-172 | 101-135 |
| `max_value` | 191-209 | 138-155 |
| `opponent_move` | 221-235 | 170-184 |
| `place_piece` | 247-249 | 201-203 |
| `game_value` | 274-310 | 226-262 |

## Modules

The modules follow the player's methods:

- **`Board`**: cells, positions, the 5x5 board as a value (`seq<seq<Cell>>`), row-major scanning, piece counts and the drop-phase test. It also defines the two legal move shapes and `Placed`, the effect of `place_piece` on a board value.
- **`Windows`**: the 28 lines of four and the 9 centres of 3x3 squares. Each family is stored as a table in the order the nested loops visit it, with lemmas that tie each loop's indices to table entries.
- **`SuccessorStates`**: `succ`.
  - The spec function is `Successors(b, p)`, which applies the list of moves `Moves(b, p)` to b.
  - The loop-based methods (`CountPieces`, `FindCells`, `DropSuccessors`, `StepSuccessors`, `Succ`) are proved equal to it.
- **`Terminal`**: `game_value`.
  - The spec function is `WinValue`. The first winning line in scan order decides it, or else the first won square.
  - `GameValue` scans with early returns, split into one method per scan.
- **`Heuristic`**: `heuristic_game_value`.
  - The spec function is `HeuristicSum`. `HeuristicGameValue` accumulates it in the source's loops.
- **`Search`**: `max_value`.
  - The spec function is `Minimax`.
  - It is written over a `Game` record holding three function values: game value, heuristic and successors. `Teeko(me)` fills them with `WinValue`, `HeuristicSum` and `Successors`. This lets the search lemmas be proved once, for any game.
  - `MaxValue` is the recursive method. Its loops over the children (`MaxOver`, `MinOver`) keep the running best.
- **`MoveDiff`**: the cell-by-cell comparison in `make_move` that reads a move off the chosen board.
- **`Player`**: the `Teeko2Player` class.
  - Its board record is an `array2<Cell>` that `place_piece` and `opponent_move` update in place.
  - `make_move` searches and then reads off the move.
  - `opponent_move`'s exceptions are returned as `Option<IllegalMove>`.

**Scores are in hundredths.** `heuristic_game_value` returns `hgv / 100`, a float. The model keeps the integer `hgv` and scales every other score to match: a finished game scores `100 * game_value`, and the running best of a max or min node starts at -100 or +100. `|hgv| <= 148` (`Heuristic.HeuristicBound`), so comparing these integers orders scores exactly as the source's float comparisons do.

**Where the code and its documentation disagree, the model follows the code:**

- **Square wins.** `game_value`'s docstring says it returns 1 when the player wins. The square branch, though, compares the square's centre with `my_piece`, and the guard just before requires that centre to be empty. So a square won on its corners always gives -1, whoever owns it (`Terminal.CornerWinIsLoss`, `Terminal.SwapPlayer`).
- **Depth 0.** At depth 0, `max_value` returns the board it was given. So `make_move` with depth 0 returns `[]` rather than a move.
- **Ties.** Ties between children are broken in favour of the *last* child reaching the best score, because the comparisons are `>=` and `<=` (`Search.BestAttained`).
- **Max node with no good child.** A max node whose children all score below -1 returns `(-1, state)`, the node's own board (`Search.MaxNodeKeepsState`). `make_move` then returns `[]`.
- **Unchecked phase.** `opponent_move` does not check the phase of the game. A one-cell move is accepted whenever its cell is empty (`Player.CheckOpponentMoveAccepts`).

## Model

| member | source | states |
|---|---|---|
| `Board.Opponent` | src/teeko.py:30 | `opp` is the colour other than `my_piece` |
| `Board.Placed` | src/teeko.py:247-249 | after a move the destination holds the piece, the source (when named and distinct) is empty, and every other cell is unchanged |
| `Board.CellsWith` | src/teeko.py:94-98 | the cells found holding v are on the board, hold v and lie among the cells scanned so far |
| `Board.CellsWithComplete` | src/teeko.py:95-98 | the row-major scan lists every cell holding v, exactly once, in strictly increasing row-major order |
| `Board.OccupiedAndEmpty` | src/teeko.py:75-79 | the piece count and the number of empty cells add up to the number of cells scanned |
| `Board.CountAfterPlace` | src/teeko.py:87-88 | overwriting one cell changes the count of a cell kind by what arrived minus what left |
| `Board.CountsAfterMove` | src/teeko.py:104-107 | a drop adds one piece of the mover and removes one empty cell, leaving the opponent's count alone; a step keeps the count of every cell kind |
| `Board.PieceCountAfterMove` | src/teeko.py:75-80 | a drop raises the piece count by one and a step keeps it, so once the move phase starts it lasts |
| `Windows.WindowInBounds` | src/teeko.py:141-164 | every cell a line scan reads lies on the board |
| `Windows.Corners` | src/teeko.py:169 | the four corners of a square are four distinct cells on the board, each one row and one column away from the centre |
| `Windows.HorizontalAt` | src/teeko.py:275-276 | iteration (row, i) of the horizontal loops visits the line starting at (row, i) and running east, and it is line 2*row+i of the scan order |
| `Windows.VerticalAt` | src/teeko.py:283-284 | iteration (col, i) of the vertical loops visits the line starting at (i, col) and running south, and it is line 10+2*col+i |
| `Windows.BackDiagonalAt` | src/teeko.py:290-291 | iteration (r, c) of the "\" loops visits the line from (r, c) going south-east, and it is line 20+2*r+c |
| `Windows.ForwardDiagonalAt` | src/teeko.py:297-298 | iteration (r, c), c in 3..4, of the "/" loops visits the line from (r, c) going south-west, and it is line 24+2*r+(c-3) |
| `Windows.CentreAt` | src/teeko.py:304-305 | iteration (r, c) of the square loops visits centre 3*(r-1)+(c-1) |
| `SuccessorStates.TargetsUpTo` | src/teeko.py:100-102 | every target the 3x3 scan around a piece finds is on the board, empty and within Chebyshev distance 1 of the piece |
| `SuccessorStates.TargetsComplete` | src/teeko.py:100-102 | every empty on-board cell within distance 1 of the piece is found by the scan |
| `SuccessorStates.StepsFrom` | src/teeko.py:99-107 | every step generated takes a listed piece to an empty cell on the board within distance 1 |
| `SuccessorStates.Moves` | src/teeko.py:83-107 | every move behind a successor is a drop on an empty cell in the drop phase and a step of the mover's piece otherwise |
| `SuccessorStates.CountPieces` | src/teeko.py:75-79 | the counting loop returns the number of non-empty cells |
| `SuccessorStates.FindCells` | src/teeko.py:94-98 | the loop collecting the mover's pieces returns exactly the cells holding that piece, in row-major order |
| `SuccessorStates.DropSuccessors` | src/teeko.py:84-89 | the drop loop returns one board per empty cell, in row-major order, with the piece dropped there |
| `SuccessorStates.StepSuccessors` | src/teeko.py:100-107 | the scan around one piece returns, in scan order, the boards with that piece moved to each empty neighbour |
| `SuccessorStates.Succ` | src/teeko.py:61-109 | `succ` returns exactly `Successors(state, movePiece)`, with the phase chosen by the piece count against 8 |
| `SuccessorStates.DropPhaseSuccessors` | src/teeko.py:83-89 | with fewer than 8 pieces there are 25 minus the piece count successors, and successor i is the board with the piece dropped on the i-th empty cell in row-major order; nothing else changes |
| `SuccessorStates.SuccessorMove` | src/teeko.py:61-109 | every successor is the result of one of the generated moves: a drop in the drop phase, a step of the mover's piece after it |
| `SuccessorStates.MovePhaseSuccessors` | src/teeko.py:92-107 | with 8 or more pieces, every successor clears one cell that held the mover's piece and fills one empty on-board cell at distance 1, changes nothing else and keeps every count; there are at most 8 successors per piece, so at most 32 for four pieces |
| `SuccessorStates.MovePhaseComplete` | src/teeko.py:92-107 | conversely, every legal step of the mover in the move phase is generated, and its board is among the successors |
| `Terminal.GameValue` | src/teeko.py:263-310 | the scans return exactly `WinValue`: the first line win in scan order, otherwise the first square win, otherwise 0 |
| `Terminal.HorizontalWins` | src/teeko.py:275-280 | a non-zero result is the value of the first line win; 0 means none of the 10 horizontal lines is won |
| `Terminal.VerticalWins` | src/teeko.py:283-287 | after no horizontal win, a non-zero result is the first line win's value; 0 means none of the first 20 lines is won |
| `Terminal.BackDiagonalWins` | src/teeko.py:290-294 | likewise for the four "\" lines; 0 means none of the first 24 lines is won |
| `Terminal.ForwardDiagonalWins` | src/teeko.py:297-301 | likewise for the four "/" lines; 0 means no line at all is won |
| `Terminal.SquareWins` | src/teeko.py:304-310 | the square scan returns the value of the first won square as written (the empty centre compared with the player), or 0 |
| `Terminal.WinValueRange` | src/teeko.py:274-310 | the value is -1, 0 or 1, and it is 0 exactly when no line of four and no square with an empty centre and four equal corners exists |
| `Terminal.FirstLineDecides` | src/teeko.py:275-301 | the first won line in scan order decides: 1 if its pieces are the player's, -1 otherwise, and -1 exactly when they are the opponent's |
| `Terminal.CornerWinIsLoss` | src/teeko.py:304-308 | with no line won, a won square gives -1 to both colours |
| `Terminal.SwapPlayer` | src/teeko.py:274-308 | swapping the player's colour negates a line win's value but leaves a square win at -1 for both |
| `Heuristic.Val` | src/teeko.py:144-145 | a visited cell adds -1 for the opponent's piece, +1 for the player's and 0 exactly when it is empty |
| `Heuristic.LineVisit` | src/teeko.py:143-145 | every cell a line scan reads has indices within 0..4, and visiting it adds its value |
| `Heuristic.SquareVisit` | src/teeko.py:169-171 | every corner the square scan reads has indices within 0..4, and visiting it adds its value |
| `Heuristic.AddLine` | src/teeko.py:143-145 | the `for n in range(4)` loop adds the line's sum to the running total |
| `Heuristic.ScanHorizontal` | src/teeko.py:141-145 | the horizontal loops add the sum over the 10 horizontal lines |
| `Heuristic.ScanVertical` | src/teeko.py:148-152 | the vertical loops add the sum over the 10 vertical lines |
| `Heuristic.ScanBackDiagonal` | src/teeko.py:154-158 | the "\" loops add the sum over the 4 "\" lines |
| `Heuristic.ScanForwardDiagonal` | src/teeko.py:160-164 | the "/" loops add the sum over the 4 "/" lines |
| `Heuristic.ScanSquares` | src/teeko.py:166-171 | the square loops add the corners of exactly those squares whose centre is empty |
| `Heuristic.HeuristicGameValue` | src/teeko.py:138-172 | the method returns `HeuristicSum`, the integer `hgv` before the division by 100 |
| `Heuristic.HeuristicBound` | src/teeko.py:138-171 | hgv lies within -148..148, the number of cell visits in the loops |
| `Heuristic.HeuristicEmpty` | src/teeko.py:138-171 | a board without pieces, such as the starting board, is worth 0 |
| `Heuristic.HeuristicSwap` | src/teeko.py:138-171 | swapping `my_piece` and `opp` negates the sum |
| `Heuristic.CornerTermsFrame` | src/teeko.py:166-171 | on any two boards, the corner terms depend only on the centres and on the corners of squares whose centre is empty: boards agreeing there get equal corner terms, whatever sits on the corners of squares with an occupied centre |
| `Search.FinishedCase` | src/teeko.py:191-192 | a non-zero game value is returned, with the board unchanged, before the depth is looked at |
| `Search.LeafCase` | src/teeko.py:193-195 | with no win and depth 0 the heuristic is returned with the board unchanged |
| `Search.NodeCase` | src/teeko.py:196-209 | otherwise the result is the running best over the mover's successors, each searched at depth-1 with the turn flipped |
| `Search.BestDominates` | src/teeko.py:199-201 | the running best is at least as good as the starting score and every child's score (`>=` at a max node, `<=` at a min node) |
| `Search.BestAttained` | src/teeko.py:199-201 | the running best is the starting (score, board) when no child beats it, or else the last child reaching the best score, paired with that child's board |
| `Search.BestIn` | src/teeko.py:199-201 | the running best's board is the node's own board or one of the children seen |
| `Search.BestKeepsStart` | src/teeko.py:197-202 | with no successors, or none as good as the starting score, the node returns (-1, state) or (1, state) |
| `Search.MaxNodeKeepsState` | src/teeko.py:197-202 | a max node whose children all score below -1 returns (-1, state) |
| `Search.TeekoBounded` | src/teeko.py:263-310 | the game value lies within -1..1 and the heuristic within -148..148 hundredths |
| `Search.MinimaxBound` | src/teeko.py:175-209 | in any game with those bounds every search score lies within -148..148 hundredths |
| `Search.ScoreBound` | src/teeko.py:175-209 | every score `max_value` returns lies within -1.48..1.48 |
| `Search.MinimaxChoice` | src/teeko.py:191-209 | the chosen board is the node's own board or a successor for the side to move |
| `Search.TeekoChoice` | src/teeko.py:196-202 | the root's chosen board is the board itself or one of `succ(my_piece, state)` |
| `Search.FinishedGame` | src/teeko.py:191-192 | a board with a line or square won scores +1 or -1 at any depth and keeps the board |
| `Search.MaxValue` | src/teeko.py:175-209 | `max_value` returns exactly `Minimax` of the board, depth and turn |
| `Search.MaxNode` | src/teeko.py:196-202 | a max node returns the `Minimax` value |
| `Search.MinNode` | src/teeko.py:203-209 | a min node returns the `Minimax` value |
| `Search.MaxOver` | src/teeko.py:197-202 | the max loop, starting from (-1, state) and replacing on `>=`, returns the running best over all children |
| `Search.MinOver` | src/teeko.py:204-209 | the min loop, starting from (1, state) and replacing on `<=`, returns the running best over all children |
| `MoveDiff.Insert` | src/teeko.py:56 | Python's `list.insert`: x lands at index i, the rest keeps its order, and an index past the end appends |
| `MoveDiff.ReadMove` | src/teeko.py:52-58 | the comparison loops return `Diff(state, bestState)` |
| `MoveDiff.DiffUpToMove` | src/teeko.py:52-58 | partway through the comparison, the list holds the move's cells already passed, destination first |
| `MoveDiff.DiffRecoversMove` | src/teeko.py:52-58 | round trip: reading a drop or a step off the board it leads to gives back exactly `[dest]` or `[dest, source]` |
| `MoveDiff.DiffSame` | src/teeko.py:52-58 | comparing a board with itself gives `[]` |
| `Player.CheckOpponentMoveAccepts` | src/teeko.py:221-233 | a move is accepted exactly when its destination is empty and any source holds `opp` within distance 1; a one-cell move is accepted iff it is a drop, a two-cell move iff it is a step of `opp` |
| `Player.Teeko2Player.constructor` | src/teeko.py:23-30 | the player has the given colour, `opp` is the other one, and its board record is empty |
| `Player.Teeko2Player.PlacePiece` | src/teeko.py:247-249 | the board record becomes `Placed(old board, move, piece)`: source cleared first, then the destination set |
| `Player.Teeko2Player.OpponentMove` | src/teeko.py:221-235 | the error returned is the first failed check in source order (no `opp` piece at the source, source not adjacent, destination occupied); on an error the board is unchanged, otherwise it becomes the board after `opp`'s move |
| `Player.Teeko2Player.MakeMove` | src/teeko.py:32-59 | the move is the diff between the board and the board `max_value` chooses at the player's search depth |
| `Player.MakeMoveLegal` | src/teeko.py:32-59 | `make_move` returns `[]` with the board kept, or a legal move for the player (`[dest]` in the drop phase, `[dest, source]` after it) that `succ` generates and that leads exactly to the chosen board |

## Left out

- `main` and `print_board`, and the `print` calls inside `opponent_move`: console input and output only.
- `random.choice` in `__init__`: the player's colour is a constructor argument.
- The division `hgv / 100` in floating point: scores are kept in integer hundredths, which order exactly as the floats do, because `|hgv| <= 148`.
- The class attribute `board`, which every instance shares: each modelled player owns its own 5x5 array, and sharing across instances is not modelled.
- `copy.deepcopy`: successor boards are immutable values.
- The depth component of the tuples `max_value` returns (`(score, state, depth)`; a child's running best is a pair): nothing reads it, so `Choice` holds only the score and the board.
- Moves are lists of on-board positions (`Board.WellFormed`). Python's negative indices, which wrap around, and out-of-range indices, which raise `IndexError`, are not modelled. Neither is a `None` source row, which passes the first check of `opponent_move` and then fails on `abs(None - row)`.
- `opponent_move` raises `Exception`; here it returns `Some(IllegalMove)`, and the board is unchanged in that case, as it is in the source.
- The time the search takes (exponential in the depth) is not modelled.
