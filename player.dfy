/**
 * The `Teeko2Player` object: its colour, the opponent's colour, its record of
 * the board (updated in place by `place_piece` and `opponent_move`), and
 * `make_move`, which searches with `max_value` and reads the chosen move
 * off the board the search returns.
 */
module Player {
  import opened Board
  import opened SuccessorStates
  import opened Search
  import opened MoveDiff

  /** The three exceptions `opponent_move` raises, in the order it checks for them. */
  datatype IllegalMove =
    | NoPieceThere   // "You don't have a piece there!"
    | NotAdjacent    // "Illegal move: Can only move to an adjacent space"
    | Occupied       // "Illegal move detected"

  /** `abs(x - y) > 1` for one coordinate. */
  predicate FarApart(x: int, y: int)
  {
    x - y > 1 || y - x > 1
  }

  /** What `opponent_move` decides about move m on board b, when the opponent plays opp. */
  function CheckOpponentMove(b: Board, m: seq<Pos>, opp: Piece): Option<IllegalMove>
    requires WellFormed(m)
  {
    if |m| > 1 && At(b, m[1]) != opp then Some(NoPieceThere)
    else if |m| > 1 && (FarApart(m[1].row, m[0].row) || FarApart(m[1].col, m[0].col)) then Some(NotAdjacent)
    else if At(b, m[0]) != Empty then Some(Occupied)
    else None
  }

  /**
   * `opponent_move` accepts exactly the moves onto an empty cell that, when
   * they name a source, take one of opp's pieces from a neighbouring cell:
   * a one-cell move is accepted iff it is a drop, a two-cell move iff it is a
   * step of opp. The phase of the game is not checked.
   */
  lemma CheckOpponentMoveAccepts(b: Board, m: seq<Pos>, opp: Piece)
    requires WellFormed(m)
    ensures CheckOpponentMove(b, m, opp) == None <==>
            At(b, m[0]) == Empty && (|m| > 1 ==> At(b, m[1]) == opp && Distance(m[0], m[1]) <= 1)
    ensures |m| == 1 ==> (CheckOpponentMove(b, m, opp) == None <==> IsDrop(b, m))
    ensures |m| == 2 ==> (CheckOpponentMove(b, m, opp) == None <==> IsStep(b, opp, m))
  {
  }

  class Teeko2Player {
    const myPiece: Piece
    const opp: Piece
    const searchDepth: nat
    /** The player's record of the board, indexed [row, col]. */
    const board: array2<Cell>

    ghost predicate Valid()
      reads this
    {
      board.Length0 == 5 && board.Length1 == 5 && opp == Opponent(myPiece)
    }

    /** The board record as a board value. */
    function Contents(): (b: Board)
      requires Valid()
      reads this, board
      ensures forall p :: InBounds(p) ==> At(b, p) == board[p.row, p.col]
    {
      seq(5, r requires 0 <= r < 5 reads board => seq(5, c requires 0 <= c < 5 reads board => board[r, c]))
    }

    /**
     * `__init__` with the colour that `random.choice` would pick given as
     * me; depth is the depth `make_move` searches to (4 in src/teeko.py, 3 in
     * teeko2.py). The board starts empty.
     */
    constructor (me: Piece, depth: nat)
      ensures Valid() && fresh(board)
      ensures myPiece == me && opp == Opponent(me) && searchDepth == depth
      ensures Contents() == EmptyBoard()
    {
      myPiece := me;
      opp := Opponent(me);
      searchDepth := depth;
      board := new Cell[5, 5]((r, c) => Empty);
      new;
      SameCells(Contents(), EmptyBoard());
    }

    /** `place_piece`: clear the source when the move names one, then put piece on the destination. */
    method PlacePiece(move: seq<Pos>, piece: Piece)
      requires Valid() && WellFormed(move)
      modifies board
      ensures Valid()
      ensures Contents() == Placed(old(Contents()), move, piece)
    {
      ghost var before := Contents();
      if |move| > 1 {
        board[move[1].row, move[1].col] := Empty;
      }
      board[move[0].row, move[0].col] := piece;
      SameCells(Contents(), Placed(before, move, piece));
    }

    /**
     * `opponent_move`: raise (here: return) the first failing check, or else
     * place the opponent's piece.
     */
    method OpponentMove(move: seq<Pos>) returns (err: Option<IllegalMove>)
      requires Valid() && WellFormed(move)
      modifies board
      ensures Valid()
      ensures err == CheckOpponentMove(old(Contents()), move, opp)
      ensures err == None ==> Contents() == Placed(old(Contents()), move, opp)
      ensures err != None ==> Contents() == old(Contents())
    {
      if |move| > 1 {
        var sourceRow := move[1].row;
        var sourceCol := move[1].col;
        if board[sourceRow, sourceCol] != opp {
          return Some(NoPieceThere);
        }
        if FarApart(sourceRow, move[0].row) || FarApart(sourceCol, move[0].col) {
          return Some(NotAdjacent);
        }
      }
      if board[move[0].row, move[0].col] != Empty {
        return Some(Occupied);
      }
      PlacePiece(move, opp);
      return None;
    }

    /**
     * `make_move`: search to searchDepth with the player to move, then read
     * the move off the chosen board, cell by cell in row-major order.
     */
    method MakeMove(state: Board) returns (move: seq<Pos>)
      requires Valid()
      ensures move == Diff(state, Minimax(Teeko(myPiece), state, searchDepth, true, myPiece).state)
    {
      var best := MaxValue(state, searchDepth, true, myPiece);
      move := ReadMove(state, best.state);
    }
  }

  /**
   * What `make_move` returns is either [] with the search keeping the board
   * itself (a finished game, depth 0, or every successor scored below -1),
   * or a legal move for me, a drop or a step as `succ` generates them, that
   * leads exactly to the board the search chose.
   */
  lemma MakeMoveLegal(state: Board, depth: nat, me: Piece)
    ensures var best := Minimax(Teeko(me), state, depth, true, me).state;
      var move := Diff(state, best);
      || (best == state && move == [])
      || (move in Moves(state, me) && Placed(state, move, me) == best &&
          (if IsDropPhase(state) then IsDrop(state, move) else IsStep(state, me, move)))
  {
    var best := Minimax(Teeko(me), state, depth, true, me).state;
    TeekoChoice(state, depth, me);
    if best == state {
      DiffSame(state, 25);
    } else {
      var m := SuccessorMove(state, me, best);
      DiffRecoversMove(state, me, m);
    }
  }
}
