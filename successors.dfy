/**
 * Successor generation (`succ`): in the drop phase a piece may be dropped on
 * any empty cell; afterwards one of the side's pieces moves to an empty cell
 * next to it (diagonals included). Successors are specified as the moves that
 * produce them, each applied to the board as `place_piece` would.
 */
module SuccessorStates {
  import opened Board

  /**
   * The empty cells found by the 3x3 scan around src (rows src.row-1..src.row+1,
   * then columns likewise), among its first j cells, clipped to the board.
   */
  function TargetsUpTo(b: Board, src: Pos, j: nat): (ts: seq<Pos>)
    requires j <= 9
    ensures |ts| <= j
    ensures forall i :: 0 <= i < |ts| ==>
              InBounds(ts[i]) && At(b, ts[i]) == Empty && Distance(ts[i], src) <= 1
  {
    if j == 0 then []
    else
      var t := ScanCell(src, j - 1);
      TargetsUpTo(b, src, j - 1) + (if InBounds(t) && At(b, t) == Empty then [t] else [])
  }

  /** The j-th cell of the 3x3 scan centred on src. */
  function ScanCell(src: Pos, j: int): Pos
    requires 0 <= j < 9
  {
    var dr := if j < 3 then 0 else if j < 6 then 1 else 2;
    Pos(src.row - 1 + dr, src.col - 1 + (j - 3 * dr))
  }

  /** The steps [dest, src] of the piece at src to each of the targets ts. */
  function StepsOf(src: Pos, ts: seq<Pos>): seq<seq<Pos>>
  {
    seq(|ts|, i requires 0 <= i < |ts| => [ts[i], src])
  }

  /** The steps of the pieces at srcs, taken one source after another. */
  function StepsFrom(b: Board, srcs: seq<Pos>): (ms: seq<seq<Pos>>)
    ensures forall i :: 0 <= i < |ms| ==>
              |ms[i]| == 2 && ms[i][1] in srcs &&
              InBounds(ms[i][0]) && At(b, ms[i][0]) == Empty && Distance(ms[i][0], ms[i][1]) <= 1
  {
    if srcs == [] then []
    else
      var last := srcs[|srcs| - 1];
      StepsFrom(b, srcs[..|srcs| - 1]) + StepsOf(last, TargetsUpTo(b, last, 9))
  }

  /** One drop [p] per cell of ps. */
  function Drops(ps: seq<Pos>): seq<seq<Pos>>
  {
    seq(|ps|, i requires 0 <= i < |ps| => [ps[i]])
  }

  /**
   * The moves behind the successors of `succ`, in the order it produces them:
   * every empty cell in row-major order during the drop phase, otherwise the
   * steps of p's pieces taken in row-major order.
   */
  function Moves(b: Board, p: Piece): (ms: seq<seq<Pos>>)
    ensures forall i :: 0 <= i < |ms| ==>
              if IsDropPhase(b) then IsDrop(b, ms[i]) else IsStep(b, p, ms[i])
  {
    if IsDropPhase(b) then Drops(CellsWith(b, Empty, 25))
    else StepsFrom(b, CellsWith(b, p, 25))
  }

  /** The boards the moves ms lead to. */
  function Boards(b: Board, ms: seq<seq<Pos>>, p: Piece): seq<Board>
    requires forall i :: 0 <= i < |ms| ==> WellFormed(ms[i])
  {
    seq(|ms|, i requires 0 <= i < |ms| => Placed(b, ms[i], p))
  }

  /** The successors of b when p is to move. */
  function Successors(b: Board, p: Piece): seq<Board>
  {
    Boards(b, Moves(b, p), p)
  }

  lemma BoardsAppend(b: Board, ms: seq<seq<Pos>>, m: seq<Pos>, p: Piece)
    requires forall i :: 0 <= i < |ms| ==> WellFormed(ms[i])
    requires WellFormed(m)
    ensures Boards(b, ms + [m], p) == Boards(b, ms, p) + [Placed(b, m, p)]
  {
    var l, r := Boards(b, ms + [m], p), Boards(b, ms, p) + [Placed(b, m, p)];
    assert |l| == |r|;
    forall i | 0 <= i < |l|
      ensures l[i] == r[i]
    {
      if i < |ms| {
        assert (ms + [m])[i] == ms[i];
      }
    }
  }

  lemma DropsAppend(ps: seq<Pos>, q: Pos)
    ensures Drops(ps + [q]) == Drops(ps) + [[q]]
  {
    var l, r := Drops(ps + [q]), Drops(ps) + [[q]];
    assert |l| == |r|;
    forall i | 0 <= i < |l|
      ensures l[i] == r[i]
    {
      if i < |ps| {
        assert (ps + [q])[i] == ps[i];
      }
    }
  }

  lemma StepsOfAppend(src: Pos, ts: seq<Pos>, t: Pos)
    ensures StepsOf(src, ts + [t]) == StepsOf(src, ts) + [[t, src]]
  {
    var l, r := StepsOf(src, ts + [t]), StepsOf(src, ts) + [[t, src]];
    assert |l| == |r|;
    forall i | 0 <= i < |l|
      ensures l[i] == r[i]
    {
      if i < |ts| {
        assert (ts + [t])[i] == ts[i];
      }
    }
  }

  /** The scan of cell j of a 3x3 block at rows r and columns c. */
  lemma ScanCellAt(src: Pos, r: int, c: int)
    requires src.row - 1 <= r <= src.row + 1 && src.col - 1 <= c <= src.col + 1
    ensures var j := 3 * (r - src.row + 1) + (c - src.col + 1);
            0 <= j < 9 && ScanCell(src, j) == Pos(r, c)
  {
  }

  lemma RowMajor(r: int, c: int)
    requires 0 <= r < 5 && 0 <= c < 5
    ensures PosAt(5 * r + c) == Pos(r, c)
  {
  }

  /** The counting loop at the head of `succ`. */
  method CountPieces(state: Board) returns (pieceCount: nat)
    ensures pieceCount == PieceCount(state)
  {
    pieceCount := 0;
    for r := 0 to 5
      invariant pieceCount == OccupiedUpTo(state, 5 * r)
    {
      for c := 0 to 5
        invariant pieceCount == OccupiedUpTo(state, 5 * r + c)
      {
        RowMajor(r, c);
        if state[r][c] != Empty {
          pieceCount := pieceCount + 1;
        }
      }
    }
  }

  /** Looking at cell (r, c), the cell after the first 5 * r + c. */
  lemma CellsWithStep(b: Board, v: Cell, r: int, c: int)
    requires 0 <= r < 5 && 0 <= c < 5
    ensures CellsWith(b, v, 5 * r + c + 1) == CellsWith(b, v, 5 * r + c) + (if b[r][c] == v then [Pos(r, c)] else [])
  {
    RowMajor(r, c);
  }

  /** The row-major scan that lists the cells holding v. */
  method FindCells(state: Board, v: Cell) returns (curr: seq<Pos>)
    ensures curr == CellsWith(state, v, 25)
  {
    curr := [];
    for r := 0 to 5
      invariant curr == CellsWith(state, v, 5 * r)
    {
      for c := 0 to 5
        invariant curr == CellsWith(state, v, 5 * r + c)
      {
        CellsWithStep(state, v, r, c);
        if state[r][c] == v {
          curr := curr + [Pos(r, c)];
        }
      }
    }
  }

  /** The drop successors for the empty cells among the first k. */
  function DropBoardsUpTo(b: Board, p: Piece, k: nat): seq<Board>
    requires k <= 25
  {
    Boards(b, Drops(CellsWith(b, Empty, k)), p)
  }

  lemma DropStep(b: Board, p: Piece, k: nat)
    requires k < 25
    ensures DropBoardsUpTo(b, p, k + 1) ==
            DropBoardsUpTo(b, p, k) + (if At(b, PosAt(k)) == Empty then [Place(b, PosAt(k), p)] else [])
  {
    var ps := CellsWith(b, Empty, k);
    if At(b, PosAt(k)) == Empty {
      DropsAppend(ps, PosAt(k));
      BoardsAppend(b, Drops(ps), [PosAt(k)], p);
    }
  }

  /** The drop-phase branch of `succ`: a copy with movePiece on each empty cell, row by row. */
  method DropSuccessors(movePiece: Piece, state: Board) returns (x: seq<Board>)
    ensures x == DropBoardsUpTo(state, movePiece, 25)
  {
    x := [];
    for r := 0 to 5
      invariant x == DropBoardsUpTo(state, movePiece, 5 * r)
    {
      for c := 0 to 5
        invariant x == DropBoardsUpTo(state, movePiece, 5 * r + c)
      {
        RowMajor(r, c);
        DropStep(state, movePiece, 5 * r + c);
        if state[r][c] == Empty {
          var newState := Place(state, Pos(r, c), movePiece);
          x := x + [newState];
        }
      }
    }
  }

  /** The step successors of the piece at src for the first j cells of its 3x3 scan. */
  function StepBoardsUpTo(b: Board, p: Piece, src: Pos, j: nat): seq<Board>
    requires InBounds(src) && j <= 9
  {
    Boards(b, StepsOf(src, TargetsUpTo(b, src, j)), p)
  }

  lemma StepStep(b: Board, p: Piece, src: Pos, j: nat)
    requires InBounds(src) && j < 9
    ensures var t := ScanCell(src, j);
            StepBoardsUpTo(b, p, src, j + 1) ==
            StepBoardsUpTo(b, p, src, j) +
            (if InBounds(t) && At(b, t) == Empty then [Place(Place(b, src, Empty), t, p)] else [])
  {
    var t := ScanCell(src, j);
    var ts := TargetsUpTo(b, src, j);
    if InBounds(t) && At(b, t) == Empty {
      StepsOfAppend(src, ts, t);
      BoardsAppend(b, StepsOf(src, ts), [t, src], p);
    }
  }

  /** StepStep at the cell (r, c) of the 3x3 scan around src. */
  lemma StepStepAt(b: Board, p: Piece, src: Pos, r: int, c: int)
    requires InBounds(src) && src.row - 1 <= r <= src.row + 1 && src.col - 1 <= c <= src.col + 1
    ensures var j := 3 * (r - src.row + 1) + (c - src.col + 1);
            0 <= j < 9 &&
            StepBoardsUpTo(b, p, src, j + 1) ==
            StepBoardsUpTo(b, p, src, j) +
            (if 0 <= r < 5 && 0 <= c < 5 && b[r][c] == Empty then [Place(Place(b, src, Empty), Pos(r, c), p)] else [])
  {
    ScanCellAt(src, r, c);
    StepStep(b, p, src, 3 * (r - src.row + 1) + (c - src.col + 1));
  }

  /**
   * The 3x3 scan around one piece in the move-phase branch of `succ`: for each
   * empty cell inside the board, a copy with the piece cleared and movePiece put there.
   */
  method StepSuccessors(movePiece: Piece, state: Board, piece: Pos) returns (x: seq<Board>)
    requires InBounds(piece)
    ensures x == StepBoardsUpTo(state, movePiece, piece, 9)
  {
    x := [];
    for r := piece.row - 1 to piece.row + 2
      invariant x == StepBoardsUpTo(state, movePiece, piece, 3 * (r - piece.row + 1))
    {
      for c := piece.col - 1 to piece.col + 2
        invariant x == StepBoardsUpTo(state, movePiece, piece, 3 * (r - piece.row + 1) + (c - piece.col + 1))
      {
        StepStepAt(state, movePiece, piece, r, c);
        if 0 <= r < 5 && 0 <= c < 5 && state[r][c] == Empty {
          // spot is within the board and empty
          var newState := Place(state, piece, Empty);
          newState := Place(newState, Pos(r, c), movePiece);
          x := x + [newState];
        }
      }
    }
  }

  lemma BoardsConcat(b: Board, ms: seq<seq<Pos>>, ns: seq<seq<Pos>>, p: Piece)
    requires forall i :: 0 <= i < |ms| ==> WellFormed(ms[i])
    requires forall i :: 0 <= i < |ns| ==> WellFormed(ns[i])
    ensures Boards(b, ms + ns, p) == Boards(b, ms, p) + Boards(b, ns, p)
  {
    var l, r := Boards(b, ms + ns, p), Boards(b, ms, p) + Boards(b, ns, p);
    assert |l| == |r|;
    forall i | 0 <= i < |l|
      ensures l[i] == r[i]
    {
      if i < |ms| {
        assert (ms + ns)[i] == ms[i];
      } else {
        assert (ms + ns)[i] == ns[i - |ms|];
      }
    }
  }

  /** The successors from the first k+1 sources are those from the first k, then those of source k. */
  lemma SourceStep(b: Board, p: Piece, srcs: seq<Pos>, k: nat)
    requires k < |srcs| && forall i :: 0 <= i < |srcs| ==> InBounds(srcs[i])
    ensures Boards(b, StepsFrom(b, srcs[..k + 1]), p) ==
            Boards(b, StepsFrom(b, srcs[..k]), p) + StepBoardsUpTo(b, p, srcs[k], 9)
  {
    assert srcs[..k + 1][..k] == srcs[..k];
    BoardsConcat(b, StepsFrom(b, srcs[..k]), StepsOf(srcs[k], TargetsUpTo(b, srcs[k], 9)), p);
  }

  /**
   * `succ`: count the pieces; in the drop phase fill each empty cell in turn,
   * otherwise collect the cells holding movePiece and, for each, scan its 3x3
   * block for empty cells inside the board and step the piece there.
   */
  method Succ(movePiece: Piece, state: Board) returns (x: seq<Board>)
    ensures x == Successors(state, movePiece)
  {
    var pieceCount := CountPieces(state);
    var dropPhase := true;
    if pieceCount >= 8 {
      dropPhase := false;
    }
    if dropPhase {
      x := DropSuccessors(movePiece, state);
    } else {
      // find the current location of every piece of movePiece
      var curr := FindCells(state, movePiece);
      x := [];
      for k := 0 to |curr|
        invariant x == Boards(state, StepsFrom(state, curr[..k]), movePiece)
      {
        var more := StepSuccessors(movePiece, state, curr[k]);
        SourceStep(state, movePiece, curr, k);
        x := x + more;
      }
      assert curr[..|curr|] == curr;
    }
  }

  /**
   * Drop phase: one successor per empty cell, in the row-major order of
   * CellsWith (whose order and completeness CellsWithComplete states);
   * successor i is the board with p dropped on the i-th empty cell.
   */
  lemma DropPhaseSuccessors(b: Board, p: Piece)
    requires IsDropPhase(b)
    ensures var e, S := CellsWith(b, Empty, 25), Successors(b, p);
      && |S| == |e| == 25 - PieceCount(b)
      && forall i :: 0 <= i < |e| ==> S[i] == Place(b, e[i], p)
  {
    var e := CellsWith(b, Empty, 25);
    var ms := Moves(b, p);
    var S := Successors(b, p);
    assert ms == Drops(e);
    forall i | 0 <= i < |e|
      ensures S[i] == Place(b, e[i], p)
    {
      assert ms[i] == [e[i]];
    }
    OccupiedAndEmpty(b, 25);
  }

  /** Each successor comes from one of the moves behind it: a drop in the drop phase, a step after. */
  lemma SuccessorMove(b: Board, p: Piece, y: Board) returns (m: seq<Pos>)
    requires y in Successors(b, p)
    ensures m in Moves(b, p) && Placed(b, m, p) == y
    ensures if IsDropPhase(b) then IsDrop(b, m) else IsStep(b, p, m)
  {
    var ms := Moves(b, p);
    var i :| 0 <= i < |ms| && Successors(b, p)[i] == y;
    m := ms[i];
  }

  /** The scan of an occupied cell finds at most eight targets: the centre is never one. */
  lemma {:induction false} TargetsOfOccupied(b: Board, src: Pos, j: nat)
    requires InBounds(src) && At(b, src) != Empty && j <= 9
    ensures |TargetsUpTo(b, src, j)| <= if j <= 4 then j else j - 1
  {
    if j > 0 {
      TargetsOfOccupied(b, src, j - 1);
      if j - 1 == 4 {
        assert ScanCell(src, 4) == src;
      }
    }
  }

  lemma {:induction false} StepsFromLength(b: Board, srcs: seq<Pos>)
    requires forall i :: 0 <= i < |srcs| ==> InBounds(srcs[i]) && At(b, srcs[i]) != Empty
    ensures |StepsFrom(b, srcs)| <= 8 * |srcs|
  {
    if srcs != [] {
      var last := srcs[|srcs| - 1];
      StepsFromLength(b, srcs[..|srcs| - 1]);
      TargetsOfOccupied(b, last, 9);
    }
  }

  /**
   * Move phase: every successor steps one piece of p to an empty cell inside the
   * board at Chebyshev distance 1, clearing its old cell and changing nothing
   * else; every count of cells is kept; each piece has at most eight steps, so
   * four pieces give at most 32 successors.
   */
  lemma MovePhaseSuccessors(b: Board, p: Piece)
    requires !IsDropPhase(b)
    ensures var ms := Moves(b, p);
      && |Successors(b, p)| == |ms| <= 8 * Count(b, p)
      && (Count(b, p) <= 4 ==> |ms| <= 32)
      && forall i :: 0 <= i < |ms| ==>
           && IsStep(b, p, ms[i])
           && Successors(b, p)[i] == Placed(b, ms[i], p)
           && At(Successors(b, p)[i], ms[i][1]) == Empty
           && At(Successors(b, p)[i], ms[i][0]) == p
           && (forall q :: InBounds(q) && q != ms[i][0] && q != ms[i][1] ==>
                 At(Successors(b, p)[i], q) == At(b, q))
           && (forall v :: Count(Successors(b, p)[i], v) == Count(b, v))
  {
    var ms := Moves(b, p);
    StepsFromLength(b, CellsWith(b, p, 25));
    forall i | 0 <= i < |ms|
      ensures forall v :: Count(Successors(b, p)[i], v) == Count(b, v)
    {
      CountsAfterMove(b, p, ms[i]);
    }
  }

  /** Every empty cell inside the board next to src is found by the scan, from its own turn on. */
  lemma {:induction false} TargetsComplete(b: Board, src: Pos, t: Pos, j: nat)
    requires InBounds(t) && At(b, t) == Empty && Distance(t, src) <= 1 && j <= 9
    requires 3 * (t.row - src.row + 1) + (t.col - src.col + 1) < j
    ensures t in TargetsUpTo(b, src, j)
  {
    var k := 3 * (t.row - src.row + 1) + (t.col - src.col + 1);
    if j - 1 == k {
      ScanCellAt(src, t.row, t.col);
    } else {
      TargetsComplete(b, src, t, j - 1);
    }
  }

  lemma StepsOfHas(src: Pos, ts: seq<Pos>, t: Pos)
    requires t in ts
    ensures [t, src] in StepsOf(src, ts)
  {
    var k :| 0 <= k < |ts| && ts[k] == t;
    assert StepsOf(src, ts)[k] == [t, src];
  }

  lemma {:induction false} StepsFromComplete(b: Board, srcs: seq<Pos>, m: seq<Pos>)
    requires |m| == 2 && m[1] in srcs && m[0] in TargetsUpTo(b, m[1], 9)
    ensures m in StepsFrom(b, srcs)
  {
    var last := srcs[|srcs| - 1];
    var init := srcs[..|srcs| - 1];
    var rest := StepsFrom(b, init);
    var mine := StepsOf(last, TargetsUpTo(b, last, 9));
    assert StepsFrom(b, srcs) == rest + mine;
    if m[1] == last {
      StepsOfHas(last, TargetsUpTo(b, last, 9), m[0]);
      assert m == [m[0], last];
      assert m in mine;
    } else {
      assert srcs == init + [last];
      assert m[1] in init;
      StepsFromComplete(b, init, m);
      assert m in rest;
    }
  }

  /** Move phase, conversely: every legal step of p is among the moves `succ` turns into successors. */
  lemma MovePhaseComplete(b: Board, p: Piece, m: seq<Pos>)
    requires !IsDropPhase(b) && IsStep(b, p, m)
    ensures m in Moves(b, p)
    ensures Placed(b, m, p) in Successors(b, p)
  {
    assert m in Moves(b, p) by {
      CellsWithComplete(b, p, 25);
      TargetsComplete(b, m[1], m[0], 9);
      StepsFromComplete(b, CellsWith(b, p, 25), m);
    }
    var k :| 0 <= k < |Moves(b, p)| && Moves(b, p)[k] == m;
    assert Successors(b, p)[k] == Placed(b, m, p);
  }
}
