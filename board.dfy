/**
 * Cells, positions and 5x5 boards of Teeko2; the row-major order in which the
 * player scans a board; piece counting and the phase test; the two shapes of a
 * legal move; and the effect of `place_piece` on a board value.
 */
module Board {

  datatype Option<T> = None | Some(value: T)

  /** One cell of the board: ' ', 'b' or 'r'. */
  datatype Cell = Empty | Black | Red

  /** A side's colour: a cell content other than ' '. */
  type Piece = c: Cell | c != Empty witness Black

  /** The other side's colour, derived as the constructor derives `opp` from `my_piece`. */
  function Opponent(p: Piece): (q: Piece)
    ensures q != p
  {
    if p == Red then Black else Red
  }

  datatype Pos = Pos(row: int, col: int)

  predicate InBounds(p: Pos)
  {
    0 <= p.row < 5 && 0 <= p.col < 5
  }

  /** A board is five rows of five cells. */
  type Board = b: seq<seq<Cell>> | |b| == 5 && forall r :: 0 <= r < 5 ==> |b[r]| == 5
    witness seq(5, _ => seq(5, _ => Empty))

  function EmptyBoard(): Board { seq(5, _ => seq(5, _ => Empty)) }

  function At(b: Board, p: Pos): Cell
    requires InBounds(p)
  {
    b[p.row][p.col]
  }

  /** Two boards that agree on every cell are the same board. */
  lemma {:induction false} SameCells(a: Board, b: Board)
    requires forall p :: InBounds(p) ==> At(a, p) == At(b, p)
    ensures a == b
  {
    forall r | 0 <= r < 5
      ensures a[r] == b[r]
    {
      forall c | 0 <= c < 5
        ensures a[r][c] == b[r][c]
      {
        assert At(a, Pos(r, c)) == At(b, Pos(r, c));
      }
    }
  }

  /** The board with one cell overwritten (a deep copy with one assignment). */
  function Place(b: Board, p: Pos, v: Cell): (b': Board)
    requires InBounds(p)
    ensures At(b', p) == v
    ensures forall q :: InBounds(q) && q != p ==> At(b', q) == At(b, q)
  {
    b[p.row := b[p.row][p.col := v]]
  }

  /** The k-th cell in row-major order, the order of every scan in the player. */
  function PosAt(k: int): (p: Pos)
    requires 0 <= k < 25
    ensures InBounds(p) && 5 * p.row + p.col == k
  {
    var r := if k < 5 then 0 else if k < 10 then 1 else if k < 15 then 2 else if k < 20 then 3 else 4;
    Pos(r, k - 5 * r)
  }

  /** The row-major rank of a cell. */
  function Index(p: Pos): (k: int)
    requires InBounds(p)
    ensures 0 <= k < 25 && PosAt(k) == p
  {
    5 * p.row + p.col
  }

  /** Number of non-empty cells among the first k cells in row-major order. */
  function OccupiedUpTo(b: Board, k: nat): (n: nat)
    requires k <= 25
    ensures n <= k
  {
    if k == 0 then 0
    else OccupiedUpTo(b, k - 1) + (if At(b, PosAt(k - 1)) != Empty then 1 else 0)
  }

  /** The number of pieces on the board, as `succ` counts it. */
  function PieceCount(b: Board): nat
  {
    OccupiedUpTo(b, 25)
  }

  /** The drop phase lasts while fewer than eight pieces are on the board. */
  predicate IsDropPhase(b: Board)
  {
    PieceCount(b) < 8
  }

  /** The cells among the first k (row-major) that hold v, in row-major order. */
  function CellsWith(b: Board, v: Cell, k: nat): (ps: seq<Pos>)
    requires k <= 25
    ensures |ps| <= k
    ensures forall i :: 0 <= i < |ps| ==> InBounds(ps[i]) && Index(ps[i]) < k && At(b, ps[i]) == v
  {
    if k == 0 then []
    else CellsWith(b, v, k - 1) + (if At(b, PosAt(k - 1)) == v then [PosAt(k - 1)] else [])
  }

  /** How many cells of the board hold v. */
  function Count(b: Board, v: Cell): nat
  {
    |CellsWith(b, v, 25)|
  }

  /** CellsWith lists every matching cell exactly once, in strictly increasing row-major order. */
  lemma {:induction false} CellsWithComplete(b: Board, v: Cell, k: nat)
    requires k <= 25
    ensures forall p :: InBounds(p) && Index(p) < k && At(b, p) == v ==> p in CellsWith(b, v, k)
    ensures forall i, j :: 0 <= i < j < |CellsWith(b, v, k)| ==>
              Index(CellsWith(b, v, k)[i]) < Index(CellsWith(b, v, k)[j])
  {
    if k > 0 {
      var prev := CellsWith(b, v, k - 1);
      var ps := CellsWith(b, v, k);
      CellsWithComplete(b, v, k - 1);
      forall p | InBounds(p) && Index(p) < k && At(b, p) == v
        ensures p in ps
      {
        if Index(p) == k - 1 {
          assert PosAt(k - 1) == p;
          assert ps[|ps| - 1] == p;
        } else {
          assert p in prev;
        }
      }
      forall i, j | 0 <= i < j < |ps|
        ensures Index(ps[i]) < Index(ps[j])
      {
        assert ps[i] == prev[i];
        if j < |prev| {
          assert ps[j] == prev[j];
        } else {
          assert ps[j] == PosAt(k - 1);
        }
      }
    }
  }

  /** Occupied and empty cells partition the board. */
  lemma {:induction false} OccupiedAndEmpty(b: Board, k: nat)
    requires k <= 25
    ensures OccupiedUpTo(b, k) + |CellsWith(b, Empty, k)| == k
  {
    if k > 0 {
      OccupiedAndEmpty(b, k - 1);
    }
  }

  /** Overwriting one cell changes the count of a colour by what left and what arrived there. */
  lemma {:induction false} CountAfterPlace(b: Board, p: Pos, x: Cell, v: Cell, k: nat)
    requires InBounds(p) && k <= 25
    ensures |CellsWith(Place(b, p, x), v, k)| ==
            |CellsWith(b, v, k)| +
            (if Index(p) < k then (if x == v then 1 else 0) - (if At(b, p) == v then 1 else 0) else 0)
  {
    if k > 0 {
      CountAfterPlace(b, p, x, v, k - 1);
      if Index(p) == k - 1 {
        assert PosAt(k - 1) == p;
      }
    }
  }

  /** Chebyshev distance: the larger of the row and column differences. */
  function Distance(p: Pos, q: Pos): nat
  {
    var dr := if p.row < q.row then q.row - p.row else p.row - q.row;
    var dc := if p.col < q.col then q.col - p.col else p.col - q.col;
    if dr < dc then dc else dr
  }

  /**
   * A move is a list of cells: [dest] in the drop phase, [dest, source] in the move
   * phase. WellFormed says that `place_piece` can index every cell it uses.
   */
  predicate WellFormed(m: seq<Pos>)
  {
    |m| >= 1 && InBounds(m[0]) && (|m| > 1 ==> InBounds(m[1]))
  }

  /** A drop: one empty cell to fill. */
  predicate IsDrop(b: Board, m: seq<Pos>)
  {
    |m| == 1 && InBounds(m[0]) && At(b, m[0]) == Empty
  }

  /** A step of piece p: from a cell holding p to an empty cell at distance at most 1. */
  predicate IsStep(b: Board, p: Piece, m: seq<Pos>)
  {
    && |m| == 2 && InBounds(m[0]) && InBounds(m[1])
    && At(b, m[0]) == Empty && At(b, m[1]) == p
    && Distance(m[0], m[1]) <= 1
  }

  /**
   * `place_piece` on a board value: clear the source if the move names one, then
   * put the piece on the destination.
   */
  function Placed(b: Board, m: seq<Pos>, piece: Cell): (b': Board)
    requires WellFormed(m)
    ensures At(b', m[0]) == piece
    ensures |m| > 1 && m[1] != m[0] ==> At(b', m[1]) == Empty
    ensures forall q :: InBounds(q) && q != m[0] && (|m| > 1 ==> q != m[1]) ==> At(b', q) == At(b, q)
  {
    var cleared := if |m| > 1 then Place(b, m[1], Empty) else b;
    Place(cleared, m[0], piece)
  }

  /**
   * A drop adds one piece of the dropping colour and removes one empty cell; a step
   * leaves the number of cells of every kind unchanged.
   */
  lemma CountsAfterMove(b: Board, p: Piece, m: seq<Pos>)
    requires IsDrop(b, m) || IsStep(b, p, m)
    ensures IsDrop(b, m) ==>
              Count(Placed(b, m, p), p) == Count(b, p) + 1 &&
              Count(Placed(b, m, p), Empty) == Count(b, Empty) - 1 &&
              Count(Placed(b, m, p), Opponent(p)) == Count(b, Opponent(p))
    ensures IsStep(b, p, m) ==> forall v :: Count(Placed(b, m, p), v) == Count(b, v)
  {
    if IsDrop(b, m) {
      forall v {
        CountAfterPlace(b, m[0], p, v, 25);
      }
    } else {
      var cleared := Place(b, m[1], Empty);
      assert At(cleared, m[0]) == Empty;
      forall v
        ensures Count(Placed(b, m, p), v) == Count(b, v)
      {
        CountAfterPlace(b, m[1], Empty, v, 25);
        CountAfterPlace(cleared, m[0], p, v, 25);
      }
    }
  }

  /** The drop phase ends for good: a drop adds a piece and a step keeps the count. */
  lemma PieceCountAfterMove(b: Board, p: Piece, m: seq<Pos>)
    requires IsDrop(b, m) || IsStep(b, p, m)
    ensures IsDrop(b, m) ==> PieceCount(Placed(b, m, p)) == PieceCount(b) + 1
    ensures IsStep(b, p, m) ==> PieceCount(Placed(b, m, p)) == PieceCount(b)
  {
    var b' := Placed(b, m, p);
    CountsAfterMove(b, p, m);
    OccupiedAndEmpty(b, 25);
    OccupiedAndEmpty(b', 25);
    if IsStep(b, p, m) {
      assert Count(b', Empty) == Count(b, Empty);
    }
  }
}
