/**
 * The heuristic evaluation (`heuristic_game_value`): every cell of every line
 * of four, and every corner of every 3x3 square whose centre is empty, adds 1
 * when it holds the player's colour and subtracts 1 when it holds the
 * opponent's. The source returns this sum divided by 100; the model keeps the
 * integer sum, so its scores are in hundredths.
 */
module Heuristic {
  import opened Board
  import opened Windows

  /** What one visited cell adds: -1 for the opponent's colour, +1 for the player's. */
  function Val(c: Cell, me: Piece): (v: int)
    ensures v == (if c == Opponent(me) then -1 else 0) + (if c == me then 1 else 0)
    ensures -1 <= v <= 1 && (v == 0 <==> c == Empty)
  {
    if c == Opponent(me) then -1 else if c == me then 1 else 0
  }

  /** The sum over the first n cells of line w. */
  function LinePartial(b: Board, me: Piece, w: Window, n: nat): int
    requires n <= 4
  {
    if n == 0 then 0
    else LinePartial(b, me, w, n - 1) + Val(At(b, CellOf(w, n - 1)), me)
  }

  /** The sum over the first k lines of ws, one of the four families of lines. */
  function LinesUpTo(b: Board, me: Piece, ws: seq<Window>, k: nat): int
    requires k <= |ws|
  {
    if k == 0 then 0
    else LinesUpTo(b, me, ws, k - 1) + LinePartial(b, me, ws[k - 1], 4)
  }

  /** The sum over the first n corners of the square around c. */
  function SquarePartial(b: Board, me: Piece, c: Centre, n: nat): int
    requires n <= 4
  {
    if n == 0 then 0
    else SquarePartial(b, me, c, n - 1) + Val(At(b, Corners(c)[n - 1]), me)
  }

  /** What the square around c adds: its corners, only when its centre is empty. */
  function SquareScore(b: Board, me: Piece, c: Centre): int
  {
    if At(b, c) == Empty then SquarePartial(b, me, c, 4) else 0
  }

  /** The sum over the squares around the first k centres of the scan order. */
  function SquaresUpTo(b: Board, me: Piece, k: nat): int
    requires k <= |Centres()|
  {
    if k == 0 then 0
    else SquaresUpTo(b, me, k - 1) + SquareScore(b, me, Centres()[k - 1])
  }

  /** The sum over all the lines of the four families. */
  function AllLines(b: Board, me: Piece): int
  {
    LinesUpTo(b, me, Horizontal(), |Horizontal()|) + LinesUpTo(b, me, Vertical(), |Vertical()|) +
    LinesUpTo(b, me, BackDiagonal(), |BackDiagonal()|) + LinesUpTo(b, me, ForwardDiagonal(), |ForwardDiagonal()|)
  }

  /** The integer `hgv` that `heuristic_game_value` computes before dividing by 100. */
  function HeuristicSum(b: Board, me: Piece): int
  {
    AllLines(b, me) + SquaresUpTo(b, me, |Centres()|)
  }

  // Bounds: each visit moves the sum by at most one, and there are 28 * 4 + 9 * 4 = 148 visits.

  lemma {:induction false} LinePartialBound(b: Board, me: Piece, w: Window, n: nat)
    requires n <= 4
    ensures -(n as int) <= LinePartial(b, me, w, n) <= n
  {
    if n > 0 {
      LinePartialBound(b, me, w, n - 1);
    }
  }

  lemma {:induction false} LinesUpToBound(b: Board, me: Piece, ws: seq<Window>, k: nat)
    requires k <= |ws|
    ensures -4 * k <= LinesUpTo(b, me, ws, k) <= 4 * k
  {
    if k > 0 {
      LinesUpToBound(b, me, ws, k - 1);
      LinePartialBound(b, me, ws[k - 1], 4);
    }
  }

  lemma {:induction false} SquarePartialBound(b: Board, me: Piece, c: Centre, n: nat)
    requires n <= 4
    ensures -(n as int) <= SquarePartial(b, me, c, n) <= n
  {
    if n > 0 {
      SquarePartialBound(b, me, c, n - 1);
    }
  }

  lemma {:induction false} SquaresUpToBound(b: Board, me: Piece, k: nat)
    requires k <= |Centres()|
    ensures -4 * k <= SquaresUpTo(b, me, k) <= 4 * k
  {
    if k > 0 {
      SquaresUpToBound(b, me, k - 1);
      SquarePartialBound(b, me, Centres()[k - 1], 4);
    }
  }

  /** |hgv| is at most 148, the number of cell visits of the loops; so |hgv / 100| <= 1.48. */
  lemma HeuristicBound(b: Board, me: Piece)
    ensures -148 <= HeuristicSum(b, me) <= 148
  {
    LinesUpToBound(b, me, Horizontal(), |Horizontal()|);
    LinesUpToBound(b, me, Vertical(), |Vertical()|);
    LinesUpToBound(b, me, BackDiagonal(), |BackDiagonal()|);
    LinesUpToBound(b, me, ForwardDiagonal(), |ForwardDiagonal()|);
    SquaresUpToBound(b, me, |Centres()|);
  }

  // The empty board: every visited cell adds 0.

  lemma {:induction false} LinePartialEmpty(b: Board, me: Piece, w: Window, n: nat)
    requires forall p :: InBounds(p) ==> At(b, p) == Empty
    requires n <= 4
    ensures LinePartial(b, me, w, n) == 0
  {
    if n > 0 {
      LinePartialEmpty(b, me, w, n - 1);
      WindowInBounds(w, n - 1);
    }
  }

  lemma {:induction false} LinesUpToEmpty(b: Board, me: Piece, ws: seq<Window>, k: nat)
    requires forall p :: InBounds(p) ==> At(b, p) == Empty
    requires k <= |ws|
    ensures LinesUpTo(b, me, ws, k) == 0
  {
    if k > 0 {
      LinesUpToEmpty(b, me, ws, k - 1);
      LinePartialEmpty(b, me, ws[k - 1], 4);
    }
  }

  lemma {:induction false} SquarePartialEmpty(b: Board, me: Piece, c: Centre, n: nat)
    requires forall p :: InBounds(p) ==> At(b, p) == Empty
    requires n <= 4
    ensures SquarePartial(b, me, c, n) == 0
  {
    if n > 0 {
      SquarePartialEmpty(b, me, c, n - 1);
    }
  }

  lemma {:induction false} SquaresUpToEmpty(b: Board, me: Piece, k: nat)
    requires forall p :: InBounds(p) ==> At(b, p) == Empty
    requires k <= |Centres()|
    ensures SquaresUpTo(b, me, k) == 0
  {
    if k > 0 {
      SquaresUpToEmpty(b, me, k - 1);
      SquarePartialEmpty(b, me, Centres()[k - 1], 4);
    }
  }

  /** A board without pieces, such as the starting board, is worth 0 to either side. */
  lemma HeuristicEmpty(b: Board, me: Piece)
    requires forall p :: InBounds(p) ==> At(b, p) == Empty
    ensures HeuristicSum(b, me) == 0
  {
    AllLinesEmpty(b, me);
    SquaresUpToEmpty(b, me, |Centres()|);
  }

  lemma AllLinesEmpty(b: Board, me: Piece)
    requires forall p :: InBounds(p) ==> At(b, p) == Empty
    ensures AllLines(b, me) == 0
  {
    LinesUpToEmpty(b, me, Horizontal(), |Horizontal()|);
    LinesUpToEmpty(b, me, Vertical(), |Vertical()|);
    LinesUpToEmpty(b, me, BackDiagonal(), |BackDiagonal()|);
    LinesUpToEmpty(b, me, ForwardDiagonal(), |ForwardDiagonal()|);
  }

  // Swapping the roles of my_piece and opp negates every term.

  lemma {:induction false} LinePartialSwap(b: Board, me: Piece, w: Window, n: nat)
    requires n <= 4
    ensures LinePartial(b, Opponent(me), w, n) == -LinePartial(b, me, w, n)
  {
    if n > 0 {
      LinePartialSwap(b, me, w, n - 1);
    }
  }

  lemma {:induction false} LinesUpToSwap(b: Board, me: Piece, ws: seq<Window>, k: nat)
    requires k <= |ws|
    ensures LinesUpTo(b, Opponent(me), ws, k) == -LinesUpTo(b, me, ws, k)
  {
    if k > 0 {
      LinesUpToSwap(b, me, ws, k - 1);
      LinePartialSwap(b, me, ws[k - 1], 4);
    }
  }

  lemma {:induction false} SquarePartialSwap(b: Board, me: Piece, c: Centre, n: nat)
    requires n <= 4
    ensures SquarePartial(b, Opponent(me), c, n) == -SquarePartial(b, me, c, n)
  {
    if n > 0 {
      SquarePartialSwap(b, me, c, n - 1);
    }
  }

  lemma {:induction false} SquaresUpToSwap(b: Board, me: Piece, k: nat)
    requires k <= |Centres()|
    ensures SquaresUpTo(b, Opponent(me), k) == -SquaresUpTo(b, me, k)
  {
    if k > 0 {
      SquaresUpToSwap(b, me, k - 1);
      SquarePartialSwap(b, me, Centres()[k - 1], 4);
    }
  }

  /** What the board is worth to one side is minus what it is worth to the other. */
  lemma HeuristicSwap(b: Board, me: Piece)
    ensures HeuristicSum(b, Opponent(me)) == -HeuristicSum(b, me)
  {
    LinesUpToSwap(b, me, Horizontal(), |Horizontal()|);
    LinesUpToSwap(b, me, Vertical(), |Vertical()|);
    LinesUpToSwap(b, me, BackDiagonal(), |BackDiagonal()|);
    LinesUpToSwap(b, me, ForwardDiagonal(), |ForwardDiagonal()|);
    SquaresUpToSwap(b, me, |Centres()|);
  }

  // Only squares with an empty centre contribute corner terms.

  lemma {:induction false} SquarePartialFrame(a: Board, b: Board, me: Piece, c: Centre, n: nat)
    requires n <= 4
    requires forall m :: 0 <= m < 4 ==> At(a, Corners(c)[m]) == At(b, Corners(c)[m])
    ensures SquarePartial(a, me, c, n) == SquarePartial(b, me, c, n)
  {
    if n > 0 {
      SquarePartialFrame(a, b, me, c, n - 1);
    }
  }

  lemma {:induction false} SquaresUpToFrame(a: Board, b: Board, me: Piece, k: nat)
    requires k <= |Centres()|
    requires forall j :: 0 <= j < k ==> At(a, Centres()[j]) == At(b, Centres()[j])
    requires forall j, m :: 0 <= j < k && 0 <= m < 4 && At(a, Centres()[j]) == Empty ==>
               At(a, Corners(Centres()[j])[m]) == At(b, Corners(Centres()[j])[m])
    ensures SquaresUpTo(a, me, k) == SquaresUpTo(b, me, k)
  {
    if k > 0 {
      SquaresUpToFrame(a, b, me, k - 1);
      var c := Centres()[k - 1];
      if At(a, c) == Empty {
        SquarePartialFrame(a, b, me, c, 4);
      }
    }
  }

  /**
   * The corner terms depend only on the centres and on the corners of the
   * squares whose centre is empty: two boards that agree there get the same
   * corner terms, whatever the corners of squares with an occupied centre hold.
   */
  lemma CornerTermsFrame(a: Board, b: Board, me: Piece)
    requires forall j :: 0 <= j < |Centres()| ==> At(a, Centres()[j]) == At(b, Centres()[j])
    requires forall j, m :: 0 <= j < |Centres()| && 0 <= m < 4 && At(a, Centres()[j]) == Empty ==>
               At(a, Corners(Centres()[j])[m]) == At(b, Corners(Centres()[j])[m])
    ensures HeuristicSum(a, me) - AllLines(a, me) == HeuristicSum(b, me) - AllLines(b, me)
  {
    SquaresUpToFrame(a, b, me, |Centres()|);
  }

  // Steps of the loops of `heuristic_game_value`.

  /** Visiting cell n of line w, which is the cell (r, c). */
  lemma LineVisit(b: Board, me: Piece, w: Window, n: nat, r: int, c: int)
    requires n < 4 && CellOf(w, n) == Pos(r, c)
    ensures 0 <= r < 5 && 0 <= c < 5
    ensures LinePartial(b, me, w, n + 1) ==
            LinePartial(b, me, w, n) + (if b[r][c] == Opponent(me) then -1 else 0) + (if b[r][c] == me then 1 else 0)
  {
    assert InBounds(CellOf(w, n)) by { WindowInBounds(w, n); }
  }

  /** Leaving line k of ws, the window w. */
  lemma LineDone(b: Board, me: Piece, ws: seq<Window>, k: nat, w: Window)
    requires k < |ws| && ws[k] == w
    ensures LinesUpTo(b, me, ws, k + 1) == LinesUpTo(b, me, ws, k) + LinePartial(b, me, w, 4)
  {
  }

  /** Visiting corner n of the square around centre, which is the cell (r, c). */
  lemma SquareVisit(b: Board, me: Piece, centre: Centre, n: nat, r: int, c: int)
    requires n < 4 && Corners(centre)[n] == Pos(r, c)
    ensures 0 <= r < 5 && 0 <= c < 5
    ensures SquarePartial(b, me, centre, n + 1) ==
            SquarePartial(b, me, centre, n) + (if b[r][c] == Opponent(me) then -1 else 0) + (if b[r][c] == me then 1 else 0)
  {
  }

  /** Leaving square k, around centre. */
  lemma SquareDone(b: Board, me: Piece, k: nat, centre: Centre)
    requires k < |Centres()| && Centres()[k] == centre
    ensures SquaresUpTo(b, me, k + 1) ==
            SquaresUpTo(b, me, k) + (if At(b, centre) == Empty then SquarePartial(b, me, centre, 4) else 0)
  {
  }
  /**
   * `heuristic_game_value`, up to the final division by 100: the four line
   * scans visit each cell of each line, then the square scan visits the
   * corners of each square whose centre is empty.
   */
  method HeuristicGameValue(state: Board, me: Piece) returns (hgv: int)
    ensures hgv == HeuristicSum(state, me)
  {
    hgv := 0;
    hgv := ScanHorizontal(state, me, hgv);
    hgv := ScanVertical(state, me, hgv);
    hgv := ScanBackDiagonal(state, me, hgv);
    hgv := ScanForwardDiagonal(state, me, hgv);
    hgv := ScanSquares(state, me, hgv);
  }

  /**
   * The body shared by the four line scans: `for n in range(4)` over the cells
   * of one line, -1 for each of `opp`'s pieces and +1 for each of `my_piece`'s.
   */
  method AddLine(state: Board, me: Piece, w: Window, start: int) returns (hgv: int)
    ensures hgv == start + LinePartial(state, me, w, 4)
  {
    var opp := Opponent(me);
    hgv := start;
    for n := 0 to 4
      invariant hgv == start + LinePartial(state, me, w, n)
    {
      var p := CellOf(w, n);
      LineVisit(state, me, w, n, p.row, p.col);
      if state[p.row][p.col] == opp { hgv := hgv - 1; }
      if state[p.row][p.col] == me { hgv := hgv + 1; }
    }
  }

  /** The `check horizontal` loops: add every cell of every line of the family. */
  method ScanHorizontal(state: Board, me: Piece, start: int) returns (hgv: int)
    ensures hgv == start + LinesUpTo(state, me, Horizontal(), |Horizontal()|)
  {
    hgv := start;
    for row := 0 to 5
      invariant hgv == start + LinesUpTo(state, me, Horizontal(), 2 * row)
    {
      for i := 0 to 2
        invariant hgv == start + LinesUpTo(state, me, Horizontal(), 2 * row + i)
      {
        var w: Window := Line(Pos(row, i), East);
        hgv := AddLine(state, me, w, hgv);
        HorizontalEntry(row, i);
        LineDone(state, me, Horizontal(), 2 * row + i, w);
      }
    }
  }

  /** The `check vertical` loops: add every cell of every line of the family. */
  method ScanVertical(state: Board, me: Piece, start: int) returns (hgv: int)
    ensures hgv == start + LinesUpTo(state, me, Vertical(), |Vertical()|)
  {
    hgv := start;
    for col := 0 to 5
      invariant hgv == start + LinesUpTo(state, me, Vertical(), 2 * col)
    {
      for i := 0 to 2
        invariant hgv == start + LinesUpTo(state, me, Vertical(), 2 * col + i)
      {
        var w: Window := Line(Pos(i, col), South);
        hgv := AddLine(state, me, w, hgv);
        VerticalEntry(col, i);
        LineDone(state, me, Vertical(), 2 * col + i, w);
      }
    }
  }

  /** The `check \ diagonal` loops: add every cell of every line of the family. */
  method ScanBackDiagonal(state: Board, me: Piece, start: int) returns (hgv: int)
    ensures hgv == start + LinesUpTo(state, me, BackDiagonal(), |BackDiagonal()|)
  {
    hgv := start;
    for r := 0 to 2
      invariant hgv == start + LinesUpTo(state, me, BackDiagonal(), 2 * r)
    {
      for c := 0 to 2
        invariant hgv == start + LinesUpTo(state, me, BackDiagonal(), 2 * r + c)
      {
        var w: Window := Line(Pos(r, c), SouthEast);
        hgv := AddLine(state, me, w, hgv);
        BackDiagonalEntry(r, c);
        LineDone(state, me, BackDiagonal(), 2 * r + c, w);
      }
    }
  }

  /** The `check / diagonal` loops: add every cell of every line of the family. */
  method ScanForwardDiagonal(state: Board, me: Piece, start: int) returns (hgv: int)
    ensures hgv == start + LinesUpTo(state, me, ForwardDiagonal(), |ForwardDiagonal()|)
  {
    hgv := start;
    for r := 0 to 2
      invariant hgv == start + LinesUpTo(state, me, ForwardDiagonal(), 2 * r)
    {
      for c := 3 to 5
        invariant hgv == start + LinesUpTo(state, me, ForwardDiagonal(), 2 * r + (c - 3))
      {
        var w: Window := Line(Pos(r, c), SouthWest);
        hgv := AddLine(state, me, w, hgv);
        ForwardDiagonalEntry(r, c);
        LineDone(state, me, ForwardDiagonal(), 2 * r + (c - 3), w);
      }
    }
  }

  /** check 3x3 square corners: adds the square scores to the line total. */
  method ScanSquares(state: Board, me: Piece, lines: int) returns (hgv: int)
    ensures hgv == lines + SquaresUpTo(state, me, |Centres()|)
  {
    var opp := Opponent(me);
    hgv := lines;
    for r := 1 to 4
      invariant hgv == lines + SquaresUpTo(state, me, 3 * (r - 1))
    {
      for c := 1 to 4
        invariant hgv == lines + SquaresUpTo(state, me, 3 * (r - 1) + (c - 1))
      {
        CentreAt(r, c);
        SquareDone(state, me, 3 * (r - 1) + (c - 1), Pos(r, c));
        if state[r][c] == Empty {
          var corners := [Pos(r + 1, c + 1), Pos(r + 1, c - 1), Pos(r - 1, c + 1), Pos(r - 1, c - 1)];
          assert corners == Corners(Pos(r, c));
          ghost var base := hgv;
          for j := 0 to 4
            invariant hgv == base + SquarePartial(state, me, Pos(r, c), j)
          {
            var n := corners[j];
            SquareVisit(state, me, Pos(r, c), j, n.row, n.col);
            if state[n.row][n.col] == opp { hgv := hgv - 1; }
            if state[n.row][n.col] == me { hgv := hgv + 1; }
          }
        }
      }
    }
  }
}
