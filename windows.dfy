/**
 * The places where Teeko2 is won, listed in the order in which `game_value`
 * and `heuristic_game_value` scan them: the 28 lines of four (10 horizontal,
 * 10 vertical, 4 "\" diagonals, 4 "/" diagonals) and the 9 centres of the 3x3
 * squares whose corners form the fifth kind of win.
 */
module Windows {
  import opened Board

  /** The way a line of four runs from its first cell. */
  datatype Direction = East | South | SouthEast | SouthWest

  datatype Line = Line(start: Pos, dir: Direction)

  /** The n-th cell of a line (n = 0 is its start). */
  function CellOf(l: Line, n: int): Pos
  {
    match l.dir
    case East => Pos(l.start.row, l.start.col + n)
    case South => Pos(l.start.row + n, l.start.col)
    case SouthEast => Pos(l.start.row + n, l.start.col + n)
    case SouthWest => Pos(l.start.row + n, l.start.col - n)
  }

  /** A line of four that lies on the board. */
  type Window = l: Line | InBounds(CellOf(l, 0)) && InBounds(CellOf(l, 3))
    witness Line(Pos(0, 0), East)

  /** Every cell of a window lies on the board, not only its two ends. */
  lemma WindowInBounds(w: Window, n: int)
    requires 0 <= n < 4
    ensures InBounds(CellOf(w, n))
  {
  }

  /** `for row in state: for i in range(2)`: the cells row[i..i+3]. */
  function Horizontal(): seq<Window>
  {
    [ HorizontalLine(0, 0), HorizontalLine(0, 1), HorizontalLine(1, 0), HorizontalLine(1, 1), HorizontalLine(2, 0),
      HorizontalLine(2, 1), HorizontalLine(3, 0), HorizontalLine(3, 1), HorizontalLine(4, 0), HorizontalLine(4, 1) ]
  }

  /** The horizontal line of row row that starts in column i. */
  function HorizontalLine(row: int, i: int): Window
    requires 0 <= row < 5 && 0 <= i < 2
  {
    Line(Pos(row, i), East)
  }

  /** `for col in range(5): for i in range(2)`: the cells state[i..i+3][col]. */
  function Vertical(): seq<Window>
  {
    [ VerticalLine(0, 0), VerticalLine(0, 1), VerticalLine(1, 0), VerticalLine(1, 1), VerticalLine(2, 0),
      VerticalLine(2, 1), VerticalLine(3, 0), VerticalLine(3, 1), VerticalLine(4, 0), VerticalLine(4, 1) ]
  }

  /** The vertical line of column col that starts in row i. */
  function VerticalLine(col: int, i: int): Window
    requires 0 <= col < 5 && 0 <= i < 2
  {
    Line(Pos(i, col), South)
  }

  /** `for r in range(2): for c in range(2)`: the cells state[r+n][c+n]. */
  function BackDiagonal(): seq<Window>
  {
    [BackDiagonalLine(0, 0), BackDiagonalLine(0, 1), BackDiagonalLine(1, 0), BackDiagonalLine(1, 1)]
  }

  /** The "\" diagonal that starts at (r, c). */
  function BackDiagonalLine(r: int, c: int): Window
    requires 0 <= r < 2 && 0 <= c < 2
  {
    Line(Pos(r, c), SouthEast)
  }

  /** `for r in range(2): for c in range(3, 5)`: the cells state[r+n][c-n]. */
  function ForwardDiagonal(): seq<Window>
  {
    [ForwardDiagonalLine(0, 3), ForwardDiagonalLine(0, 4), ForwardDiagonalLine(1, 3), ForwardDiagonalLine(1, 4)]
  }

  /** The "/" diagonal that starts at (r, c). */
  function ForwardDiagonalLine(r: int, c: int): Window
    requires 0 <= r < 2 && 3 <= c < 5
  {
    Line(Pos(r, c), SouthWest)
  }

  /** Every line of four on the board, in scan order. */
  function Lines(): (ls: seq<Window>)
    ensures |ls| == 28
  {
    Horizontal() + Vertical() + BackDiagonal() + ForwardDiagonal()
  }

  /** The centre of a 3x3 square on the board. */
  type Centre = p: Pos | 1 <= p.row <= 3 && 1 <= p.col <= 3 witness Pos(1, 1)

  /** `for r in range(1, 4): for c in range(1, 4)`. */
  function Centres(): (cs: seq<Centre>)
    ensures |cs| == 9
  {
    [Pos(1, 1), Pos(1, 2), Pos(1, 3), Pos(2, 1), Pos(2, 2), Pos(2, 3), Pos(3, 1), Pos(3, 2), Pos(3, 3)]
  }

  /**
   * The corners of the square around c, in the order the heuristic visits
   * them: four distinct cells on the board, each diagonally next to c.
   */
  function Corners(c: Centre): (cs: seq<Pos>)
    ensures |cs| == 4
    ensures forall n :: 0 <= n < 4 ==>
              && InBounds(cs[n]) && Distance(cs[n], c) == 1
              && (cs[n].row == c.row - 1 || cs[n].row == c.row + 1)
              && (cs[n].col == c.col - 1 || cs[n].col == c.col + 1)
    ensures forall m, n :: 0 <= m < n < 4 ==> cs[m] != cs[n]
  {
    [Pos(c.row + 1, c.col + 1), Pos(c.row + 1, c.col - 1), Pos(c.row - 1, c.col + 1), Pos(c.row - 1, c.col - 1)]
  }

  // Where each line of a family sits in that family's table.

  lemma HorizontalEntry(row: int, i: int)
    requires 0 <= row < 5 && 0 <= i < 2
    ensures 2 * row + i < |Horizontal()| && Horizontal()[2 * row + i] == Line(Pos(row, i), East)
  {
  }

  lemma VerticalEntry(col: int, i: int)
    requires 0 <= col < 5 && 0 <= i < 2
    ensures 2 * col + i < |Vertical()| && Vertical()[2 * col + i] == Line(Pos(i, col), South)
  {
  }

  lemma BackDiagonalEntry(r: int, c: int)
    requires 0 <= r < 2 && 0 <= c < 2
    ensures 2 * r + c < |BackDiagonal()| && BackDiagonal()[2 * r + c] == Line(Pos(r, c), SouthEast)
  {
  }

  lemma ForwardDiagonalEntry(r: int, c: int)
    requires 0 <= r < 2 && 3 <= c < 5
    ensures 2 * r + (c - 3) < |ForwardDiagonal()| && ForwardDiagonal()[2 * r + (c - 3)] == Line(Pos(r, c), SouthWest)
  {
  }

  // Where each line sits in the whole scan order.

  lemma HorizontalAt(row: int, i: int)
    requires 0 <= row < 5 && 0 <= i < 2
    ensures 2 * row + i < |Lines()| && Lines()[2 * row + i] == Line(Pos(row, i), East)
  {
  }

  lemma VerticalAt(col: int, i: int)
    requires 0 <= col < 5 && 0 <= i < 2
    ensures 10 + 2 * col + i < |Lines()| && Lines()[10 + 2 * col + i] == Line(Pos(i, col), South)
  {
  }

  lemma BackDiagonalAt(r: int, c: int)
    requires 0 <= r < 2 && 0 <= c < 2
    ensures 20 + 2 * r + c < |Lines()| && Lines()[20 + 2 * r + c] == Line(Pos(r, c), SouthEast)
  {
  }

  lemma ForwardDiagonalAt(r: int, c: int)
    requires 0 <= r < 2 && 3 <= c < 5
    ensures 24 + 2 * r + (c - 3) < |Lines()| && Lines()[24 + 2 * r + (c - 3)] == Line(Pos(r, c), SouthWest)
  {
  }

  lemma CentreAt(r: int, c: int)
    requires 1 <= r < 4 && 1 <= c < 4
    ensures 3 * (r - 1) + (c - 1) < |Centres()| && Centres()[3 * (r - 1) + (c - 1)] == Pos(r, c)
  {
  }
}
