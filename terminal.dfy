/**
 * Win detection (`game_value`): the first line of four equal pieces, scanned
 * horizontally, vertically, along "\" and along "/", decides the value (1 if
 * it is the player's colour, -1 otherwise); failing that, the first 3x3 square
 * with an empty centre and four equal pieces on its corners decides it; with
 * neither the value is 0.
 *
 * As the code is written, the square branch compares the (empty) centre with
 * the player's colour, so a square win is always reported as -1.
 */
module Terminal {
  import opened Board
  import opened Windows

  /** Four equal pieces on a window. */
  predicate LineWin(b: Board, w: Window)
  {
    && At(b, CellOf(w, 0)) != Empty
    && At(b, CellOf(w, 0)) == At(b, CellOf(w, 1))
    && At(b, CellOf(w, 1)) == At(b, CellOf(w, 2))
    && At(b, CellOf(w, 2)) == At(b, CellOf(w, 3))
  }

  /** An empty centre with four equal pieces on the corners of its square. */
  predicate CornerWin(b: Board, c: Centre)
  {
    && At(b, c) == Empty
    && At(b, Pos(c.row + 1, c.col + 1)) != Empty
    && At(b, Pos(c.row + 1, c.col + 1)) == At(b, Pos(c.row + 1, c.col - 1))
    && At(b, Pos(c.row + 1, c.col - 1)) == At(b, Pos(c.row - 1, c.col + 1))
    && At(b, Pos(c.row - 1, c.col + 1)) == At(b, Pos(c.row - 1, c.col - 1))
  }

  /** The first winning window of ws, if any. */
  function FirstLineWin(b: Board, ws: seq<Window>): Option<Window>
  {
    if ws == [] then None
    else if LineWin(b, ws[0]) then Some(ws[0])
    else FirstLineWin(b, ws[1..])
  }

  /** The first centre of cs whose square is won on its corners, if any. */
  function FirstCornerWin(b: Board, cs: seq<Centre>): Option<Centre>
  {
    if cs == [] then None
    else if CornerWin(b, cs[0]) then Some(cs[0])
    else FirstCornerWin(b, cs[1..])
  }

  /** What the line scans decide: the owner of the first winning line, seen from me, or 0. */
  function LineValue(b: Board, me: Piece): int
  {
    match FirstLineWin(b, Lines())
    case Some(w) => if At(b, w.start) == me then 1 else -1
    case None => 0
  }

  /** What the square scan decides, as written: it compares the centre of the square with me. */
  function CornerValue(b: Board, me: Piece): int
  {
    match FirstCornerWin(b, Centres())
    case Some(c) => if At(b, c) == me then 1 else -1
    case None => 0
  }

  /** The value `game_value` returns for the player whose colour is me. */
  function WinValue(b: Board, me: Piece): int
  {
    var lv := LineValue(b, me);
    if lv != 0 then lv else CornerValue(b, me)
  }

  lemma {:induction false} FirstLineWinAt(b: Board, ws: seq<Window>, k: nat)
    requires k < |ws| && LineWin(b, ws[k])
    requires forall j :: 0 <= j < k ==> !LineWin(b, ws[j])
    ensures FirstLineWin(b, ws) == Some(ws[k])
  {
    if k > 0 {
      assert !LineWin(b, ws[0]);
      FirstLineWinAt(b, ws[1..], k - 1);
    }
  }

  lemma {:induction false} FirstLineWinNone(b: Board, ws: seq<Window>)
    ensures FirstLineWin(b, ws) == None <==> forall j :: 0 <= j < |ws| ==> !LineWin(b, ws[j])
  {
    if ws != [] {
      FirstLineWinNone(b, ws[1..]);
      assert forall j :: 1 <= j < |ws| ==> ws[j] == ws[1..][j - 1];
    }
  }

  lemma {:induction false} FirstCornerWinAt(b: Board, cs: seq<Centre>, k: nat)
    requires k < |cs| && CornerWin(b, cs[k])
    requires forall j :: 0 <= j < k ==> !CornerWin(b, cs[j])
    ensures FirstCornerWin(b, cs) == Some(cs[k])
  {
    if k > 0 {
      assert !CornerWin(b, cs[0]);
      FirstCornerWinAt(b, cs[1..], k - 1);
    }
  }

  lemma {:induction false} FirstCornerWinNone(b: Board, cs: seq<Centre>)
    ensures FirstCornerWin(b, cs) == None <==> forall j :: 0 <= j < |cs| ==> !CornerWin(b, cs[j])
  {
    if cs != [] {
      FirstCornerWinNone(b, cs[1..]);
      assert forall j :: 1 <= j < |cs| ==> cs[j] == cs[1..][j - 1];
    }
  }

  /** The first winning window found is a winning window of ws. */
  lemma {:induction false} FirstLineWinWins(b: Board, ws: seq<Window>)
    ensures FirstLineWin(b, ws).Some? ==>
              FirstLineWin(b, ws).value in ws && LineWin(b, FirstLineWin(b, ws).value)
  {
    if ws != [] && !LineWin(b, ws[0]) {
      FirstLineWinWins(b, ws[1..]);
    }
  }

  /** The first won square found is a won square of cs. */
  lemma {:induction false} FirstCornerWinWins(b: Board, cs: seq<Centre>)
    ensures FirstCornerWin(b, cs).Some? ==>
              FirstCornerWin(b, cs).value in cs && CornerWin(b, FirstCornerWin(b, cs).value)
  {
    if cs != [] && !CornerWin(b, cs[0]) {
      FirstCornerWinWins(b, cs[1..]);
    }
  }

  /** The value is -1, 0 or 1, and it is 0 exactly when no line and no square is won. */
  lemma WinValueRange(b: Board, me: Piece)
    ensures WinValue(b, me) in {-1, 0, 1}
    ensures WinValue(b, me) == 0 <==>
              (forall k :: 0 <= k < |Lines()| ==> !LineWin(b, Lines()[k])) &&
              (forall k :: 0 <= k < |Centres()| ==> !CornerWin(b, Centres()[k]))
  {
    FirstLineWinNone(b, Lines());
    FirstCornerWinNone(b, Centres());
  }

  /**
   * The first winning line in scan order decides: 1 if its pieces are the
   * player's, -1 if they are the opponent's.
   */
  lemma FirstLineDecides(b: Board, me: Piece, k: nat)
    requires k < |Lines()| && LineWin(b, Lines()[k])
    requires forall j :: 0 <= j < k ==> !LineWin(b, Lines()[j])
    ensures WinValue(b, me) == (if At(b, Lines()[k].start) == me then 1 else -1)
    ensures At(b, Lines()[k].start) == Opponent(me) <==> WinValue(b, me) == -1
  {
    FirstLineWinAt(b, Lines(), k);
  }

  /**
   * A square won on its corners, with no line won, gives -1 whoever owns the
   * corners: the centre, which is empty, is what gets compared with my_piece.
   */
  lemma CornerWinIsLoss(b: Board, me: Piece, k: nat)
    requires forall j :: 0 <= j < |Lines()| ==> !LineWin(b, Lines()[j])
    requires k < |Centres()| && CornerWin(b, Centres()[k])
    ensures WinValue(b, me) == -1
    ensures WinValue(b, Opponent(me)) == -1
  {
    FirstLineWinNone(b, Lines());
    FirstCornerWinNone(b, Centres());
    FirstCornerWinWins(b, Centres());
  }

  /**
   * Swapping which colour is the player's negates the value when a line is won,
   * but not when only a square is won: then both colours get -1.
   */
  lemma SwapPlayer(b: Board, me: Piece)
    ensures (exists k :: 0 <= k < |Lines()| && LineWin(b, Lines()[k])) ==>
              WinValue(b, Opponent(me)) == -WinValue(b, me) != 0
    ensures (forall k :: 0 <= k < |Lines()| ==> !LineWin(b, Lines()[k])) &&
            (exists k :: 0 <= k < |Centres()| && CornerWin(b, Centres()[k])) ==>
              WinValue(b, Opponent(me)) == WinValue(b, me) == -1
  {
    FirstLineWinNone(b, Lines());
    FirstLineWinWins(b, Lines());
    if forall k :: 0 <= k < |Lines()| ==> !LineWin(b, Lines()[k]) {
      if exists k :: 0 <= k < |Centres()| && CornerWin(b, Centres()[k]) {
        var k :| 0 <= k < |Centres()| && CornerWin(b, Centres()[k]);
        CornerWinIsLoss(b, me, k);
      }
    }
  }

  /** The line scans have passed the first k lines without finding a win. */
  predicate NoLineWinBefore(b: Board, k: nat)
    requires k <= |Lines()|
  {
    forall j :: 0 <= j < k ==> !LineWin(b, Lines()[j])
  }

  /** The square scan has passed the first k centres without finding a win. */
  predicate NoCornerWinBefore(b: Board, k: nat)
    requires k <= |Centres()|
  {
    forall j :: 0 <= j < k ==> !CornerWin(b, Centres()[j])
  }

  /**
   * One step of the line scans at line k, the window w: a win there decides
   * the line verdict, otherwise the scan moves on.
   */
  lemma LineStep(b: Board, me: Piece, k: nat, w: Window)
    requires k < |Lines()| && Lines()[k] == w && NoLineWinBefore(b, k)
    ensures LineWin(b, w) ==> LineValue(b, me) == (if At(b, w.start) == me then 1 else -1)
    ensures !LineWin(b, w) ==> NoLineWinBefore(b, k + 1)
  {
    if LineWin(b, w) {
      FirstLineWinAt(b, Lines(), k);
    }
  }

  /** One step of the square scan at centre k, the centre c. */
  lemma CornerStep(b: Board, me: Piece, k: nat, c: Centre)
    requires k < |Centres()| && Centres()[k] == c && NoCornerWinBefore(b, k)
    ensures CornerWin(b, c) ==> CornerValue(b, me) == (if At(b, c) == me then 1 else -1)
    ensures !CornerWin(b, c) ==> NoCornerWinBefore(b, k + 1)
  {
    if CornerWin(b, c) {
      FirstCornerWinAt(b, Centres(), k);
    }
  }

  /** The comparisons of the horizontal scan at row[i] test the window starting there. */
  lemma HorizontalCells(b: Board, row: int, i: int)
    requires 0 <= row < 5 && 0 <= i < 2
    ensures LineWin(b, Line(Pos(row, i), East)) <==>
              b[row][i] != Empty && b[row][i] == b[row][i + 1] == b[row][i + 2] == b[row][i + 3]
  {
  }

  lemma VerticalCells(b: Board, col: int, i: int)
    requires 0 <= col < 5 && 0 <= i < 2
    ensures LineWin(b, Line(Pos(i, col), South)) <==>
              b[i][col] != Empty && b[i][col] == b[i + 1][col] == b[i + 2][col] == b[i + 3][col]
  {
  }

  lemma BackDiagonalCells(b: Board, r: int, c: int)
    requires 0 <= r < 2 && 0 <= c < 2
    ensures LineWin(b, Line(Pos(r, c), SouthEast)) <==>
              b[r][c] != Empty && b[r][c] == b[r + 1][c + 1] == b[r + 2][c + 2] == b[r + 3][c + 3]
  {
  }

  lemma ForwardDiagonalCells(b: Board, r: int, c: int)
    requires 0 <= r < 2 && 3 <= c < 5
    ensures LineWin(b, Line(Pos(r, c), SouthWest)) <==>
              b[r][c] != Empty && b[r][c] == b[r + 1][c - 1] == b[r + 2][c - 2] == b[r + 3][c - 3]
  {
  }

  lemma SquareCells(b: Board, r: int, c: int)
    requires 1 <= r < 4 && 1 <= c < 4
    ensures CornerWin(b, Pos(r, c)) <==>
              b[r][c] == Empty && b[r + 1][c + 1] != Empty &&
              b[r + 1][c + 1] == b[r + 1][c - 1] == b[r - 1][c + 1] == b[r - 1][c - 1]
  {
  }

  /**
   * `game_value`: the four line scans, then the square scan, each returning
   * as soon as it finds a win.
   */
  method GameValue(state: Board, me: Piece) returns (v: int)
    ensures v == WinValue(state, me)
  {
    v := HorizontalWins(state, me);
    if v != 0 {
      return;
    }
    v := VerticalWins(state, me);
    if v != 0 {
      return;
    }
    v := BackDiagonalWins(state, me);
    if v != 0 {
      return;
    }
    v := ForwardDiagonalWins(state, me);
    if v != 0 {
      return;
    }
    FirstLineWinNone(state, Lines());
    v := SquareWins(state, me);
  }

  /** The horizontal scan of `game_value`: the value of the first horizontal win, or 0 after the last. */
  method HorizontalWins(state: Board, me: Piece) returns (v: int)
    ensures v != 0 ==> v == LineValue(state, me)
    ensures v == 0 ==> NoLineWinBefore(state, 10)
  {
    for row := 0 to 5
      invariant NoLineWinBefore(state, 2 * row)
    {
      for i := 0 to 2
        invariant NoLineWinBefore(state, 2 * row + i)
      {
        HorizontalAt(row, i);
        HorizontalCells(state, row, i);
        LineStep(state, me, 2 * row + i, Line(Pos(row, i), East));
        if state[row][i] != Empty && state[row][i] == state[row][i + 1] == state[row][i + 2] == state[row][i + 3] {
          return if state[row][i] == me then 1 else -1;
        }
      }
    }
    return 0;
  }

  /** The vertical scan, after the horizontal one found nothing. */
  method VerticalWins(state: Board, me: Piece) returns (v: int)
    requires NoLineWinBefore(state, 10)
    ensures v != 0 ==> v == LineValue(state, me)
    ensures v == 0 ==> NoLineWinBefore(state, 20)
  {
    for col := 0 to 5
      invariant NoLineWinBefore(state, 10 + 2 * col)
    {
      for i := 0 to 2
        invariant NoLineWinBefore(state, 10 + 2 * col + i)
      {
        VerticalAt(col, i);
        VerticalCells(state, col, i);
        LineStep(state, me, 10 + 2 * col + i, Line(Pos(i, col), South));
        if state[i][col] != Empty && state[i][col] == state[i + 1][col] == state[i + 2][col] == state[i + 3][col] {
          return if state[i][col] == me then 1 else -1;
        }
      }
    }
    return 0;
  }

  /** The "\" scan, after the horizontal and vertical ones found nothing. */
  method BackDiagonalWins(state: Board, me: Piece) returns (v: int)
    requires NoLineWinBefore(state, 20)
    ensures v != 0 ==> v == LineValue(state, me)
    ensures v == 0 ==> NoLineWinBefore(state, 24)
  {
    for r := 0 to 2
      invariant NoLineWinBefore(state, 20 + 2 * r)
    {
      for c := 0 to 2
        invariant NoLineWinBefore(state, 20 + 2 * r + c)
      {
        BackDiagonalAt(r, c);
        BackDiagonalCells(state, r, c);
        LineStep(state, me, 20 + 2 * r + c, Line(Pos(r, c), SouthEast));
        if state[r][c] != Empty && state[r][c] == state[r + 1][c + 1] == state[r + 2][c + 2] == state[r + 3][c + 3] {
          return if state[r][c] == me then 1 else -1;
        }
      }
    }
    return 0;
  }

  /** The "/" scan, the last of the line scans. */
  method ForwardDiagonalWins(state: Board, me: Piece) returns (v: int)
    requires NoLineWinBefore(state, 24)
    ensures v != 0 ==> v == LineValue(state, me)
    ensures v == 0 ==> NoLineWinBefore(state, 28)
  {
    for r := 0 to 2
      invariant NoLineWinBefore(state, 24 + 2 * r)
    {
      for c := 3 to 5
        invariant NoLineWinBefore(state, 24 + 2 * r + (c - 3))
      {
        ForwardDiagonalAt(r, c);
        ForwardDiagonalCells(state, r, c);
        LineStep(state, me, 24 + 2 * r + (c - 3), Line(Pos(r, c), SouthWest));
        if state[r][c] != Empty && state[r][c] == state[r + 1][c - 1] == state[r + 2][c - 2] == state[r + 3][c - 3] {
          return if state[r][c] == me then 1 else -1;
        }
      }
    }
    return 0;
  }

  /** The square scan: what the first square won on its corners gives, or 0 when there is none. */
  method SquareWins(state: Board, me: Piece) returns (v: int)
    ensures v == CornerValue(state, me)
  {
    // check 3x3 square corners wins
    for r := 1 to 4
      invariant NoCornerWinBefore(state, 3 * (r - 1))
    {
      for c := 1 to 4
        invariant NoCornerWinBefore(state, 3 * (r - 1) + (c - 1))
      {
        CentreAt(r, c);
        SquareCells(state, r, c);
        CornerStep(state, me, 3 * (r - 1) + (c - 1), Pos(r, c));
        if state[r][c] == Empty && state[r + 1][c + 1] != Empty &&
           state[r + 1][c + 1] == state[r + 1][c - 1] == state[r - 1][c + 1] == state[r - 1][c - 1]
        {
          return if state[r][c] == me then 1 else -1;
        }
      }
    }
    FirstCornerWinNone(state, Centres());
    return 0; // no winner yet
  }
}
