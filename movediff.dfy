/**
 * How `make_move` turns the board chosen by the search back into a move: it
 * compares the current board with the chosen one cell by cell in row-major
 * order, inserting at index 1 each cell that became empty (a source) and at
 * index 0 each cell that was empty and became occupied (a destination).
 */
module MoveDiff {
  import opened Board

  /** Python's `list.insert(i, x)`: an index past the end appends. */
  function Insert(s: seq<Pos>, i: nat, x: Pos): (t: seq<Pos>)
    ensures |t| == |s| + 1
    ensures i <= |s| ==> t[i] == x && t[..i] == s[..i] && t[i + 1..] == s[i..]
    ensures i > |s| ==> t == s + [x]
  {
    var j := if i <= |s| then i else |s|;
    s[..j] + [x] + s[j..]
  }

  /** The move list after the first k cells of the row-major comparison of a with b. */
  function DiffUpTo(a: Board, b: Board, k: nat): seq<Pos>
    requires k <= 25
  {
    if k == 0 then []
    else
      var move := DiffUpTo(a, b, k - 1);
      var p := PosAt(k - 1);
      if At(a, p) == At(b, p) then move
      else if At(b, p) == Empty then Insert(move, 1, p)
      else if At(a, p) == Empty then Insert(move, 0, p)
      else move
  }

  /** Comparing cell (r, c), the cell after the first 5 * r + c. */
  lemma DiffStep(a: Board, b: Board, r: int, c: int)
    requires 0 <= r < 5 && 0 <= c < 5
    ensures var move := DiffUpTo(a, b, 5 * r + c);
      DiffUpTo(a, b, 5 * r + c + 1) ==
        if a[r][c] == b[r][c] then move
        else if b[r][c] == Empty then Insert(move, 1, Pos(r, c))
        else if a[r][c] == Empty then Insert(move, 0, Pos(r, c))
        else move
  {
    assert PosAt(5 * r + c) == Pos(r, c);
  }

  /** The move `make_move` reads off the two boards. */
  function Diff(a: Board, b: Board): seq<Pos>
  {
    DiffUpTo(a, b, 25)
  }

  /** The loops of `make_move` that compare state with bestState and build the move list. */
  method ReadMove(state: Board, bestState: Board) returns (move: seq<Pos>)
    ensures move == Diff(state, bestState)
  {
    move := [];
    for r := 0 to 5
      invariant move == DiffUpTo(state, bestState, 5 * r)
    {
      for c := 0 to 5
        invariant move == DiffUpTo(state, bestState, 5 * r + c)
      {
        DiffStep(state, bestState, r, c);
        if state[r][c] != bestState[r][c] {
          if bestState[r][c] == Empty {
            move := Insert(move, 1, Pos(r, c));   // source location
          } else if state[r][c] == Empty {
            move := Insert(move, 0, Pos(r, c));   // destination
          }
        }
      }
    }
  }

  /**
   * Midway through the comparison of b with the board after a drop or a
   * step m, the list holds those cells of m already passed, destination first.
   */
  lemma {:induction false} DiffUpToMove(b: Board, p: Piece, m: seq<Pos>, k: nat)
    requires IsDrop(b, m) || IsStep(b, p, m)
    requires k <= 25
    ensures DiffUpTo(b, Placed(b, m, p), k) ==
            (if Index(m[0]) < k then [m[0]] else []) + (if |m| > 1 && Index(m[1]) < k then [m[1]] else [])
  {
    if k > 0 {
      DiffUpToMove(b, p, m, k - 1);
      var q := PosAt(k - 1);
      var b' := Placed(b, m, p);
      if q == m[0] {
        assert At(b, q) == Empty && At(b', q) == p;
        assert |m| > 1 ==> Index(m[1]) != k - 1;
      } else if |m| > 1 && q == m[1] {
        assert At(b, q) == p && At(b', q) == Empty;
        assert Index(m[0]) != k - 1;
      } else {
        assert At(b', q) == At(b, q);
        assert Index(m[0]) != k - 1;
        assert |m| > 1 ==> Index(m[1]) != k - 1;
      }
    }
  }

  /** Round trip: reading a drop or a step back off the board it leads to gives the move itself. */
  lemma DiffRecoversMove(b: Board, p: Piece, m: seq<Pos>)
    requires IsDrop(b, m) || IsStep(b, p, m)
    ensures Diff(b, Placed(b, m, p)) == m
  {
    DiffUpToMove(b, p, m, 25);
    if |m| > 1 {
      assert m == [m[0], m[1]];
    } else {
      assert m == [m[0]];
    }
  }

  /** Comparing a board with itself finds nothing to move. */
  lemma {:induction false} DiffSame(b: Board, k: nat)
    requires k <= 25
    ensures DiffUpTo(b, b, k) == []
  {
    if k > 0 {
      DiffSame(b, k - 1);
    }
  }
}
