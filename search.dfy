/**
 * `max_value`: depth-limited minimax over the successors of `succ`. A board
 * that is already won or lost scores its game value, a board at depth 0 its
 * heuristic value; otherwise a max node (the player to move) keeps the child
 * whose score is `>=` the running best, and a min node (the opponent to move)
 * the child whose score is `<=` it, both starting from a running best of
 * (-1, state) or (1, state).
 *
 * Scores are in hundredths: a game value v counts as 100 * v, and the
 * heuristic counts as its integer sum before the division by 100. Because the
 * heuristic sum lies in -148..148, comparing these integers orders the
 * scores exactly as the source's floating-point comparisons do.
 */
module Search {
  import opened Board
  import opened SuccessorStates
  import opened Windows
  import opened Terminal
  import opened Heuristic

  /** What `max_value` returns, without the depth component: a score and a board. */
  datatype Choice = Choice(score: int, state: Board)

  /**
   * What `max_value` asks of the game: the game value of a board for the
   * searching player, its heuristic value in hundredths, and the boards the
   * side p can move to.
   */
  datatype Game = Game(win: Board -> int, heuristic: Board -> int, succ: (Board, Piece) -> seq<Board>)

  /** Teeko2 for the player me: `game_value`, `heuristic_game_value` and `succ`. */
  function Teeko(me: Piece): Game
  {
    Game((b: Board) => WinValue(b, me), (b: Board) => HeuristicSum(b, me), (b: Board, p: Piece) => Successors(b, p))
  }

  /** The colour that moves at a max node (true) or at a min node (false). */
  function Mover(maxTurn: bool, me: Piece): (p: Piece)
    ensures p == (if maxTurn then me else Opponent(me))
  {
    if maxTurn then me else Opponent(me)
  }

  /** The running best's starting score: `(-1, state, 0)` or `(1, state, 0)`. */
  function Initial(maxTurn: bool): int
  {
    if maxTurn then -100 else 100
  }

  /** Whether a child scoring s replaces the running best: `>=` at a max node, `<=` at a min node. */
  predicate Prefers(maxTurn: bool, s: int, best: int)
  {
    if maxTurn then s >= best else s <= best
  }

  /** The value `max_value(b, depth, maxTurn)` returns in game g, scored for the player me. */
  function Minimax(g: Game, b: Board, depth: nat, maxTurn: bool, me: Piece): Choice
    decreases depth, 1
  {
    if g.win(b) != 0 then Choice(100 * g.win(b), b)
    else if depth == 0 then Choice(g.heuristic(b), b)
    else
      var kids := g.succ(b, Mover(maxTurn, me));
      Best(b, kids, Scores(g, kids, depth - 1, maxTurn, me), |kids|, maxTurn)
  }

  /** The scores `max_value(y, d, not maxTurn)` of the children y, in order. */
  function Scores(g: Game, kids: seq<Board>, d: nat, maxTurn: bool, me: Piece): (ss: seq<int>)
    ensures |ss| == |kids|
    decreases d + 1, 0
  {
    seq(|kids|, i requires 0 <= i < |kids| => Minimax(g, kids[i], d, !maxTurn, me).score)
  }

  /** The running best after the first n children, whose scores are scores[..n]. */
  function Best(b: Board, kids: seq<Board>, scores: seq<int>, n: nat, maxTurn: bool): Choice
    requires n <= |kids| == |scores|
  {
    if n == 0 then Choice(Initial(maxTurn), b)
    else
      var acc := Best(b, kids, scores, n - 1, maxTurn);
      if Prefers(maxTurn, scores[n - 1], acc.score) then Choice(scores[n - 1], kids[n - 1]) else acc
  }

  // The three cases of `max_value`, in the order it tests them.

  lemma FinishedCase(g: Game, b: Board, depth: nat, maxTurn: bool, me: Piece)
    requires g.win(b) != 0
    ensures Minimax(g, b, depth, maxTurn, me) == Choice(100 * g.win(b), b)
  {
  }

  lemma LeafCase(g: Game, b: Board, maxTurn: bool, me: Piece)
    requires g.win(b) == 0
    ensures Minimax(g, b, 0, maxTurn, me) == Choice(g.heuristic(b), b)
  {
  }

  lemma NodeCase(g: Game, b: Board, depth: nat, maxTurn: bool, me: Piece)
    requires g.win(b) == 0 && depth > 0
    ensures var kids := g.succ(b, Mover(maxTurn, me));
      Minimax(g, b, depth, maxTurn, me) == Best(b, kids, Scores(g, kids, depth - 1, maxTurn, me), |kids|, maxTurn)
  {
  }

  /** The loop's result is preferred to the starting score and to every child's score. */
  lemma {:induction false} BestDominates(b: Board, kids: seq<Board>, scores: seq<int>, n: nat, maxTurn: bool)
    requires n <= |kids| == |scores|
    ensures var r := Best(b, kids, scores, n, maxTurn);
      && Prefers(maxTurn, r.score, Initial(maxTurn))
      && forall j :: 0 <= j < n ==> Prefers(maxTurn, r.score, scores[j])
  {
    if n > 0 {
      BestDominates(b, kids, scores, n - 1, maxTurn);
    }
  }

  /**
   * The loop's result is either the starting (score, board), when no child is
   * preferred to the starting score, or the LAST child that reaches the best
   * score: every child after it is strictly worse.
   */
  lemma {:induction false} BestAttained(b: Board, kids: seq<Board>, scores: seq<int>, n: nat, maxTurn: bool)
    requires n <= |kids| == |scores|
    ensures var r := Best(b, kids, scores, n, maxTurn);
      || (r == Choice(Initial(maxTurn), b) &&
          forall j :: 0 <= j < n ==> !Prefers(maxTurn, scores[j], Initial(maxTurn)))
      || (exists j :: 0 <= j < n && r == Choice(scores[j], kids[j]) &&
            forall i :: j < i < n ==> !Prefers(maxTurn, scores[i], r.score))
  {
    if n > 0 {
      BestAttained(b, kids, scores, n - 1, maxTurn);
      var acc := Best(b, kids, scores, n - 1, maxTurn);
      if !Prefers(maxTurn, scores[n - 1], acc.score) &&
         !(acc == Choice(Initial(maxTurn), b) &&
           forall j :: 0 <= j < n - 1 ==> !Prefers(maxTurn, scores[j], Initial(maxTurn)))
      {
        var j :| 0 <= j < n - 1 && acc == Choice(scores[j], kids[j]) &&
                 forall i :: j < i < n - 1 ==> !Prefers(maxTurn, scores[i], acc.score);
        assert forall i :: j < i < n ==> !Prefers(maxTurn, scores[i], acc.score);
      }
    }
  }

  /** The running best's board is the node's own board or one of the first n children. */
  lemma {:induction false} BestIn(b: Board, kids: seq<Board>, scores: seq<int>, n: nat, maxTurn: bool)
    requires n <= |kids| == |scores|
    ensures var r := Best(b, kids, scores, n, maxTurn);
      r.state == b || r.state in kids[..n]
  {
    if n > 0 {
      BestIn(b, kids, scores, n - 1, maxTurn);
      assert kids[..n] == kids[..n - 1] + [kids[n - 1]];
    }
  }

  /** A game whose values lie within -1..1 and whose heuristic lies within -148..148 hundredths. */
  ghost predicate Bounded(g: Game)
  {
    forall b :: -1 <= g.win(b) <= 1 && -148 <= g.heuristic(b) <= 148
  }

  /** Teeko2's game value and heuristic keep to those bounds. */
  lemma TeekoBounded(me: Piece)
    ensures Bounded(Teeko(me))
  {
    forall b
      ensures -1 <= WinValue(b, me) <= 1 && -148 <= HeuristicSum(b, me) <= 148
    {
      WinValueRange(b, me);
      HeuristicBound(b, me);
    }
  }

  /** In a bounded game every score lies within -148..148 hundredths: the heuristic's range covers the others. */
  lemma {:induction false} MinimaxBound(g: Game, b: Board, depth: nat, maxTurn: bool, me: Piece)
    requires Bounded(g)
    ensures -148 <= Minimax(g, b, depth, maxTurn, me).score <= 148
    decreases depth, 2
  {
    if g.win(b) != 0 {
      FinishedCase(g, b, depth, maxTurn, me);
    } else if depth == 0 {
      LeafCase(g, b, maxTurn, me);
    } else {
      NodeCase(g, b, depth, maxTurn, me);
      ChildrenBound(g, b, g.succ(b, Mover(maxTurn, me)), depth - 1, maxTurn, me);
    }
  }

  /** Scores within -148..148 hundredths. */
  predicate InRange(scores: seq<int>)
  {
    forall j :: 0 <= j < |scores| ==> -148 <= scores[j] <= 148
  }

  /** The loop over any children, each searched to depth d, keeps its score within the range. */
  lemma {:induction false} ChildrenBound(g: Game, b: Board, kids: seq<Board>, d: nat, maxTurn: bool, me: Piece)
    requires Bounded(g)
    ensures -148 <= Best(b, kids, Scores(g, kids, d, maxTurn, me), |kids|, maxTurn).score <= 148
    decreases d + 1, 0
  {
    var scores := Scores(g, kids, d, maxTurn, me);
    forall j | 0 <= j < |kids|
      ensures -148 <= scores[j] <= 148
    {
      MinimaxBound(g, kids[j], d, !maxTurn, me);
    }
    BestBound(b, kids, scores, |kids|, maxTurn);
  }

  /** The running best stays within any bounds that hold the starting score and every child's. */
  lemma {:induction false} BestBound(b: Board, kids: seq<Board>, scores: seq<int>, n: nat, maxTurn: bool)
    requires n <= |kids| == |scores|
    requires InRange(scores)
    ensures -148 <= Best(b, kids, scores, n, maxTurn).score <= 148
  {
    if n > 0 {
      BestBound(b, kids, scores, n - 1, maxTurn);
    }
  }

  /** Every score Teeko2's search gives lies within -148..148 hundredths. */
  lemma ScoreBound(b: Board, depth: nat, maxTurn: bool, me: Piece)
    ensures -148 <= Minimax(Teeko(me), b, depth, maxTurn, me).score <= 148
  {
    TeekoBounded(me);
    MinimaxBound(Teeko(me), b, depth, maxTurn, me);
  }

  /**
   * The board `max_value` chooses is the board itself (a finished game, depth
   * 0, or no child as good as the starting score) or one of its successors
   * for the side to move.
   */
  lemma MinimaxChoice(g: Game, b: Board, depth: nat, maxTurn: bool, me: Piece)
    ensures var r := Minimax(g, b, depth, maxTurn, me);
      r.state == b || r.state in g.succ(b, Mover(maxTurn, me))
  {
    if g.win(b) == 0 && depth > 0 {
      NodeCase(g, b, depth, maxTurn, me);
      var kids := g.succ(b, Mover(maxTurn, me));
      BestIn(b, kids, Scores(g, kids, depth - 1, maxTurn, me), |kids|, maxTurn);
      assert kids[..|kids|] == kids;
    }
  }

  /** Teeko2's search keeps the board itself or picks one of `succ`'s boards for me. */
  lemma TeekoChoice(b: Board, depth: nat, me: Piece)
    ensures var r := Minimax(Teeko(me), b, depth, true, me);
      r.state == b || r.state in Successors(b, me)
  {
    MinimaxChoice(Teeko(me), b, depth, true, me);
  }

  /**
   * A finished game, with a line or a 3x3 square won, is scored by its game
   * value whatever the depth left: +100 or -100, and the board is kept.
   */
  lemma FinishedGame(b: Board, depth: nat, maxTurn: bool, me: Piece)
    requires (exists k :: 0 <= k < |Lines()| && LineWin(b, Lines()[k])) ||
             (exists k :: 0 <= k < |Centres()| && CornerWin(b, Centres()[k]))
    ensures var r := Minimax(Teeko(me), b, depth, maxTurn, me);
      r == Choice(100 * WinValue(b, me), b) && (r.score == 100 || r.score == -100)
  {
    WinValueRange(b, me);
    FinishedCase(Teeko(me), b, depth, maxTurn, me);
  }

  /** A running best that no child is preferred to keeps the starting (score, board). */
  lemma {:induction false} BestKeepsStart(b: Board, kids: seq<Board>, scores: seq<int>, n: nat, maxTurn: bool)
    requires n <= |kids| == |scores|
    requires forall j :: 0 <= j < n ==> !Prefers(maxTurn, scores[j], Initial(maxTurn))
    ensures Best(b, kids, scores, n, maxTurn) == Choice(Initial(maxTurn), b)
  {
    if n > 0 {
      BestKeepsStart(b, kids, scores, n - 1, maxTurn);
    }
  }

  /**
   * A max node whose every child scores below -1 keeps the starting
   * (-1, state): the chosen board is then the board itself, not a move.
   */
  lemma MaxNodeKeepsState(g: Game, b: Board, depth: nat, me: Piece)
    requires g.win(b) == 0 && depth > 0
    requires forall j :: 0 <= j < |g.succ(b, me)| ==> Minimax(g, g.succ(b, me)[j], depth - 1, false, me).score < -100
    ensures Minimax(g, b, depth, true, me) == Choice(-100, b)
  {
    var kids := g.succ(b, me);
    var scores := Scores(g, kids, depth - 1, true, me);
    NodeCase(g, b, depth, true, me);
    BestKeepsStart(b, kids, scores, |kids|, true);
  }

  /** One more child in the running best. */
  lemma BestStep(b: Board, kids: seq<Board>, scores: seq<int>, k: nat, maxTurn: bool)
    requires k < |kids| == |scores|
    ensures var acc := Best(b, kids, scores, k, maxTurn);
      Best(b, kids, scores, k + 1, maxTurn) ==
        if Prefers(maxTurn, scores[k], acc.score) then Choice(scores[k], kids[k]) else acc
  {
  }

  /** The k-th child's score. */
  lemma ScoresAt(g: Game, kids: seq<Board>, d: nat, maxTurn: bool, me: Piece, k: nat)
    requires k < |kids|
    ensures Scores(g, kids, d, maxTurn, me)[k] == Minimax(g, kids[k], d, !maxTurn, me).score
  {
  }

  /** A Teeko2 node that is not finished and has depth left: the running best over `succ`'s boards. */
  lemma TeekoNode(b: Board, depth: nat, maxTurn: bool, me: Piece, kids: seq<Board>, r: Choice)
    requires WinValue(b, me) == 0 && depth > 0
    requires kids == Successors(b, Mover(maxTurn, me))
    requires r == Best(b, kids, Scores(Teeko(me), kids, depth - 1, maxTurn, me), |kids|, maxTurn)
    ensures r == Minimax(Teeko(me), b, depth, maxTurn, me)
  {
    NodeCase(Teeko(me), b, depth, maxTurn, me);
  }

  /**
   * `max_value`: a finished game scores its game value, depth 0 the
   * heuristic, and otherwise the loop over the side to move's successors
   * keeps the running best.
   */
  method MaxValue(state: Board, depth: nat, nextTurn: bool, me: Piece) returns (r: Choice)
    ensures r == Minimax(Teeko(me), state, depth, nextTurn, me)
    decreases depth, 2, 0
  {
    var gv := GameValue(state, me);
    if gv != 0 {
      FinishedCase(Teeko(me), state, depth, nextTurn, me);
      r := Choice(100 * gv, state);
    } else if depth == 0 {
      LeafCase(Teeko(me), state, nextTurn, me);
      var hgv := HeuristicGameValue(state, me);
      r := Choice(hgv, state);
    } else if nextTurn {
      r := MaxNode(state, depth, me);
    } else {
      r := MinNode(state, depth, me);
    }
  }

  /** A max node: the running best over the successors for `my_piece`. */
  method MaxNode(state: Board, depth: nat, me: Piece) returns (r: Choice)
    requires WinValue(state, me) == 0 && depth > 0
    ensures r == Minimax(Teeko(me), state, depth, true, me)
    decreases depth, 1, 1
  {
    var x := Succ(me, state);
    r := MaxOver(state, x, depth - 1, me);
    TeekoNode(state, depth, true, me, x, r);
  }

  /** A min node: the running best over the successors for `opp`. */
  method MinNode(state: Board, depth: nat, me: Piece) returns (r: Choice)
    requires WinValue(state, me) == 0 && depth > 0
    ensures r == Minimax(Teeko(me), state, depth, false, me)
    decreases depth, 1, 1
  {
    var x := Succ(Opponent(me), state);
    r := MinOver(state, x, depth - 1, me);
    TeekoNode(state, depth, false, me, x, r);
  }

  /** The max node's loop: starting from (-1, state), keep each child scoring `>=` the running best. */
  method MaxOver(state: Board, x: seq<Board>, d: nat, me: Piece) returns (r: Choice)
    ensures r == Best(state, x, Scores(Teeko(me), x, d, true, me), |x|, true)
    decreases d + 1, 1, 0
  {
    r := Choice(-100, state);
    for k := 0 to |x|
      invariant r == Best(state, x, Scores(Teeko(me), x, d, true, me), k, true)
    {
      var curr := MaxValue(x[k], d, false, me);
      BestStep(state, x, Scores(Teeko(me), x, d, true, me), k, true);
      ScoresAt(Teeko(me), x, d, true, me, k);
      if curr.score >= r.score {
        r := Choice(curr.score, x[k]);
      }
    }
  }

  /** The min node's loop: starting from (1, state), keep each child scoring `<=` the running best. */
  method MinOver(state: Board, x: seq<Board>, d: nat, me: Piece) returns (r: Choice)
    ensures r == Best(state, x, Scores(Teeko(me), x, d, false, me), |x|, false)
    decreases d + 1, 1, 0
  {
    r := Choice(100, state);
    for k := 0 to |x|
      invariant r == Best(state, x, Scores(Teeko(me), x, d, false, me), k, false)
    {
      var curr := MaxValue(x[k], d, true, me);
      BestStep(state, x, Scores(Teeko(me), x, d, false, me), k, false);
      ScoresAt(Teeko(me), x, d, false, me, k);
      if curr.score <= r.score {
        r := Choice(curr.score, x[k]);
      }
    }
  }
}
