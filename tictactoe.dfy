// The rules of the Tic Tac Toe app (src/components/apps/TicTacToe.tsx): the winner scan over the
// eight lines and the component state that the click handler, the reset button and the score
// effect update. The effect that runs after every board change is folded into the handlers.
module TicTacToe {
  import opened Wrappers

  datatype Mark = X | O

  /** A square: `null` or the mark played there. */
  type Cell = Option<Mark>

  datatype GameResult = Won(mark: Mark) | Draw

  datatype Scores = Scores(x: nat, o: nat, draws: nat)

  /** The rows, then the columns, then the two diagonals. */
  const Lines: seq<(nat, nat, nat)> :=
    [(0, 1, 2), (3, 4, 5), (6, 7, 8), (0, 3, 6), (1, 4, 7), (2, 5, 8), (0, 4, 8), (2, 4, 6)]

  predicate OnBoard(line: (nat, nat, nat)) {
    line.0 < 9 && line.1 < 9 && line.2 < 9
  }

  /** All three squares of `line` hold `m`. */
  predicate Complete(b: seq<Cell>, line: (nat, nat, nat), m: Mark)
    requires |b| == 9 && OnBoard(line)
  {
    b[line.0] == Some(m) && b[line.1] == Some(m) && b[line.2] == Some(m)
  }

  /** No line of `lines` is complete for either mark. */
  predicate NoneComplete(b: seq<Cell>, lines: seq<(nat, nat, nat)>)
    requires |b| == 9 && forall i :: 0 <= i < |lines| ==> OnBoard(lines[i])
  {
    forall i, m :: 0 <= i < |lines| ==> !Complete(b, lines[i], m)
  }

  /** The loop over the lines: the mark of the first complete one. */
  function FirstComplete(b: seq<Cell>, lines: seq<(nat, nat, nat)>): (r: Option<Mark>)
    requires |b| == 9 && forall i :: 0 <= i < |lines| ==> OnBoard(lines[i])
    ensures r.None? <==> NoneComplete(b, lines)
    ensures r.Some? ==> exists i :: 0 <= i < |lines| && Complete(b, lines[i], r.value) && NoneComplete(b, lines[..i])
  {
    if |lines| == 0 then None
    else
      var line := lines[0];
      assert OnBoard(line);
      var (a, c, d) := line;
      if b[a].Some? && b[a] == b[c] && b[a] == b[d] then
        assert Complete(b, lines[0], b[a].value) && lines[..0] == [];
        Some(b[a].value)
      else
        var r := FirstComplete(b, lines[1..]);
        assert forall m :: !Complete(b, lines[0], m);
        if r.Some? then
          ghost var i :| 0 <= i < |lines[1..]| && Complete(b, lines[1..][i], r.value) && NoneComplete(b, lines[1..][..i]);
          assert lines[..i + 1] == [lines[0]] + lines[1..][..i];
          r
        else r
  }

  predicate Full(b: seq<Cell>) {
    forall i :: 0 <= i < |b| ==> b[i].Some?
  }

  /**
   * calculateWinner: the first complete line's mark; otherwise a draw once every square is
   * filled, and nothing yet otherwise. A completed line wins even on a full board.
   */
  function CalculateWinner(b: seq<Cell>): (r: Option<GameResult>)
    requires |b| == 9
    ensures r.Some? && r.value.Won? ==>
      exists i :: 0 <= i < 8 && Complete(b, Lines[i], r.value.mark) && NoneComplete(b, Lines[..i])
    ensures r == Some(Draw) <==> NoneComplete(b, Lines) && Full(b)
    ensures r.None? <==> NoneComplete(b, Lines) && !Full(b)
  {
    match FirstComplete(b, Lines)
    case Some(m) => Some(Won(m))
    case None => if Full(b) then Some(Draw) else None
  }

  /** The score effect: a result adds one to the winner's count or to the draws. */
  function Scored(s: Scores, result: Option<GameResult>): Scores {
    match result
    case None => s
    case Some(Won(X)) => s.(x := s.x + 1)
    case Some(Won(O)) => s.(o := s.o + 1)
    case Some(Draw) => s.(draws := s.draws + 1)
  }

  function Games(s: Scores): nat {
    s.x + s.o + s.draws
  }

  /** Every result counts exactly one game and no result counts none. */
  lemma ScoredCountsOnce(s: Scores, result: Option<GameResult>)
    ensures Games(Scored(s, result)) == Games(s) + (if result.Some? then 1 else 0)
    ensures result == Some(Won(X)) <==> Scored(s, result).x == s.x + 1
    ensures result == Some(Won(O)) <==> Scored(s, result).o == s.o + 1
    ensures result == Some(Draw) <==> Scored(s, result).draws == s.draws + 1
  {
  }

  /** How many squares hold `m`. */
  function Count(b: seq<Cell>, m: Mark): (n: nat)
    ensures n <= |b|
  {
    if |b| == 0 then 0 else (if b[0] == Some(m) then 1 else 0) + Count(b[1..], m)
  }

  /** Playing `m` on an empty square adds one to its count and leaves the other mark's count. */
  lemma {:induction false} CountAfterMove(b: seq<Cell>, i: nat, m: Mark, other: Mark)
    requires i < |b| && b[i].None?
    ensures Count(b[i := Some(m)], other) == Count(b, other) + (if other == m then 1 else 0)
    decreases |b|
  {
    if i > 0 {
      CountAfterMove(b[1..], i - 1, m, other);
      assert b[i := Some(m)][1..] == b[1..][i - 1 := Some(m)];
    } else {
      assert b[i := Some(m)][1..] == b[1..];
    }
  }

  /** `Array(9).fill(null)`. */
  function EmptyBoard(): seq<Cell> {
    seq(9, _ => None)
  }

  lemma {:induction false} CountNone(b: seq<Cell>, m: Mark)
    requires forall i :: 0 <= i < |b| ==> b[i].None?
    ensures Count(b, m) == 0
    decreases |b|
  {
    if |b| > 0 {
      CountNone(b[1..], m);
    }
  }

  /** A fresh board is undecided. */
  lemma EmptyUndecided()
    ensures CalculateWinner(EmptyBoard()) == None
  {
    var b := EmptyBoard();
    assert b[0].None?;
    assert NoneComplete(b, Lines);
  }

  class Game {
    var board: seq<Cell>
    var isXNext: bool
    var winner: Option<GameResult>
    var scores: Scores

    /**
     * Nine squares; X moves first, so X has played as often as O when X is next and once more
     * otherwise; and the shown winner is always the board's result.
     */
    ghost predicate Valid()
      reads this
    {
      && |board| == 9
      && Count(board, X) == Count(board, O) + (if isXNext then 0 else 1)
      && winner == CalculateWinner(board)
    }

    constructor()
      ensures Valid() && board == EmptyBoard() && isXNext && winner == None && scores == Scores(0, 0, 0)
    {
      board := EmptyBoard();
      isXNext := true;
      winner := None;
      scores := Scores(0, 0, 0);
      new;
      CountNone(board, X);
      CountNone(board, O);
      EmptyUndecided();
    }

    /**
     * handleClick and the effect it triggers: nothing on an occupied square or a decided game;
     * otherwise that square gets the player's mark, the turn passes and the result is scored.
     */
    method HandleClick(index: nat)
      requires Valid() && index < 9
      modifies this
      ensures Valid()
      ensures old(board[index]).Some? || old(winner).Some? ==>
        board == old(board) && isXNext == old(isXNext) && winner == old(winner) && scores == old(scores)
      ensures old(board[index]).None? && old(winner).None? ==>
        && board == old(board)[index := Some(if old(isXNext) then X else O)]
        && isXNext == !old(isXNext)
        && winner == CalculateWinner(board)
        && scores == Scored(old(scores), winner)
    {
      if board[index].Some? || winner.Some? {
        return;
      }
      var m := if isXNext then X else O;
      CountAfterMove(board, index, m, X);
      CountAfterMove(board, index, m, O);
      board := board[index := Some(m)];
      isXNext := !isXNext;
      var result := CalculateWinner(board);
      if result.Some? {
        winner := result;
        scores := Scored(scores, result);
      }
    }

    /** resetGame: an empty board, no winner, X to move; the scores are kept. */
    method ResetGame()
      requires Valid()
      modifies this
      ensures Valid() && board == EmptyBoard() && isXNext && winner == None && scores == old(scores)
    {
      board := EmptyBoard();
      isXNext := true;
      winner := None;
      CountNone(board, X);
      CountNone(board, O);
      EmptyUndecided();
    }
  }

  /** Nobody can have won by the fourth move: a complete line needs three of one mark. */
  lemma NoEarlyWin(b: seq<Cell>, m: Mark)
    requires |b| == 9 && Count(b, m) < 3
    ensures forall i :: 0 <= i < 8 ==> !Complete(b, Lines[i], m)
  {
    forall i | 0 <= i < 8 ensures !Complete(b, Lines[i], m) {
      if Complete(b, Lines[i], m) {
        CountThree(b, Lines[i], m);
      }
    }
  }

  /** Three distinct squares holding `m` make its count at least three. */
  lemma CountThree(b: seq<Cell>, line: (nat, nat, nat), m: Mark)
    requires |b| == 9 && OnBoard(line) && line.0 != line.1 && line.1 != line.2 && line.0 != line.2
    requires Complete(b, line, m)
    ensures Count(b, m) >= 3
  {
    var b1 := b[line.0 := None];
    var b2 := b1[line.1 := None];
    var b3 := b2[line.2 := None];
    CountAfterMove(b1, line.0, m, m);
    assert b1[line.0 := Some(m)] == b;
    CountAfterMove(b2, line.1, m, m);
    assert b2[line.1 := Some(m)] == b1;
    CountAfterMove(b3, line.2, m, m);
    assert b3[line.2 := Some(m)] == b2;
  }
}
