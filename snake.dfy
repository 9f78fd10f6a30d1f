// The rules of the Snake app (src/components/apps/SnakeGame.tsx): one interval tick of the snake
// on the 20 by 20 grid, the key handler and the reset button. The interval and the key listener
// are the `Tick` and `KeyPress` methods; the random food position is a parameter.
module Snake {
  import opened Seqs

  datatype Direction = Up | Down | Left | Right

  datatype Pos = Pos(x: int, y: int)

  datatype Key = ArrowUp | ArrowDown | ArrowLeft | ArrowRight | Space | OtherKey

  const GridSize: int := 20

  const Start: Pos := Pos(10, 10)

  /** The food's position before the first meal or reset. */
  const FirstFood: Pos := Pos(15, 15)

  function Opposite(d: Direction): Direction {
    match d
    case Up => Down
    case Down => Up
    case Left => Right
    case Right => Left
  }

  /** The direction an arrow key asks for. */
  function Wanted(k: Key): Direction
    requires k != Space && k != OtherKey
  {
    match k
    case ArrowUp => Up
    case ArrowDown => Down
    case ArrowLeft => Left
    case ArrowRight => Right
  }

  /** The key handler's direction: an arrow is obeyed unless it points straight back. */
  function Turn(d: Direction, k: Key): Direction {
    if k == Space || k == OtherKey then d
    else if Wanted(k) == Opposite(d) then d
    else Wanted(k)
  }

  /** No key ever reverses the current direction, and every other arrow is obeyed. */
  lemma TurnNeverReverses(d: Direction, k: Key)
    ensures Turn(d, k) != Opposite(d)
    ensures k != Space && k != OtherKey && Wanted(k) != Opposite(d) ==> Turn(d, k) == Wanted(k)
    ensures k == Space || k == OtherKey ==> Turn(d, k) == d
  {
  }

  /** The head moved one cell: y grows downwards. */
  function Next(p: Pos, d: Direction): (r: Pos)
    ensures Adjacent(p, r)
  {
    match d
    case Up => p.(y := p.y - 1)
    case Down => p.(y := p.y + 1)
    case Left => p.(x := p.x - 1)
    case Right => p.(x := p.x + 1)
  }

  function Abs(n: int): nat {
    if n < 0 then -n else n
  }

  /** One cell apart, horizontally or vertically. */
  predicate Adjacent(p: Pos, q: Pos) {
    Abs(p.x - q.x) + Abs(p.y - q.y) == 1
  }

  predicate InGrid(p: Pos) {
    0 <= p.x < GridSize && 0 <= p.y < GridSize
  }

  /**
   * A snake on the board: at least one segment, every segment in the grid, no two on the same
   * cell, and each segment next to the one before it.
   */
  predicate SnakeOk(s: seq<Pos>) {
    && |s| > 0
    && (forall i :: 0 <= i < |s| ==> InGrid(s[i]))
    && Distinct(s)
    && (forall i :: 0 <= i < |s| - 1 ==> Adjacent(s[i], s[i + 1]))
  }

  datatype StepResult = Collision | Moved(body: seq<Pos>, ate: bool)

  /**
   * moveSnake: the head moves one cell in the current direction. Leaving the grid, or landing on
   * any segment of the snake as it was (the tail cell included), is a collision. Otherwise the
   * head is prepended and, unless it landed on the food, the last segment dropped.
   */
  function Advance(snake: seq<Pos>, d: Direction, food: Pos): (r: StepResult)
    requires |snake| > 0
    ensures r.Collision? <==> !InGrid(Next(snake[0], d)) || Next(snake[0], d) in snake
    ensures r.Moved? ==> (r.ate <==> Next(snake[0], d) == food)
  {
    var head := Next(snake[0], d);
    if !InGrid(head) || head in snake then Collision
    else if head == food then Moved([head] + snake, true)
    else Moved([head] + snake[..|snake| - 1], false)
  }

  /**
   * A move keeps a well-formed snake well formed: the head is one step from the old head in the
   * direction of travel, the rest follows the old body, and the length grows by one exactly
   * when the food was eaten.
   */
  lemma AdvanceKeepsSnake(snake: seq<Pos>, d: Direction, food: Pos)
    requires SnakeOk(snake)
    ensures var r := Advance(snake, d, food);
      r.Moved? ==>
        && SnakeOk(r.body)
        && r.body[0] == Next(snake[0], d)
        && |r.body| == |snake| + (if r.ate then 1 else 0)
        && r.body[1..] == snake[..|r.body| - 1]
  {
    var head := Next(snake[0], d);
    var r := Advance(snake, d, food);
    if r.Moved? {
      var rest := if r.ate then snake else snake[..|snake| - 1];
      assert r.body == [head] + rest;
      assert r.body[1..] == rest;
      forall i, j | 0 <= i < j < |r.body| ensures r.body[i] != r.body[j] {
        if i == 0 {
          assert r.body[j] == rest[j - 1] == snake[j - 1];
        } else {
          assert r.body[i] == snake[i - 1] && r.body[j] == snake[j - 1];
        }
      }
      forall i | 0 <= i < |r.body| - 1 ensures Adjacent(r.body[i], r.body[i + 1]) {
        if i > 0 {
          assert r.body[i] == snake[i - 1] && r.body[i + 1] == snake[i];
        }
      }
    }
  }

  /**
   * Moving into the cell the tail is about to leave counts as a collision too, although a move
   * without food would have vacated it; so does moving onto the snake's second segment.
   */
  lemma TailCellCollides(snake: seq<Pos>, d: Direction, food: Pos)
    requires |snake| > 0
    requires Next(snake[0], d) == snake[|snake| - 1] || (|snake| > 1 && Next(snake[0], d) == snake[1])
    ensures Advance(snake, d, food) == Collision
  {
  }

  /**
   * The direction is checked against the last key, not the last move: two arrows within one
   * tick (up, then left, while moving right) turn a snake of two back onto its own neck.
   */
  lemma TwoKeysTurnBack()
    ensures Turn(Turn(Right, ArrowUp), ArrowLeft) == Left
    ensures Advance([Pos(5, 5), Pos(4, 5)], Left, Pos(0, 0)) == Collision
  {
    assert Next(Pos(5, 5), Left) == Pos(4, 5);
  }

  class SnakeGame {
    var snake: seq<Pos>
    var food: Pos
    var direction: Direction
    var gameOver: bool
    var score: nat
    var highScore: nat
    var isPaused: bool

    /**
     * The snake is on the board; ten points per segment grown; and once the game is over the
     * high score is at least the final score.
     */
    ghost predicate Valid()
      reads this
    {
      && SnakeOk(snake)
      && score == 10 * (|snake| - 1)
      && (gameOver ==> highScore >= score)
    }

    constructor()
      ensures Valid() && snake == [Start] && food == FirstFood && direction == Right
      ensures !gameOver && score == 0 && highScore == 0 && !isPaused
    {
      snake := [Start];
      food := FirstFood;
      direction := Right;
      gameOver := false;
      score := 0;
      highScore := 0;
      isPaused := false;
    }

    /** resetGame: one segment at the start, moving right, no score, running; the high score stays. */
    method ResetGame(newFood: Pos)
      requires Valid()
      modifies this
      ensures Valid() && snake == [Start] && food == newFood && direction == Right
      ensures !gameOver && score == 0 && highScore == old(highScore) && !isPaused
    {
      snake := [Start];
      food := newFood;
      direction := Right;
      gameOver := false;
      score := 0;
      isPaused := false;
    }

    /** handleKeyPress: nothing once the game is over; arrows turn, space toggles the pause. */
    method KeyPress(k: Key)
      requires Valid()
      modifies this`direction, this`isPaused
      ensures Valid()
      ensures old(gameOver) ==> direction == old(direction) && isPaused == old(isPaused)
      ensures !old(gameOver) ==>
        direction == Turn(old(direction), k) && isPaused == (if k == Space then !old(isPaused) else old(isPaused))
    {
      if gameOver {
        return;
      }
      direction := Turn(direction, k);
      if k == Space {
        isPaused := !isPaused;
      }
    }

    /**
     * One interval tick: nothing while over or paused. A collision ends the game, keeps the
     * snake and raises the high score to the score; a meal grows the snake, scores ten and
     * places the next food.
     */
    method Tick(newFood: Pos)
      requires Valid()
      modifies this`snake, this`food, this`gameOver, this`score, this`highScore
      ensures Valid()
      ensures old(gameOver) || old(isPaused) ==>
        snake == old(snake) && food == old(food) && gameOver == old(gameOver) && score == old(score)
        && highScore == old(highScore)
      ensures !old(gameOver) && !old(isPaused) ==>
        match Advance(old(snake), direction, old(food))
        case Collision =>
          snake == old(snake) && food == old(food) && gameOver && score == old(score)
          && highScore == (if old(score) > old(highScore) then old(score) else old(highScore))
        case Moved(body, ate) =>
          snake == body && !gameOver && highScore == old(highScore)
          && food == (if ate then newFood else old(food))
          && score == old(score) + (if ate then 10 else 0)
    {
      if gameOver || isPaused {
        return;
      }
      AdvanceKeepsSnake(snake, direction, food);
      var r := Advance(snake, direction, food);
      match r
      case Collision =>
        gameOver := true;
        if score > highScore {
          highScore := score;
        }
      case Moved(body, ate) =>
        snake := body;
        if ate {
          food := newFood;
          score := score + 10;
        }
    }
  }
}
