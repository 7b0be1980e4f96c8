/** The tic-tac-toe game: the winner rule, a click on the board, the move
    history with its scoreboard, and the two reset buttons. A board is the
    nine squares in row-major order. */
module TicTacToe {
  import opened Common

  datatype Mark = X | O

  /** A square of the board: `null` or a player's mark. */
  datatype Square = Empty | Marked(mark: Mark)

  type Board = seq<Square>

  /** `Array(9).fill(null)`. */
  function EmptyBoard(): (b: Board)
    ensures |b| == 9 && forall i :: 0 <= i < 9 ==> b[i] == Empty
  {
    seq(9, _ => Empty)
  }

  /** Three squares in a row, a column or a diagonal. */
  datatype Line = Line(a: nat, b: nat, c: nat)

  /** The eight lines, in the order `calculateWinner` tries them. */
  const Lines: seq<Line> := [
    Line(0, 1, 2), Line(3, 4, 5), Line(6, 7, 8),
    Line(0, 3, 6), Line(1, 4, 7), Line(2, 5, 8),
    Line(0, 4, 8), Line(2, 4, 6)
  ]

  /** `squares[a] && squares[a] === squares[b] && squares[a] === squares[c]`. */
  predicate Completes(squares: Board, l: Line)
    requires |squares| == 9 && l in Lines
  {
    squares[l.a] != Empty && squares[l.a] == squares[l.b] && squares[l.a] == squares[l.c]
  }

  /** The index of the first line from `from` on whose three squares hold the
      same mark. */
  function FirstCompleted(squares: Board, from: nat): (r: Option<nat>)
    requires |squares| == 9
    ensures r.Some? ==> from <= r.value < |Lines| && Completes(squares, Lines[r.value])
    ensures forall j :: from <= j < |Lines| && (r.None? || j < r.value) ==> !Completes(squares, Lines[j])
    decreases |Lines| - from
  {
    if from >= |Lines| then None
    else if Completes(squares, Lines[from]) then Some(from)
    else FirstCompleted(squares, from + 1)
  }

  /** `calculateWinner(squares)`: the mark on the first completed line. */
  function Winner(squares: Board): (r: Option<Mark>)
    requires |squares| == 9
    ensures r.Some? <==> exists j :: 0 <= j < |Lines| && Completes(squares, Lines[j])
    ensures r.Some? ==> exists j :: 0 <= j < |Lines| && Completes(squares, Lines[j]) &&
                                    squares[Lines[j].a] == Marked(r.value)
  {
    match FirstCompleted(squares, 0)
    case None => None
    case Some(j) => Some(squares[Lines[j].a].mark)
  }

  /** `calculateWinner(squares, true)`: the first completed line itself. */
  function WinningLine(squares: Board): (r: Option<Line>)
    requires |squares| == 9
    ensures r.Some? <==> Winner(squares).Some?
    ensures r.Some? ==> r.value in Lines && Completes(squares, r.value) &&
                        squares[r.value.a] == Marked(Winner(squares).value)
  {
    match FirstCompleted(squares, 0)
    case None => None
    case Some(j) => Some(Lines[j])
  }

  /** What `calculateWinner` returns: `null`, a mark, or (with its flag set) a line. */
  datatype Outcome = Null | Player(mark: Mark) | LineOf(line: Line)

  /** `calculateWinner(squares, returnLine)`: tries the lines in order and
      stops at the first whose three squares hold the same mark. */
  method CalculateWinner(squares: Board, returnLine: bool) returns (r: Outcome)
    requires |squares| == 9
    ensures r.Null? <==> Winner(squares).None?
    ensures !returnLine ==> !r.LineOf? && (r.Player? ==> Winner(squares) == Some(r.mark))
    ensures returnLine ==> !r.Player? && (r.LineOf? ==> WinningLine(squares) == Some(r.line))
  {
    var i := 0;
    while i < |Lines|
      invariant 0 <= i <= |Lines|
      invariant forall j :: 0 <= j < i ==> !Completes(squares, Lines[j])
    {
      var l := Lines[i];
      if squares[l.a] != Empty && squares[l.a] == squares[l.b] && squares[l.a] == squares[l.c] {
        assert FirstCompleted(squares, 0) == Some(i);
        if returnLine {
          return LineOf(l);
        }
        return Player(squares[l.a].mark);
      }
      i := i + 1;
    }
    assert FirstCompleted(squares, 0).None?;
    return Null;
  }

  /** `squares.every(square => square)`. */
  predicate Full(squares: Board)
  {
    forall i :: 0 <= i < |squares| ==> squares[i] != Empty
  }

  /** The mark of the player to move. */
  function Turn(xIsNext: bool): Mark
  {
    if xIsNext then X else O
  }

  /** `Board.handleClick(i)`: `None` is the early return (there is a winner
      or the square is taken); otherwise the board passed to `onPlay`. */
  function HandleClick(squares: Board, xIsNext: bool, i: nat): (r: Option<Board>)
    requires |squares| == 9 && i < 9
    ensures r.None? <==> Winner(squares).Some? || squares[i] != Empty
    ensures r.Some? ==> |r.value| == 9 && r.value[i] == Marked(Turn(xIsNext)) &&
                        forall j :: 0 <= j < 9 && j != i ==> r.value[j] == squares[j]
  {
    if Winner(squares).Some? || squares[i] != Empty then None
    else Some(squares[i := Marked(Turn(xIsNext))])
  }

  /** The status line above the board. */
  datatype Status = Won(winner: Mark) | Draw | ToMove(next: Mark)

  /** `Board`'s status: a winner first, then a draw on a full board, else whose turn it is. */
  function StatusOf(squares: Board, xIsNext: bool): (r: Status)
    requires |squares| == 9
    ensures r.Won? <==> Winner(squares).Some?
    ensures r.Won? ==> r.winner == Winner(squares).value
    ensures r.Draw? <==> Winner(squares).None? && Full(squares)
    ensures r.ToMove? ==> r.next == Turn(xIsNext) && !Full(squares)
  {
    match Winner(squares)
    case Some(m) => Won(m)
    case None => if Full(squares) then Draw else ToMove(Turn(xIsNext))
  }

  /** A click changes the board exactly when the status says someone is to
      move and the square is free. */
  lemma ClickMovesOnlyWhenInPlay(squares: Board, xIsNext: bool, i: nat)
    requires |squares| == 9 && i < 9
    ensures HandleClick(squares, xIsNext, i).Some? <==> StatusOf(squares, xIsNext).ToMove? && squares[i] == Empty
  {
    if squares[i] == Empty && Winner(squares).None? {
      assert !Full(squares);
    }
  }

  /** The scoreboard `{ X, O, draws }`. */
  datatype Scores = Scores(x: nat, o: nat, draws: nat)

  function GamesCounted(s: Scores): nat
  {
    s.x + s.o + s.draws
  }

  /** The score update of `handlePlay` for the board just played. */
  function Tally(prev: Scores, next: Board): (r: Scores)
    requires |next| == 9
    ensures Winner(next) == Some(X) ==> r == prev.(x := prev.x + 1)
    ensures Winner(next) == Some(O) ==> r == prev.(o := prev.o + 1)
    ensures Winner(next).None? && Full(next) ==> r == prev.(draws := prev.draws + 1)
    ensures Winner(next).None? && !Full(next) ==> r == prev
    ensures GamesCounted(r) == GamesCounted(prev) + (if StatusOf(next, true).ToMove? then 0 else 1)
  {
    match Winner(next)
    case Some(X) => prev.(x := prev.x + 1)
    case Some(O) => prev.(o := prev.o + 1)
    case None => if Full(next) then prev.(draws := prev.draws + 1) else prev
  }

  /** How many squares of `b` hold `s`. */
  function Count(b: Board, s: Square): (r: nat)
    ensures r <= |b|
  {
    if b == [] then 0
    else Count(b[..|b| - 1], s) + (if b[|b| - 1] == s then 1 else 0)
  }

  lemma {:induction false} CountAbsent(b: Board, s: Square)
    requires forall i :: 0 <= i < |b| ==> b[i] != s
    ensures Count(b, s) == 0
  {
    if b != [] {
      CountAbsent(b[..|b| - 1], s);
    }
  }

  /** Writing `t` into square `i` moves one square from `b[i]`'s count to `t`'s. */
  lemma {:induction false} CountUpdate(b: Board, i: nat, s: Square, t: Square)
    requires i < |b|
    ensures Count(b[i := t], s) == Count(b, s) - (if b[i] == s then 1 else 0) + (if t == s then 1 else 0)
  {
    var n := |b| - 1;
    if i == n {
      assert b[i := t][..n] == b[..n];
    } else {
      assert b[i := t][..n] == b[..n][i := t];
      CountUpdate(b[..n], i, s, t);
    }
  }

  /** Board `k` of a history played from the empty board holds `ceil(k/2)`
      X marks and `floor(k/2)` O marks: X moves first and the players alternate. */
  ghost predicate Alternating(history: seq<Board>)
  {
    forall k :: 0 <= k < |history| ==>
      |history[k]| == 9 && Count(history[k], Marked(X)) == (k + 1) / 2 && Count(history[k], Marked(O)) == k / 2
  }

  /** Placing the mark of the player to move on a free square of the last
      board extends an alternating history. */
  lemma MoveKeepsAlternating(history: seq<Board>, i: nat)
    requires Alternating(history) && history != [] && i < 9
    requires history[|history| - 1][i] == Empty
    ensures Alternating(history + [history[|history| - 1][i := Marked(Turn((|history| - 1) % 2 == 0))]])
  {
    var k := |history| - 1;
    var b := history[k];
    var m := Turn(k % 2 == 0);
    CountUpdate(b, i, Marked(X), Marked(m));
    CountUpdate(b, i, Marked(O), Marked(m));
    var h := history + [b[i := Marked(m)]];
    assert h[k + 1] == b[i := Marked(m)];
    assert forall j :: 0 <= j <= k ==> h[j] == history[j];
  }

  /** The state of `App`: the boards so far, the one shown, and the scores. */
  class Game {
    var history: seq<Board>
    var currentMove: nat
    var scores: Scores

    /** Without a way to jump back, the board shown is always the last one,
        and the history alternates between the players. */
    ghost predicate Valid()
      reads this
    {
      |history| == currentMove + 1 && Alternating(history)
    }

    /** The initial `useState` values. */
    constructor ()
      ensures Valid()
      ensures history == [EmptyBoard()] && currentMove == 0 && scores == Scores(0, 0, 0)
    {
      history := [EmptyBoard()];
      currentMove := 0;
      scores := Scores(0, 0, 0);
      new;
      CountAbsent(EmptyBoard(), Marked(X));
      CountAbsent(EmptyBoard(), Marked(O));
    }

    /** `xIsNext`: in a valid game, X moves when the board shown holds as
        many X marks as O marks. */
    function XIsNext(): (r: bool)
      reads this
      ensures Valid() ==> (r <==> Count(history[currentMove], Marked(X)) == Count(history[currentMove], Marked(O)))
    {
      assert Valid() ==> Count(history[currentMove], Marked(X)) == (currentMove + 1) / 2 &&
                         Count(history[currentMove], Marked(O)) == currentMove / 2;
      currentMove % 2 == 0
    }

    /** `currentSquares`: in a valid game, the last board of the history. */
    function CurrentSquares(): (b: Board)
      reads this
      requires currentMove < |history|
      ensures Valid() ==> b == history[|history| - 1] && |b| == 9
    {
      history[currentMove]
    }

    /** `handlePlay(nextSquares)`: drop the boards after the one shown, append
        the new board, show it, and score it. */
    method HandlePlay(nextSquares: Board)
      requires |nextSquares| == 9 && currentMove < |history|
      modifies this
      ensures history == old(history[..currentMove + 1]) + [nextSquares]
      ensures currentMove == old(currentMove) + 1 == |history| - 1
      ensures scores == Tally(old(scores), nextSquares)
    {
      var nextHistory := history[..currentMove + 1] + [nextSquares];
      history := nextHistory;
      currentMove := |nextHistory| - 1;
      scores := Tally(scores, nextSquares);
    }

    /** A click on square `i`: `Board.handleClick`, which calls `handlePlay`
        unless it returns early. */
    method Click(i: nat)
      requires Valid() && i < 9
      modifies this
      ensures Valid()
      ensures match HandleClick(old(CurrentSquares()), old(XIsNext()), i)
        case None => history == old(history) && currentMove == old(currentMove) && scores == old(scores)
        case Some(next) =>
          history == old(history) + [next] && currentMove == old(currentMove) + 1 &&
          scores == Tally(old(scores), next)
    {
      var squares := history[currentMove];
      assert |squares| == 9;
      var next := HandleClick(squares, XIsNext(), i);
      if next.Some? {
        assert history[..currentMove + 1] == history;
        MoveKeepsAlternating(history, i);
        HandlePlay(next.value);
      }
    }

    /** `resetGame`: one empty board at move 0; the scores stay. */
    method ResetGame()
      modifies this
      ensures Valid()
      ensures history == [EmptyBoard()] && currentMove == 0 && scores == old(scores)
    {
      history := [EmptyBoard()];
      currentMove := 0;
      CountAbsent(EmptyBoard(), Marked(X));
      CountAbsent(EmptyBoard(), Marked(O));
    }

    /** `resetScores`: zero scores, then `resetGame`. */
    method ResetScores()
      modifies this
      ensures Valid()
      ensures history == [EmptyBoard()] && currentMove == 0 && scores == Scores(0, 0, 0)
    {
      scores := Scores(0, 0, 0);
      ResetGame();
    }
  }

  /** In a game played by clicks, X is to move exactly when both players have
      placed the same number of marks. */
  lemma XIsNextWhenBalanced(g: Game)
    requires g.Valid()
    ensures g.XIsNext() <==> Count(g.CurrentSquares(), Marked(X)) == Count(g.CurrentSquares(), Marked(O))
  {
    var k := g.currentMove;
    assert Count(g.history[k], Marked(X)) == (k + 1) / 2 && Count(g.history[k], Marked(O)) == k / 2;
  }
}
