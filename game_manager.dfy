/**
 * The game wrapper: one board of the rules library, i.e. a root position and
 * the stack of moves pushed on it. Pushing is guarded by legality; undo pops
 * when there is something to pop.
 */
module Game {
  import opened ChessRules

  /** The moves of `moves` whose origin is `sq`, in their original order. */
  function MovesFrom(moves: seq<Move>, sq: Square): (r: seq<Move>)
    ensures |r| <= |moves|
    ensures forall j :: 0 <= j < |r| ==> r[j].fromSquare == sq
    decreases |moves|
  {
    if moves == [] then []
    else
      var rest := MovesFrom(moves[1..], sq);
      if moves[0].fromSquare == sq then [moves[0]] + rest else rest
  }

  /** Every move with the origin `sq` is kept as often as it occurs, every other move is dropped. */
  lemma {:induction false} MovesFromCount(moves: seq<Move>, sq: Square, m: Move)
    ensures multiset(MovesFrom(moves, sq))[m] == if m.fromSquare == sq then multiset(moves)[m] else 0
    decreases |moves|
  {
    if moves != [] {
      MovesFromCount(moves[1..], sq, m);
      assert moves == [moves[0]] + moves[1..];
    }
  }

  /** Filtering keeps order: it distributes over concatenation. */
  lemma {:induction false} MovesFromAppend(a: seq<Move>, b: seq<Move>, sq: Square)
    ensures MovesFrom(a + b, sq) == MovesFrom(a, sq) + MovesFrom(b, sq)
    decreases |a|
  {
    if a != [] {
      var ab := a + b;
      assert ab[0] == a[0] && ab[1..] == a[1..] + b;
      MovesFromAppend(a[1..], b, sq);
      assert MovesFrom(ab[1..], sq) == MovesFrom(a[1..], sq) + MovesFrom(b, sq);
    } else {
      assert a + b == b;
    }
  }

  /** A move is kept exactly when it is one of `moves` and starts on `sq`. */
  lemma MovesFromMembers(moves: seq<Move>, sq: Square, m: Move)
    ensures m in MovesFrom(moves, sq) <==> m in moves && m.fromSquare == sq
  {
    MovesFromCount(moves, sq, m);
    assert m in MovesFrom(moves, sq) <==> multiset(MovesFrom(moves, sq))[m] > 0;
    assert m in moves <==> multiset(moves)[m] > 0;
  }

  /** Filtering twice by the same origin changes nothing. */
  lemma {:induction false} MovesFromIdempotent(moves: seq<Move>, sq: Square)
    ensures MovesFrom(MovesFrom(moves, sq), sq) == MovesFrom(moves, sq)
    decreases |moves|
  {
    if moves != [] {
      MovesFromIdempotent(moves[1..], sq);
      var rest := MovesFrom(moves[1..], sq);
      if moves[0].fromSquare == sq {
        assert ([moves[0]] + rest)[1..] == rest;
      }
    }
  }

  class GameManager {
    const rules: Rules
    /** The position under the move stack: a new or reset board sits on the start position. */
    const root: Position := rules.start
    var moveStack: seq<Move>

    /** The board's current position. */
    function Board(): Position
      reads this
    {
      Replay(rules, root, moveStack)
    }

    constructor (rules: Rules)
      ensures this.rules == rules && root == rules.start && moveStack == []
    {
      this.rules := rules;
      moveStack := [];
    }

    /** Back to the position the board was created with, with an empty stack. */
    method Reset()
      modifies this
      ensures moveStack == [] && Board() == rules.start
    {
      moveStack := [];
    }

    /** Pushes `m` when it is legal on the current board and reports whether it did. */
    method Push(m: Move) returns (pushed: bool)
      modifies this
      ensures pushed <==> m in rules.legalMoves(old(Board()))
      ensures pushed ==> moveStack == old(moveStack) + [m] && Board() == rules.apply(old(Board()), m)
      ensures !pushed ==> moveStack == old(moveStack)
    {
      if m in rules.legalMoves(Board()) {
        ReplayPush(rules, root, moveStack, m);
        moveStack := moveStack + [m];
        return true;
      }
      return false;
    }

    /** Takes back the last move, if any. */
    method Undo()
      modifies this
      ensures old(moveStack) == [] ==> moveStack == []
      ensures old(moveStack) != [] ==> moveStack == old(moveStack)[..|old(moveStack)| - 1]
      ensures old(moveStack) != [] ==> old(Board()) == rules.apply(Board(), old(moveStack)[|old(moveStack)| - 1])
    {
      if moveStack != [] {
        moveStack := moveStack[..|moveStack| - 1];
      }
    }

    /** The legal moves of the current board that start on `sq`, in enumeration order. */
    function LegalMovesFrom(sq: Square): (r: seq<Move>)
      reads this
      ensures forall m :: m in r <==> m in rules.legalMoves(Board()) && m.fromSquare == sq
      ensures forall m :: multiset(r)[m] == if m.fromSquare == sq then multiset(rules.legalMoves(Board()))[m] else 0
    {
      var legal := rules.legalMoves(Board());
      forall m ensures m in MovesFrom(legal, sq) <==> m in legal && m.fromSquare == sq {
        MovesFromMembers(legal, sq, m);
      }
      forall m ensures multiset(MovesFrom(legal, sq))[m] == if m.fromSquare == sq then multiset(legal)[m] else 0 {
        MovesFromCount(legal, sq, m);
      }
      MovesFrom(legal, sq)
    }
  }

  /** A successful push followed by an undo restores the stack and the position. */
  method PushThenUndo(g: GameManager, m: Move) returns (pushed: bool)
    requires m in g.rules.legalMoves(g.Board())
    modifies g
    ensures pushed
    ensures g.moveStack == old(g.moveStack) && g.Board() == old(g.Board())
  {
    pushed := g.Push(m);
    g.Undo();
  }
}
