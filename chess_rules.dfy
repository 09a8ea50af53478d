/**
 * The rules library the program relies on, seen only through the narrow
 * interface it calls: legal-move enumeration, move application, piece lookup,
 * attack detection, side to move, SAN and UCI strings. None of these is
 * reimplemented; a `Rules` value bundles them as functions, and every model
 * member that needs them takes one.
 */
module ChessRules {

  datatype Option<T> = None | Some(value: T)

  datatype Color = White | Black

  datatype Kind = Pawn | Knight | Bishop | Rook | Queen | King

  datatype Piece = Piece(kind: Kind, color: Color)

  /** Squares are numbered 0 (a1) to 63 (h8), file first. */
  type Square = s: int | 0 <= s < 64

  /** A move: origin, destination and optional promotion kind; equality is structural. */
  datatype Move = Move(fromSquare: Square, toSquare: Square, promotion: Option<Kind>)

  /** A position of the rules library; the program never looks inside one. */
  type Position(==, !new)

  datatype Rules = Rules(
    start: Position,
    legalMoves: Position -> seq<Move>,
    apply: (Position, Move) -> Position,
    pieceAt: (Position, Square) -> Option<Piece>,
    isAttackedBy: (Position, Color, Square) -> bool,
    turn: Position -> Color,
    san: (Position, Move) -> string,
    uci: Move -> string)

  function SquareFile(sq: Square): (f: int)
    ensures 0 <= f < 8
  {
    sq % 8
  }

  function SquareRank(sq: Square): (r: int)
    ensures 0 <= r < 8
  {
    sq / 8
  }

  /** The square on a given file and rank. */
  function SquareAt(file: int, rank: int): (sq: Square)
    requires 0 <= file < 8 && 0 <= rank < 8
    ensures SquareFile(sq) == file && SquareRank(sq) == rank
  {
    rank * 8 + file
  }

  function Other(c: Color): Color {
    if c == White then Black else White
  }

  /**
   * The material table shared by the heuristic and the GUI's material count:
   * pawn 1, knight and bishop 3, rook 5, queen 9, king 0.
   */
  function PieceValue(k: Kind): nat {
    match k
    case Pawn => 1
    case Knight => 3
    case Bishop => 3
    case Rook => 5
    case Queen => 9
    case King => 0
  }

  /**
   * The position reached from `root` by pushing `moves` in order. A board of the
   * rules library is this: a root position with a stack of moves on top of it.
   */
  function Replay(rules: Rules, root: Position, moves: seq<Move>): Position
    decreases |moves|
  {
    if moves == [] then root
    else rules.apply(Replay(rules, root, moves[..|moves| - 1]), moves[|moves| - 1])
  }

  lemma ReplayPush(rules: Rules, root: Position, moves: seq<Move>, m: Move)
    ensures Replay(rules, root, moves + [m]) == rules.apply(Replay(rules, root, moves), m)
  {
    assert (moves + [m])[..|moves|] == moves;
  }

  /** The rules library alternates the side to move with every move it applies. */
  ghost predicate AlternatesTurn(rules: Rules) {
    forall p: Position, m: Move :: rules.turn(rules.apply(p, m)) == Other(rules.turn(p))
  }

  /** With alternating turns, the side to move depends only on the parity of the stack. */
  lemma {:induction false} ReplayTurn(rules: Rules, root: Position, moves: seq<Move>)
    requires AlternatesTurn(rules)
    ensures rules.turn(Replay(rules, root, moves))
            == if |moves| % 2 == 0 then rules.turn(root) else Other(rules.turn(root))
  {
    if moves != [] {
      ReplayTurn(rules, root, moves[..|moves| - 1]);
    }
  }
}
