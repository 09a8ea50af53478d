/**
 * The bookkeeping of the board window, without any drawing: material count,
 * move suggestions for the selected White piece, the numbered move list, the
 * mapping from a click to a square, the two-ply undo, and applying a move with
 * its SAN recorded in the history.
 */
module BoardGui {
  import opened ChessRules
  import opened Game
  import StockfishEngine

  /** Side of one board square, in pixels. */
  const SQUARE_SIZE: int := 80

  // ---------------------------------------------------------------------------
  // Click to square
  // ---------------------------------------------------------------------------

  /**
   * The square under pixel (x, y): file from x, rank counted from the bottom.
   * Python's floor division by a positive divisor is Dafny's `/`.
   */
  function ClickToSquare(x: int, y: int): (r: Option<Square>)
    ensures r.Some? <==> 0 <= x < 8 * SQUARE_SIZE && 0 <= y < 8 * SQUARE_SIZE
    ensures r.Some? ==> SquareFile(r.value) == x / SQUARE_SIZE && SquareRank(r.value) == 7 - y / SQUARE_SIZE
  {
    var file := x / SQUARE_SIZE;
    var rank := 7 - y / SQUARE_SIZE;
    if 0 <= file < 8 && 0 <= rank < 8 then Some(SquareAt(file, rank)) else None
  }

  /** Every pixel of the cell that the board draws for `sq` maps back to `sq`. */
  lemma ClickInsideDrawnSquare(sq: Square, dx: int, dy: int)
    requires 0 <= dx < SQUARE_SIZE && 0 <= dy < SQUARE_SIZE
    ensures ClickToSquare(SquareFile(sq) * SQUARE_SIZE + dx, (7 - SquareRank(sq)) * SQUARE_SIZE + dy) == Some(sq)
  {
    var f, r := SquareFile(sq), SquareRank(sq);
    assert (f * SQUARE_SIZE + dx) / SQUARE_SIZE == f;
    assert ((7 - r) * SQUARE_SIZE + dy) / SQUARE_SIZE == 7 - r;
    assert SquareAt(f, r) == sq;
  }

  // ---------------------------------------------------------------------------
  // Material
  // ---------------------------------------------------------------------------

  /** One square's contribution: the piece's value, positive for White and negative for Black. */
  function SquareMaterial(o: Option<Piece>): int {
    match o
    case None => 0
    case Some(p) => if p.color == White then PieceValue(p.kind) as int else -(PieceValue(p.kind) as int)
  }

  /** The material balance of the squares below `n`. */
  function Material(rules: Rules, board: Position, n: nat): int
    requires n <= 64
  {
    if n == 0 then 0 else Material(rules, board, n - 1) + SquareMaterial(rules.pieceAt(board, n - 1))
  }

  function SwapColour(o: Option<Piece>): Option<Piece> {
    match o
    case None => None
    case Some(p) => Some(Piece(p.kind, Other(p.color)))
  }

  /** A board with no pieces scores 0. */
  lemma {:induction false} MaterialEmptyBoard(rules: Rules, board: Position, n: nat)
    requires n <= 64
    requires forall sq: Square :: rules.pieceAt(board, sq) == None
    ensures Material(rules, board, n) == 0
  {
    if n > 0 {
      MaterialEmptyBoard(rules, board, n - 1);
    }
  }

  /** Giving every piece to the other side negates the score. */
  lemma {:induction false} MaterialColourSwap(rules: Rules, p: Position, q: Position, n: nat)
    requires n <= 64
    requires forall sq: Square :: rules.pieceAt(q, sq) == SwapColour(rules.pieceAt(p, sq))
    ensures Material(rules, q, n) == -Material(rules, p, n)
  {
    if n > 0 {
      MaterialColourSwap(rules, p, q, n - 1);
    }
  }

  // ---------------------------------------------------------------------------
  // Suggestions
  // ---------------------------------------------------------------------------

  /** A candidate's score: 100 times the material it gains, plus the number of replies it leaves. */
  function SuggestionScore(rules: Rules, board: Position, m: Move): int {
    var after := rules.apply(board, m);
    (Material(rules, after, 64) - Material(rules, board, 64)) * 100 + |rules.legalMoves(after)|
  }

  /** The highest candidate score. */
  function MaxScore(rules: Rules, board: Position, cands: seq<Move>): (best: int)
    requires cands != []
    ensures forall j :: 0 <= j < |cands| ==> SuggestionScore(rules, board, cands[j]) <= best
    ensures exists j :: 0 <= j < |cands| && SuggestionScore(rules, board, cands[j]) == best
    decreases |cands|
  {
    var last := SuggestionScore(rules, board, cands[|cands| - 1]);
    if |cands| == 1 then last
    else
      var prefix := MaxScore(rules, board, cands[..|cands| - 1]);
      if last > prefix then last else prefix
  }

  /** The candidates scoring exactly `v`, in order. */
  function ScoringExactly(rules: Rules, board: Position, cands: seq<Move>, v: int): (r: seq<Move>)
    ensures forall m :: m in r ==> m in cands && SuggestionScore(rules, board, m) == v
    decreases |cands|
  {
    if cands == [] then []
    else
      var last := cands[|cands| - 1];
      ScoringExactly(rules, board, cands[..|cands| - 1], v) + if SuggestionScore(rules, board, last) == v then [last] else []
  }

  /** When no candidate reaches `v`, nothing scores exactly `v`. */
  lemma {:induction false} ScoringExactlyNone(rules: Rules, board: Position, cands: seq<Move>, v: int)
    requires forall j :: 0 <= j < |cands| ==> SuggestionScore(rules, board, cands[j]) < v
    ensures ScoringExactly(rules, board, cands, v) == []
    decreases |cands|
  {
    if cands != [] {
      ScoringExactlyNone(rules, board, cands[..|cands| - 1], v);
    }
  }

  /** A maximum is reached by some candidate, so the best candidates are never empty. */
  lemma {:induction false} ScoringExactlyReached(rules: Rules, board: Position, cands: seq<Move>, v: int, k: int)
    requires 0 <= k < |cands| && SuggestionScore(rules, board, cands[k]) == v
    ensures cands[k] in ScoringExactly(rules, board, cands, v)
    decreases |cands|
  {
    if k < |cands| - 1 {
      ScoringExactlyReached(rules, board, cands[..|cands| - 1], v, k);
    }
  }

  /** Extending the candidates by one: the maximum grows to the newcomer's score if that is larger. */
  lemma MaxScoreExtend(rules: Rules, board: Position, cands: seq<Move>, i: int)
    requires 0 <= i < |cands|
    ensures var score := SuggestionScore(rules, board, cands[i]);
            MaxScore(rules, board, cands[..i + 1])
            == if i == 0 || score > MaxScore(rules, board, cands[..i]) then score else MaxScore(rules, board, cands[..i])
  {
    assert cands[..i + 1][..i] == cands[..i];
  }

  /** Extending the candidates by one: the newcomer joins at the end when it scores exactly `v`. */
  lemma ScoringExactlyExtend(rules: Rules, board: Position, cands: seq<Move>, i: int, v: int)
    requires 0 <= i < |cands|
    ensures ScoringExactly(rules, board, cands[..i + 1], v)
            == ScoringExactly(rules, board, cands[..i], v) + if SuggestionScore(rules, board, cands[i]) == v then [cands[i]] else []
  {
    assert cands[..i + 1][..i] == cands[..i];
  }

  /** The first `n` elements, or all of them when there are fewer. */
  function Take(s: seq<Move>, n: nat): (r: seq<Move>)
    ensures |r| <= n && |r| <= |s|
    ensures forall j :: 0 <= j < |r| ==> r[j] == s[j]
  {
    if |s| <= n then s else s[..n]
  }

  /**
   * The suggested moves: none without a selection, off White's turn, or when the
   * selected square has no legal move; otherwise the first two candidates (or
   * the single one) that reach the best score.
   */
  function Suggestions(rules: Rules, board: Position, selected: Option<Square>): set<Move> {
    if selected.None? || rules.turn(board) != White then {}
    else
      var cands := MovesFrom(rules.legalMoves(board), selected.value);
      if cands == [] then {}
      else
        var top := Take(ScoringExactly(rules, board, cands, MaxScore(rules, board, cands)), 2);
        Elements(top, |top|)
  }

  /** The set of the first `k` elements of `s`. */
  function Elements(s: seq<Move>, k: nat): (r: set<Move>)
    requires k <= |s|
    ensures |r| <= k
  {
    if k == 0 then {} else Elements(s, k - 1) + {s[k - 1]}
  }

  lemma {:induction false} ElementsMembers(s: seq<Move>, k: nat, m: Move)
    requires k <= |s|
    ensures m in Elements(s, k) <==> exists j :: 0 <= j < k && s[j] == m
  {
    if k > 0 {
      ElementsMembers(s, k - 1, m);
    }
  }

  /** The suggestions are empty exactly without a selection, off White's turn, or without a legal move from the selection. */
  lemma SuggestionsEmpty(rules: Rules, board: Position, selected: Option<Square>)
    ensures Suggestions(rules, board, selected) == {} <==>
              selected.None? || rules.turn(board) != White || MovesFrom(rules.legalMoves(board), selected.value) == []
  {
    if selected.Some? && rules.turn(board) == White {
      var cands := MovesFrom(rules.legalMoves(board), selected.value);
      if cands != [] {
        var v := MaxScore(rules, board, cands);
        var k :| 0 <= k < |cands| && SuggestionScore(rules, board, cands[k]) == v;
        ScoringExactlyReached(rules, board, cands, v, k);
        var top := Take(ScoringExactly(rules, board, cands, v), 2);
        ElementsMembers(top, |top|, top[0]);
      }
    }
  }

  /** There are at most two suggestions. */
  lemma SuggestionsAtMostTwo(rules: Rules, board: Position, selected: Option<Square>)
    ensures |Suggestions(rules, board, selected)| <= 2
  {
  }

  /** Every suggestion is a legal move from the selected square with the best score among those moves. */
  lemma SuggestionsAreBestLegal(rules: Rules, board: Position, selected: Option<Square>, m: Move)
    requires m in Suggestions(rules, board, selected)
    ensures selected.Some? && m in rules.legalMoves(board) && m.fromSquare == selected.value
    ensures forall c :: c in rules.legalMoves(board) && c.fromSquare == selected.value
              ==> SuggestionScore(rules, board, c) <= SuggestionScore(rules, board, m)
  {
    var legal := rules.legalMoves(board);
    var cands := MovesFrom(legal, selected.value);
    var v := MaxScore(rules, board, cands);
    var best := ScoringExactly(rules, board, cands, v);
    var top := Take(best, 2);
    ElementsMembers(top, |top|, m);
    var j :| 0 <= j < |top| && top[j] == m;
    assert m in best;
    MovesFromMembers(legal, selected.value, m);
    forall c | c in legal && c.fromSquare == selected.value
      ensures SuggestionScore(rules, board, c) <= SuggestionScore(rules, board, m)
    {
      MovesFromMembers(legal, selected.value, c);
      var i :| 0 <= i < |cands| && cands[i] == c;
    }
  }

  // ---------------------------------------------------------------------------
  // Move list
  // ---------------------------------------------------------------------------

  function DigitChar(d: nat): char
    requires d < 10
  {
    "0123456789"[d]
  }

  /** Decimal notation of `n`. */
  function NatToString(n: nat): (s: string)
    ensures s != []
    ensures forall i :: 0 <= i < |s| ==> '0' <= s[i] <= '9'
  {
    if n < 10 then [DigitChar(n)] else NatToString(n / 10) + [DigitChar(n % 10)]
  }

  /** The number that a string of decimal digits denotes. */
  function DigitsValue(s: string): int
    decreases |s|
  {
    if s == [] then 0 else DigitsValue(s[..|s| - 1]) * 10 + (s[|s| - 1] as int - '0' as int)
  }

  /** The decimal notation of `n` denotes `n` and has no leading zero. */
  lemma {:induction false} NatToStringValue(n: nat)
    ensures DigitsValue(NatToString(n)) == n
    ensures n > 0 ==> NatToString(n)[0] != '0'
  {
    if n >= 10 {
      NatToStringValue(n / 10);
      var s := NatToString(n);
      assert s[..|s| - 1] == NatToString(n / 10);
    }
  }

  /** Line `k` of the move list: move number k+1, White's SAN, then Black's SAN when there is one. */
  function MoveLine(history: seq<string>, k: nat): string
    requires 2 * k < |history|
  {
    NatToString(k + 1) + ". " + history[2 * k] + if 2 * k + 1 < |history| then " " + history[2 * k + 1] else ""
  }

  /** All lines of the move list: one per full move, the last one possibly with White's move alone. */
  function MoveLines(history: seq<string>): (lines: seq<string>)
    ensures |lines| == (|history| + 1) / 2
  {
    seq((|history| + 1) / 2, k requires 0 <= k < (|history| + 1) / 2 => MoveLine(history, k))
  }

  /** `sep`-separated concatenation of `lines`. */
  function Join(lines: seq<string>, sep: string): string
    decreases |lines|
  {
    if lines == [] then ""
    else if |lines| == 1 then lines[0]
    else lines[0] + sep + Join(lines[1..], sep)
  }

  /** Lines that are complete before an append do not change. */
  lemma MoveLineKept(history: seq<string>, san: string, k: nat)
    requires 2 * k + 1 < |history|
    ensures MoveLine(history + [san], k) == MoveLine(history, k)
  {
    var h' := history + [san];
    assert h'[2 * k] == history[2 * k] && h'[2 * k + 1] == history[2 * k + 1];
  }

  /** White's move, at an even index, opens a new numbered line. */
  lemma MoveLinesAfterWhite(history: seq<string>, san: string)
    requires |history| % 2 == 0
    ensures MoveLines(history + [san]) == MoveLines(history) + [NatToString(|history| / 2 + 1) + ". " + san]
  {
    var lhs, rhs := MoveLines(history + [san]), MoveLines(history) + [NatToString(|history| / 2 + 1) + ". " + san];
    assert |lhs| == |rhs|;
    forall k | 0 <= k < |lhs| ensures lhs[k] == rhs[k] {
      if k < |lhs| - 1 {
        MoveLineKept(history, san, k);
      } else {
        assert k == |history| / 2;
        assert (history + [san])[2 * k] == san;
        var head := NatToString(k + 1) + ". " + san;
        assert MoveLine(history + [san], k) == head + "";
      }
    }
  }

  /** Black's move, at an odd index, is appended to the last line after a space. */
  lemma MoveLinesAfterBlack(history: seq<string>, san: string)
    requires |history| % 2 == 1
    ensures var lines := MoveLines(history);
            |lines| > 0 && MoveLines(history + [san]) == lines[..|lines| - 1] + [lines[|lines| - 1] + " " + san]
  {
    var lines := MoveLines(history);
    var lhs, rhs := MoveLines(history + [san]), lines[..|lines| - 1] + [lines[|lines| - 1] + " " + san];
    assert |lhs| == |rhs|;
    forall k | 0 <= k < |lhs| ensures lhs[k] == rhs[k] {
      if k < |lhs| - 1 {
        MoveLineKept(history, san, k);
      } else {
        var h' := history + [san];
        assert h'[2 * k] == history[2 * k] && h'[2 * k + 1] == san;
        var head := NatToString(k + 1) + ". " + history[2 * k];
        assert MoveLine(history, k) == head + "";
        assert MoveLine(h', k) == head + (" " + san);
      }
    }
  }

  // ---------------------------------------------------------------------------
  // Undo policy and forced application
  // ---------------------------------------------------------------------------

  /** How many moves the undo button takes back: none, two on White's turn (or all if fewer), else one. */
  function UndoCount(n: nat, turn: Color): (c: nat)
    ensures c <= n
    ensures n == 0 <==> c == 0
    ensures n > 0 && turn == White ==> c == if n < 2 then n else 2
    ensures n > 0 && turn == Black ==> c == 1
  {
    var popped := if n > 0 && turn == White then 1 else 0;
    if n - popped > 0 then popped + 1 else popped
  }

  /**
   * With alternating turns the undo gives the move back to White whenever it
   * takes back two moves or a single Black-to-move ply.
   */
  lemma {:induction false} UndoReturnsTurnToWhite(rules: Rules, root: Position, stack: seq<Move>)
    requires AlternatesTurn(rules)
    requires |stack| >= 2 || (stack != [] && rules.turn(Replay(rules, root, stack)) == Black)
    ensures var c := UndoCount(|stack|, rules.turn(Replay(rules, root, stack)));
            rules.turn(Replay(rules, root, stack[..|stack| - c])) == White
  {
    var t := rules.turn(Replay(rules, root, stack));
    var n := |stack|;
    var c := UndoCount(n, t);
    var t0 := rules.turn(root);
    var rest := stack[..n - c];
    assert t == if n % 2 == 0 then t0 else Other(t0) by {
      ReplayTurn(rules, root, stack);
    }
    assert rules.turn(Replay(rules, root, rest)) == if (n - c) % 2 == 0 then t0 else Other(t0) by {
      ReplayTurn(rules, root, rest);
    }
    // two moves back keep the parity, one move back flips it
    if t == White {
      assert c == 2 && (n - c) % 2 == n % 2;
    } else {
      assert c == 1 && (n - c) % 2 != n % 2;
    }
  }

  /** The first of `moves` whose UCI string is `u`. */
  function FirstUciMatch(moves: seq<Move>, u: string, uci: Move -> string): (r: Option<Move>)
    ensures r.None? <==> forall j :: 0 <= j < |moves| ==> uci(moves[j]) != u
    ensures r.Some? ==> exists k :: 0 <= k < |moves| && moves[k] == r.value && uci(r.value) == u
                                    && forall j :: 0 <= j < k ==> uci(moves[j]) != u
    decreases |moves|
  {
    if moves == [] then None
    else if uci(moves[0]) == u then Some(moves[0])
    else
      var r := FirstUciMatch(moves[1..], u, uci);
      assert forall j :: 1 <= j < |moves| ==> moves[j] == moves[1..][j - 1];
      r
  }

  lemma {:induction false} FirstUciMatchAt(moves: seq<Move>, u: string, uci: Move -> string, k: int)
    requires 0 <= k < |moves| && uci(moves[k]) == u
    requires forall j :: 0 <= j < k ==> uci(moves[j]) != u
    ensures FirstUciMatch(moves, u, uci) == Some(moves[k])
    decreases |moves|
  {
    if k > 0 {
      FirstUciMatchAt(moves[1..], u, uci, k - 1);
    }
  }

  /** The legal move that a forced application pushes: the move itself, or the first with its UCI string. */
  function ForcedMove(legal: seq<Move>, move: Move, uci: Move -> string): Option<Move> {
    if move in legal then Some(move) else FirstUciMatch(legal, uci(move), uci)
  }

  /**
   * When UCI strings tell moves apart, as the rules library's do, the UCI
   * fallback never finds anything: forcing a move is the legality-guarded push.
   */
  lemma ForcedMoveIsLegalPush(legal: seq<Move>, move: Move, uci: Move -> string)
    requires forall a, b :: uci(a) == uci(b) ==> a == b
    ensures ForcedMove(legal, move, uci) == if move in legal then Some(move) else None
  {
  }

  /** A forced application pushes a legal move, and finds one exactly when the UCI strings allow. */
  lemma ForcedMoveSpec(legal: seq<Move>, move: Move, uci: Move -> string)
    ensures var f := ForcedMove(legal, move, uci);
            && (f.Some? <==> move in legal || exists j :: 0 <= j < |legal| && uci(legal[j]) == uci(move))
            && (f.Some? ==> f.value in legal && uci(f.value) == uci(move))
  {
  }

  /** The move a click on `sq` with `from` selected applies: the plain move, else a queen promotion for a pawn reaching the last rank. */
  function ClickMove(rules: Rules, board: Position, from: Square, sq: Square): Option<Move> {
    var legal := rules.legalMoves(board);
    var plain := ForcedMove(legal, Move(from, sq, None), rules.uci);
    if plain.Some? then plain
    else if SquareRank(sq) in {0, 7} && rules.pieceAt(board, from).Some? && rules.pieceAt(board, from).value.kind == Pawn
    then ForcedMove(legal, Move(from, sq, Some(Queen)), rules.uci)
    else None
  }

  // ---------------------------------------------------------------------------
  // The window's state
  // ---------------------------------------------------------------------------

  class BoardGUI {
    const game: GameManager
    const ai: StockfishEngine.StockfishAI
    var aiAvailable: bool
    var selectedSquare: Option<Square>
    var suggestedMoves: set<Move>
    var gameOver: bool
    var aiThinking: bool
    /** SAN of every move applied through the window, in order. */
    var moveHistory: seq<string>

    /**
     * Every move on the board has its SAN, computed on the position before it,
     * at the same index of the history.
     */
    ghost predicate HistoryMatches()
      reads this, game
    {
      && |moveHistory| == |game.moveStack|
      && forall i :: 0 <= i < |moveHistory| ==>
           moveHistory[i] == game.rules.san(Replay(game.rules, game.root, game.moveStack[..i]), game.moveStack[i])
    }

    /** Opens the window on `game` and tries to start the engine; a failed start leaves it unavailable. */
    constructor (game: GameManager, ai: StockfishEngine.StockfishAI, spawn: StockfishEngine.Spawn)
      requires game.moveStack == []
      modifies ai
      ensures this.game == game && this.ai == ai
      ensures ai.engine == StockfishEngine.AfterStart(old(ai.engine), spawn)
      ensures aiAvailable <==> ai.engine.Some?
      ensures selectedSquare == None && suggestedMoves == {} && !gameOver && !aiThinking && moveHistory == []
      ensures HistoryMatches()
    {
      this.game := game;
      this.ai := ai;
      selectedSquare := None;
      suggestedMoves := {};
      gameOver := false;
      aiThinking := false;
      moveHistory := [];
      var started := ai.Start(spawn);
      aiAvailable := started.Returned?;
    }

    /** Material balance of `board`: positive when White is ahead. */
    method MaterialScore(board: Position) returns (score: int)
      ensures score == Material(game.rules, board, 64)
    {
      score := 0;
      for sq := 0 to 64
        invariant score == Material(game.rules, board, sq)
      {
        var p := game.rules.pieceAt(board, sq);
        if p.None? {
          continue;
        }
        var v: int := PieceValue(p.value.kind);
        score := score + if p.value.color == White then v else -v;
      }
    }

    /**
     * One pass over the candidate moves: each is pushed, scored by material
     * gain times 100 plus the opponent's mobility, and the moves reaching the
     * best score so far are kept in order.
     */
    method BestCandidates(board: Position, cand: seq<Move>) returns (bestMoves: seq<Move>)
      requires cand != []
      ensures bestMoves == ScoringExactly(game.rules, board, cand, MaxScore(game.rules, board, cand))
    {
      var rules := game.rules;
      var baseScore := MaterialScore(board);
      var bestScore: Option<int> := None;
      bestMoves := [];
      for i := 0 to |cand|
        invariant i == 0 ==> bestScore.None? && bestMoves == []
        invariant i > 0 ==> bestScore == Some(MaxScore(rules, board, cand[..i]))
                            && bestMoves == ScoringExactly(rules, board, cand[..i], bestScore.value)
      {
        var m := cand[i];
        var b := rules.apply(board, m);
        var materialAfter := MaterialScore(b);
        var score := materialAfter - baseScore;
        var mobility := |rules.legalMoves(b)|;
        score := score * 100 + mobility;
        assert score == SuggestionScore(rules, board, m);
        MaxScoreExtend(rules, board, cand, i);
        if bestScore.None? || score > bestScore.value {
          ScoringExactlyNone(rules, board, cand[..i], score);
          ScoringExactlyExtend(rules, board, cand, i, score);
          bestScore := Some(score);
          bestMoves := [m];
        } else {
          ScoringExactlyExtend(rules, board, cand, i, bestScore.value);
          if score == bestScore.value {
            bestMoves := bestMoves + [m];
          }
        }
      }
      assert cand[..|cand|] == cand;
    }

    /** Rebuilds the suggestions for the selected square. */
    method ComputeSuggestions()
      modifies this`suggestedMoves
      ensures suggestedMoves == Suggestions(game.rules, game.Board(), selectedSquare)
    {
      var rules := game.rules;
      var board := game.Board();
      suggestedMoves := {};
      if selectedSquare.None? {
        return;
      }
      if rules.turn(board) != White {
        return;
      }
      var cand := MovesFrom(rules.legalMoves(board), selectedSquare.value);
      if cand == [] {
        return;
      }
      var bestMoves := BestCandidates(board, cand);
      var top := Take(bestMoves, 2);
      for k := 0 to |top|
        invariant suggestedMoves == Elements(top, k)
      {
        suggestedMoves := suggestedMoves + {top[k]};
      }
    }

    /** The text of the move list: numbered lines joined by newlines. */
    method UpdateMoveList() returns (text: string)
      ensures text == Join(MoveLines(moveHistory), "\n")
      ensures |MoveLines(moveHistory)| == (|moveHistory| + 1) / 2
    {
      var history := moveHistory;
      var moves: seq<string> := [];
      for i := 0 to |history|
        invariant moves == MoveLines(history[..i])
      {
        var san := history[i];
        assert history[..i + 1] == history[..i] + [san];
        if i % 2 == 0 {
          MoveLinesAfterWhite(history[..i], san);
          var moveNum := i / 2 + 1;
          moves := moves + [NatToString(moveNum) + ". " + san];
        } else {
          // the line opened by White's move is there to extend
          MoveLinesAfterBlack(history[..i], san);
          moves := moves[..|moves| - 1] + [moves[|moves| - 1] + " " + san];
        }
      }
      assert history[..|history|] == history;
      text := Join(moves, "\n");
    }

    /**
     * What a redraw of the board recomputes besides the picture: the suggestions,
     * when a square is selected, and the text of the move list.
     */
    method Redraw() returns (text: string)
      modifies this`suggestedMoves
      ensures selectedSquare.Some? ==> suggestedMoves == Suggestions(game.rules, game.Board(), selectedSquare)
      ensures selectedSquare.None? ==> suggestedMoves == old(suggestedMoves)
      ensures text == Join(MoveLines(moveHistory), "\n")
    {
      if selectedSquare.Some? {
        ComputeSuggestions();
      }
      text := UpdateMoveList();
    }

    /**
     * Pushes `move` when it is legal, or else the first legal move with the same
     * UCI string, recording its SAN first. Reports whether a move was pushed.
     */
    method ApplyMoveForce(move: Move) returns (applied: bool)
      modifies this, game
      ensures var chosen := ForcedMove(game.rules.legalMoves(old(game.Board())), move, game.rules.uci);
        && (applied <==> chosen.Some?)
        && (applied ==> game.moveStack == old(game.moveStack) + [chosen.value]
                        && moveHistory == old(moveHistory) + [game.rules.san(old(game.Board()), chosen.value)])
        && (!applied ==> game.moveStack == old(game.moveStack) && moveHistory == old(moveHistory))
      ensures selectedSquare == old(selectedSquare) && suggestedMoves == old(suggestedMoves)
      ensures gameOver == old(gameOver) && aiThinking == old(aiThinking) && aiAvailable == old(aiAvailable)
      ensures old(HistoryMatches()) ==> HistoryMatches()
    {
      var legal := game.rules.legalMoves(game.Board());
      if move in legal {
        Record(move);
        return true;
      }
      var u := game.rules.uci(move);
      for i := 0 to |legal|
        invariant forall j :: 0 <= j < i ==> game.rules.uci(legal[j]) != u
        invariant unchanged(this) && unchanged(game)
      {
        var m := legal[i];
        if game.rules.uci(m) == u {
          FirstUciMatchAt(legal, u, game.rules.uci, i);
          Record(m);
          return true;
        }
      }
      return false;
    }

    /** Records the SAN of `m` on the current board, then pushes `m`. */
    method Record(m: Move)
      modifies this`moveHistory, game`moveStack
      ensures game.moveStack == old(game.moveStack) + [m]
      ensures moveHistory == old(moveHistory) + [game.rules.san(old(game.Board()), m)]
      ensures old(HistoryMatches()) ==> HistoryMatches()
    {
      var moveSan := game.rules.san(game.Board(), m);
      moveHistory := moveHistory + [moveSan];
      game.moveStack := game.moveStack + [m];
      if old(HistoryMatches()) {
        var s := game.moveStack;
        forall i | 0 <= i < |moveHistory|
          ensures moveHistory[i] == game.rules.san(Replay(game.rules, game.root, s[..i]), s[i])
        {
          if i < |s| - 1 {
            assert s[..i] == old(game.moveStack)[..i];
          } else {
            assert s[..i] == old(game.moveStack);
          }
        }
      }
    }

    /**
     * The undo button: nothing on an empty stack; otherwise takes back two moves
     * on White's turn (one if only one was made) and one on Black's turn. The
     * SAN history is left as it was.
     */
    method Undo()
      modifies this, game
      ensures var n := |old(game.moveStack)|;
              game.moveStack == old(game.moveStack)[..n - UndoCount(n, game.rules.turn(old(game.Board())))]
      ensures moveHistory == old(moveHistory)
      ensures old(game.moveStack) != [] ==> selectedSquare == None && !aiThinking
      ensures old(game.moveStack) == [] ==> selectedSquare == old(selectedSquare) && aiThinking == old(aiThinking)
      ensures suggestedMoves == old(suggestedMoves) && gameOver == old(gameOver) && aiAvailable == old(aiAvailable)
    {
      if |game.moveStack| == 0 {
        return;
      }
      if |game.moveStack| > 0 && game.rules.turn(game.Board()) == White {
        game.moveStack := game.moveStack[..|game.moveStack| - 1];
      }
      if |game.moveStack| > 0 {
        game.moveStack := game.moveStack[..|game.moveStack| - 1];
      }
      selectedSquare := None;
      aiThinking := false;
    }

    /** Undo that also takes the SAN of every undone move off the history. */
    method UndoWithHistory()
      modifies this, game
      ensures var n := |old(game.moveStack)|;
              game.moveStack == old(game.moveStack)[..n - UndoCount(n, game.rules.turn(old(game.Board())))]
      ensures old(HistoryMatches()) ==> HistoryMatches()
      ensures old(game.moveStack) != [] ==> selectedSquare == None && !aiThinking
      ensures old(game.moveStack) == [] ==> selectedSquare == old(selectedSquare) && aiThinking == old(aiThinking)
      ensures suggestedMoves == old(suggestedMoves) && gameOver == old(gameOver) && aiAvailable == old(aiAvailable)
    {
      if |game.moveStack| == 0 {
        return;
      }
      if |game.moveStack| > 0 && game.rules.turn(game.Board()) == White {
        game.moveStack := game.moveStack[..|game.moveStack| - 1];
        if |moveHistory| > 0 {
          moveHistory := moveHistory[..|moveHistory| - 1];
        }
      }
      if |game.moveStack| > 0 {
        game.moveStack := game.moveStack[..|game.moveStack| - 1];
        if |moveHistory| > 0 {
          moveHistory := moveHistory[..|moveHistory| - 1];
        }
      }
      selectedSquare := None;
      aiThinking := false;
      if old(HistoryMatches()) {
        var s := game.moveStack;
        forall i | 0 <= i < |moveHistory|
          ensures moveHistory[i] == game.rules.san(Replay(game.rules, game.root, s[..i]), s[i])
        {
          assert s[..i] == old(game.moveStack)[..i];
          assert moveHistory[i] == old(moveHistory)[i];
        }
      }
    }

    /** A new game: the board back to its start and all bookkeeping cleared. */
    method NewGame()
      modifies this, game
      ensures game.moveStack == [] && game.Board() == game.rules.start && moveHistory == []
      ensures selectedSquare == None && suggestedMoves == {} && !gameOver && !aiThinking
      ensures aiAvailable == old(aiAvailable)
      ensures HistoryMatches()
    {
      game.Reset();
      selectedSquare := None;
      suggestedMoves := {};
      gameOver := false;
      aiThinking := false;
      moveHistory := [];
    }

    /** A click with nothing selected: a White piece on `sq` becomes the selection, and its suggestions are shown. */
    method Select(sq: Square)
      modifies this`selectedSquare, this`suggestedMoves
      ensures var piece := game.rules.pieceAt(game.Board(), sq);
              if piece.Some? && piece.value.color == White
              then selectedSquare == Some(sq) && suggestedMoves == Suggestions(game.rules, game.Board(), Some(sq))
              else selectedSquare == old(selectedSquare) && suggestedMoves == old(suggestedMoves)
    {
      var piece := game.rules.pieceAt(game.Board(), sq);
      if piece.Some? && piece.value.color == White {
        selectedSquare := Some(sq);
        var _ := Redraw();
      }
    }

    /**
     * A click on `sq` with a square selected: the move there is forced, then as a
     * queen promotion for a pawn reaching the last rank; the selection is cleared
     * either way.
     */
    method MoveSelectedTo(sq: Square) returns (applied: bool)
      requires selectedSquare.Some?
      modifies this, game
      ensures var chosen := ClickMove(game.rules, old(game.Board()), old(selectedSquare).value, sq);
        && (applied <==> chosen.Some?)
        && (applied ==> game.moveStack == old(game.moveStack) + [chosen.value]
                        && moveHistory == old(moveHistory) + [game.rules.san(old(game.Board()), chosen.value)])
        && (!applied ==> game.moveStack == old(game.moveStack) && moveHistory == old(moveHistory))
      ensures selectedSquare == None && suggestedMoves == old(suggestedMoves)
      ensures gameOver == old(gameOver) && aiThinking == old(aiThinking) && aiAvailable == old(aiAvailable)
      ensures old(HistoryMatches()) ==> HistoryMatches()
    {
      var from := selectedSquare.value;
      applied := ApplyMoveForce(Move(from, sq, None));
      if !applied {
        var fromPiece := game.rules.pieceAt(game.Board(), from);
        if SquareRank(sq) in {0, 7} && fromPiece.Some? && fromPiece.value.kind == Pawn {
          applied := ApplyMoveForce(Move(from, sq, Some(Queen)));
        }
      }
      selectedSquare := None;
      var _ := Redraw();
    }

    /**
     * A click at pixel (x, y). Ignored when the game is over, the engine is
     * thinking, it is not White's turn, or the click is off the board. With no
     * selection, a White piece under the click becomes the selection. With a
     * selection, the move to the clicked square is tried (then as a queen
     * promotion for a pawn reaching the last rank), and the selection is cleared
     * either way. Reports whether a move was applied and whether the engine's
     * reply is now due.
     */
    method OnClick(x: int, y: int) returns (applied: bool, aiRequested: bool)
      modifies this, game
      ensures var click := ClickToSquare(x, y);
        var ignored := old(gameOver) || old(aiThinking) || game.rules.turn(old(game.Board())) != White || click.None?;
        && (ignored || old(selectedSquare).None? ==> game.moveStack == old(game.moveStack) && moveHistory == old(moveHistory) && !applied)
        && (ignored ==> selectedSquare == old(selectedSquare))
        && (!ignored && old(selectedSquare).None? ==>
              var piece := game.rules.pieceAt(old(game.Board()), click.value);
              selectedSquare == if piece.Some? && piece.value.color == White then click else None)
        && (!ignored && old(selectedSquare).Some? ==>
              var chosen := ClickMove(game.rules, old(game.Board()), old(selectedSquare).value, click.value);
              && selectedSquare == None
              && (applied <==> chosen.Some?)
              && (applied ==> game.moveStack == old(game.moveStack) + [chosen.value]
                              && moveHistory == old(moveHistory) + [game.rules.san(old(game.Board()), chosen.value)])
              && (!applied ==> game.moveStack == old(game.moveStack) && moveHistory == old(moveHistory)))
      ensures aiRequested <==> applied && game.rules.turn(game.Board()) == Black && !gameOver
      ensures old(HistoryMatches()) ==> HistoryMatches()
      ensures gameOver == old(gameOver) && aiThinking == old(aiThinking) && aiAvailable == old(aiAvailable)
      ensures old(selectedSquare).None? && selectedSquare.Some? ==>
                suggestedMoves == Suggestions(game.rules, game.Board(), selectedSquare)
      ensures !(old(selectedSquare).None? && selectedSquare.Some?) ==> suggestedMoves == old(suggestedMoves)
    {
      applied, aiRequested := false, false;
      if gameOver || aiThinking || game.rules.turn(game.Board()) != White {
        return;
      }
      var click := ClickToSquare(x, y);
      if click.None? {
        return;
      }
      var sq := click.value;
      if selectedSquare.None? {
        Select(sq);
        return;
      }
      applied := MoveSelectedTo(sq);
      aiRequested := applied && game.rules.turn(game.Board()) == Black && !gameOver;
    }
  }

  /**
   * The undo button as written loses the history's correspondence with the
   * board: after any effective undo the history is longer than the stack.
   */
  method UndoLeavesStaleHistory(gui: BoardGUI) returns (stale: bool)
    requires gui.HistoryMatches() && gui.game.moveStack != []
    modifies gui, gui.game
    ensures stale && |gui.moveHistory| > |gui.game.moveStack| && !gui.HistoryMatches()
  {
    gui.Undo();
    stale := |gui.moveHistory| > |gui.game.moveStack|;
  }
}
