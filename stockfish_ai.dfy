/**
 * The engine adapter: a session with an external analysis engine that is
 * either absent or running, the two queries made through it, and the tactical
 * fallback heuristic that scores every legal move and keeps the first best one.
 *
 * The engine process is outside the model: launching it, asking it to play and
 * asking it to analyse are parameters whose outcome (a handle or a failure, an
 * answer or an error) is given by the caller.
 */
module StockfishEngine {
  import opened ChessRules

  const STOCKFISH_PATH: string := "stockfish"

  /** An opaque handle on a running engine process. */
  type EngineHandle = nat

  /** What launching the engine produced. */
  datatype Spawn = Spawned(handle: EngineHandle) | SpawnFailed

  /** What one request to the running engine produced. */
  datatype Reply<T> = Answer(value: T) | EngineError

  /** A Python call either returns a value or lets an exception escape. */
  datatype Outcome<T> = Returned(value: T) | Raised

  /** The search limit handed to the engine: a depth, or a time in seconds (none means unbounded). */
  datatype Limit = DepthLimit(depth: int) | TimeLimit(seconds: Option<real>)

  /** A depth, when one is given, is the limit; otherwise the time limit is. */
  function ChooseLimit(timeLimit: Option<real>, depth: Option<int>): (l: Limit)
    ensures l.DepthLimit? <==> depth.Some?
    ensures l.DepthLimit? ==> l.depth == depth.value
    ensures l.TimeLimit? ==> l.seconds == timeLimit
  {
    if depth.Some? then DepthLimit(depth.value) else TimeLimit(timeLimit)
  }

  /** The depth wins: with a depth given, the time limit has no influence at all. */
  lemma DepthOverridesTime(t1: Option<real>, t2: Option<real>, d: int)
    ensures ChooseLimit(t1, Some(d)) == ChooseLimit(t2, Some(d)) == DepthLimit(d)
  {
  }

  /** The engine session after `start`: kept when present, otherwise what the launch gave. */
  function AfterStart(engine: Option<EngineHandle>, spawn: Spawn): Option<EngineHandle> {
    if engine.Some? then engine
    else if spawn.Spawned? then Some(spawn.handle)
    else None
  }

  // ---------------------------------------------------------------------------
  // Tactical heuristic: the score of one candidate move
  // ---------------------------------------------------------------------------

  /**
   * Capture term: nothing when the destination is empty; otherwise 100 plus the
   * captured piece's value, less 50 when the capturing piece is worth more.
   */
  function CaptureTerm(rules: Rules, board: Position, m: Move): int {
    match rules.pieceAt(board, m.toSquare)
    case None => 0
    case Some(captured) =>
      var penalty :=
        match rules.pieceAt(board, m.fromSquare)
        case Some(attacker) => if PieceValue(captured.kind) < PieceValue(attacker.kind) then 50 else 0
        case None => 0;
      100 + PieceValue(captured.kind) - penalty
  }

  /** Threat on one square after the move: ten times the value of a White piece there that Black attacks. */
  function SquareThreat(rules: Rules, after: Position, sq: Square): nat {
    match rules.pieceAt(after, sq)
    case Some(p) => if p.color == White && rules.isAttackedBy(after, Black, sq) then 10 * PieceValue(p.kind) else 0
    case None => 0
  }

  /** The threat term summed over the squares below `n`. */
  function ThreatSum(rules: Rules, after: Position, n: nat): int
    requires n <= 64
  {
    if n == 0 then 0 else ThreatSum(rules, after, n - 1) + SquareThreat(rules, after, n - 1)
  }

  /** Development bonus: 5 when the moving piece is a knight or a bishop. */
  function DevelopmentBonus(rules: Rules, board: Position, m: Move): int {
    match rules.pieceAt(board, m.fromSquare)
    case Some(p) => if p.kind == Knight || p.kind == Bishop then 5 else 0
    case None => 0
  }

  /** Centre bonus: 3 when the destination lies on files c..f and ranks 3..6 (indices 2..5). */
  function CentreBonus(m: Move): int {
    if 2 <= SquareFile(m.toSquare) <= 5 && 2 <= SquareRank(m.toSquare) <= 5 then 3 else 0
  }

  /** Capture and threat terms together: the value before the quiet-move bonuses are considered. */
  function TacticalBase(rules: Rules, board: Position, m: Move): int {
    CaptureTerm(rules, board, m) + ThreatSum(rules, rules.apply(board, m), 64)
  }

  /** The whole score of a candidate move: the bonuses count only when nothing else did. */
  function TacticalScore(rules: Rules, board: Position, m: Move): int {
    var base := TacticalBase(rules, board, m);
    if base == 0 then DevelopmentBonus(rules, board, m) + CentreBonus(m) else base
  }

  /** Index `k` holds a strictly-first maximum of the scores of `moves`. */
  ghost predicate IsFirstBest(rules: Rules, board: Position, moves: seq<Move>, k: int) {
    && 0 <= k < |moves|
    && (forall j :: 0 <= j < |moves| ==> TacticalScore(rules, board, moves[j]) <= TacticalScore(rules, board, moves[k]))
    && (forall j :: 0 <= j < k ==> TacticalScore(rules, board, moves[j]) < TacticalScore(rules, board, moves[k]))
  }

  lemma {:induction false} ThreatSumBounds(rules: Rules, after: Position, n: nat)
    requires n <= 64
    ensures 0 <= ThreatSum(rules, after, n) <= 90 * n
    ensures ThreatSum(rules, after, n) % 10 == 0
  {
    if n > 0 {
      ThreatSumBounds(rules, after, n - 1);
    }
  }

  /** No White piece attacked by Black after the move means no threat term. */
  lemma {:induction false} ThreatSumUnattacked(rules: Rules, after: Position, n: nat)
    requires n <= 64
    requires forall sq: Square :: sq < n && rules.pieceAt(after, sq).Some? && rules.pieceAt(after, sq).value.color == White
               ==> !rules.isAttackedBy(after, Black, sq)
    ensures ThreatSum(rules, after, n) == 0
  {
    if n > 0 {
      ThreatSumUnattacked(rules, after, n - 1);
    }
  }

  /** Every score is at least 0, so the sentinel -1000 is always beaten by the first move. */
  lemma ScoreNonNegative(rules: Rules, board: Position, m: Move)
    ensures TacticalScore(rules, board, m) >= 0
  {
    ThreatSumBounds(rules, rules.apply(board, m), 64);
  }

  /** A capture scores at least 50; a move that neither captures nor threatens scores at most 8. */
  lemma CaptureBeatsQuietMove(rules: Rules, board: Position, capture: Move, quiet: Move)
    requires rules.pieceAt(board, capture.toSquare).Some?
    requires rules.pieceAt(board, quiet.toSquare).None?
    requires ThreatSum(rules, rules.apply(board, quiet), 64) == 0
    ensures TacticalScore(rules, board, capture) >= 50
    ensures TacticalScore(rules, board, quiet) <= 8
    ensures TacticalScore(rules, board, capture) > TacticalScore(rules, board, quiet)
  {
    ThreatSumBounds(rules, rules.apply(board, capture), 64);
  }

  /** The quiet-move bonuses apply exactly when capture and threat terms are both zero. */
  lemma BonusOnlyWhenBaseIsZero(rules: Rules, board: Position, m: Move)
    ensures TacticalBase(rules, board, m) != 0 ==> TacticalScore(rules, board, m) == TacticalBase(rules, board, m)
    ensures TacticalBase(rules, board, m) == 0 ==> TacticalScore(rules, board, m) in {0, 3, 5, 8}
    ensures TacticalBase(rules, board, m) == 0 <==>
              rules.pieceAt(board, m.toSquare).None? && ThreatSum(rules, rules.apply(board, m), 64) == 0
  {
    ThreatSumBounds(rules, rules.apply(board, m), 64);
  }

  /** The selection is determined: at most one index is a strictly-first maximum. */
  lemma FirstBestUnique(rules: Rules, board: Position, moves: seq<Move>, k1: int, k2: int)
    requires IsFirstBest(rules, board, moves, k1) && IsFirstBest(rules, board, moves, k2)
    ensures k1 == k2
  {
    var s1, s2 := TacticalScore(rules, board, moves[k1]), TacticalScore(rules, board, moves[k2]);
    // both are maxima, so they score the same, and an earlier index would score strictly less
    assert s1 <= s2 && s2 <= s1;
    assert k1 < k2 ==> s1 < s2;
    assert k2 < k1 ==> s2 < s1;
  }

  // ---------------------------------------------------------------------------
  // The engine session
  // ---------------------------------------------------------------------------

  class StockfishAI {
    /** Where the engine executable is looked up. */
    const path: string
    /** None, or the running engine. */
    var engine: Option<EngineHandle>

    /** An absent or empty path falls back to the default executable name. */
    constructor (path: Option<string>)
      ensures this.path == if path.Some? && path.value != "" then path.value else STOCKFISH_PATH
      ensures engine == None
    {
      this.path := if path.Some? && path.value != "" then path.value else STOCKFISH_PATH;
      engine := None;
    }

    /**
     * Launches the engine unless it is already running. A failed launch lets
     * its exception escape and leaves the session absent.
     */
    method Start(spawn: Spawn) returns (r: Outcome<()>)
      modifies this
      ensures engine == AfterStart(old(engine), spawn)
      ensures r.Raised? <==> old(engine).None? && spawn.SpawnFailed?
    {
      if engine.Some? {
        return Returned(());
      }
      match spawn
      case Spawned(h) =>
        engine := Some(h);
        r := Returned(());
      case SpawnFailed =>
        r := Raised;
    }

    /** Ends the session whatever state it is in; an error while quitting is swallowed. */
    method Stop(quit: Reply<()>)
      modifies this
      ensures engine == None
    {
      if engine.Some? {
        match quit {
          case Answer(_) =>
          case EngineError =>  // swallowed
        }
        engine := None;
      }
    }

    /**
     * Asks the engine for its move within the chosen limit, starting it first
     * when needed. A failed start escapes; an engine error becomes None.
     */
    method BestMove(board: Position, spawn: Spawn,
                    play: (EngineHandle, Position, Limit) -> Reply<Option<Move>>,
                    timeLimit: Option<real> := Some(0.5), depth: Option<int> := None)
      returns (r: Outcome<Option<Move>>)
      modifies this
      ensures engine == AfterStart(old(engine), spawn)
      ensures engine.None? ==> r == Raised
      ensures engine.Some? ==>
                r == Returned(match play(engine.value, board, ChooseLimit(timeLimit, depth))
                              case Answer(mv) => mv
                              case EngineError => None)
    {
      if engine.None? {
        var started := Start(spawn);
        if started.Raised? {
          return Raised;
        }
      }
      var limit := ChooseLimit(timeLimit, depth);
      var res := play(engine.value, board, limit);
      match res
      case Answer(mv) => r := Returned(mv);
      case EngineError => r := Returned(None);
    }

    /**
     * Asks the engine to analyse the position within the chosen limit, with the
     * same start and error policy as BestMove.
     */
    method Analyze<Info>(board: Position, spawn: Spawn,
                         analyse: (EngineHandle, Position, Limit) -> Reply<Info>,
                         timeLimit: Option<real> := Some(0.5), depth: Option<int> := None)
      returns (r: Outcome<Option<Info>>)
      modifies this
      ensures engine == AfterStart(old(engine), spawn)
      ensures engine.None? ==> r == Raised
      ensures engine.Some? ==>
                r == Returned(match analyse(engine.value, board, ChooseLimit(timeLimit, depth))
                              case Answer(info) => Some(info)
                              case EngineError => None)
    {
      if engine.None? {
        var started := Start(spawn);
        if started.Raised? {
          return Raised;
        }
      }
      var limit := ChooseLimit(timeLimit, depth);
      var res := analyse(engine.value, board, limit);
      match res
      case Answer(info) => r := Returned(Some(info));
      case EngineError => r := Returned(None);
    }

    /**
     * Scores every legal move and returns the first one with the highest score,
     * or None when there is no legal move.
     */
    method GetTacticalMove(rules: Rules, board: Position) returns (best: Option<Move>)
      ensures best.None? <==> rules.legalMoves(board) == []
      ensures best.Some? ==> best.value in rules.legalMoves(board)
      ensures best.Some? ==> exists k :: IsFirstBest(rules, board, rules.legalMoves(board), k)
                                       && best.value == rules.legalMoves(board)[k]
    {
      var legal := rules.legalMoves(board);
      if legal == [] {
        return None;
      }
      best := None;
      var bestValue := -1000;
      ghost var bestIndex := 0;
      for i := 0 to |legal|
        invariant i == 0 ==> best.None? && bestValue == -1000
        invariant i > 0 ==> 0 <= bestIndex < i && best == Some(legal[bestIndex])
                            && bestValue == TacticalScore(rules, board, legal[bestIndex])
        invariant i > 0 ==> forall j :: 0 <= j < i ==> TacticalScore(rules, board, legal[j]) <= bestValue
        invariant i > 0 ==> forall j :: 0 <= j < bestIndex ==> TacticalScore(rules, board, legal[j]) < bestValue
      {
        var m := legal[i];
        var value := 0;
        // captures come first
        var captured := rules.pieceAt(board, m.toSquare);
        if captured.Some? {
          var pieceValue := PieceValue(captured.value.kind);
          value := value + 100 + pieceValue;
          // an unfavourable trade is penalised
          var attacking := rules.pieceAt(board, m.fromSquare);
          if attacking.Some? {
            var attackerValue := PieceValue(attacking.value.kind);
            if pieceValue < attackerValue {
              value := value - 50;
            }
          }
        }
        // White pieces attacked by Black once the move is made
        var after := rules.apply(board, m);
        for sq := 0 to 64
          invariant value == CaptureTerm(rules, board, m) + ThreatSum(rules, after, sq)
        {
          var target := rules.pieceAt(after, sq);
          if target.Some? && target.value.color == White {
            if rules.isAttackedBy(after, Black, sq) {
              value := value + PieceValue(target.value.kind) * 10;
            }
          }
        }
        // development and centre, only when nothing else scored
        if value == 0 {
          var piece := rules.pieceAt(board, m.fromSquare);
          if piece.Some? && piece.value.kind in [Knight, Bishop] {
            value := value + 5;
          }
          var toFile := SquareFile(m.toSquare);
          var toRank := SquareRank(m.toSquare);
          if 2 <= toFile <= 5 && 2 <= toRank <= 5 {
            value := value + 3;
          }
        }
        ScoreNonNegative(rules, board, m);
        if value > bestValue {
          bestValue := value;
          best := Some(m);
          bestIndex := i;
        }
      }
    }
  }
}
