# Chess: player against engine — move choice and board bookkeeping

This project models the decision and bookkeeping core of a desktop chess game.
A human plays White and an analysis engine plays Black. The model covers three
parts:

- The engine adapter (`StockfishEngine`, `stockfish_ai.dfy`). An engine session
  is either absent or running, with a `start`/`stop` lifecycle. The adapter
  asks the running engine for a best move or an analysis, and a depth limit,
  when one is given, wins over the time limit. It also holds the tactical
  fallback heuristic. That heuristic scores every legal move by capture, by the
  threats the move leaves, and by development and centre bonuses. It returns
  the first move with the highest score.
- The game wrapper (`Game`, `game_manager.dfy`). Its push is guarded by
  legality, its undo pops only from a non-empty stack, and it can filter the
  legal moves by their origin square.
- The board window's bookkeeping, without any drawing (`BoardGui`,
  `board_gui.dfy`):
  - the material count;
  - the one or two suggested moves for the selected White piece;
  - the numbered move list;
  - the mapping from a mouse click to a square, with 80-pixel squares;
  - the undo button, which takes back two plies, or one;
  - forced application of a move, which records its SAN in the history.

The chess rules library is a collaborator. It is not reimplemented:
`ChessRules.Rules` bundles the operations the program calls as function values:

- the start position;
- legal-move enumeration;
- move application;
- piece lookup;
- attack detection;
- side to move;
- SAN and UCI strings.

A position is an abstract type. A board of the library is modelled as a root
position plus its move stack, and `ChessRules.Replay` gives the current
position. So a pop gives back exactly the earlier position. Where a property
needs a fact about the rules, that fact is a precondition of the lemma. Two
are used: turns alternate with each move, and UCI strings tell moves apart.

The engine process is also outside the model. The caller passes in what it
produced:

- `Spawn`: a handle or a failure from launching it;
- `Reply`: an answer or an error from one request.

A Python exception that escapes a call is the `Raised` case of `Outcome`.

Where the code and the project's design description disagree, the model
follows the code:

- The design gives the tactical heuristic a different set of weights. The code's
  weights are modelled:
  - capture: 100 plus the captured value, minus 50 for an unfavourable trade;
  - threat: 10 times the value of each White piece that Black attacks after
    the move;
  - development: 5 for a knight or bishop, only when nothing else scored;
  - centre: 3, under the same condition.
- The design says starting the engine never throws. In the code, `start` lets
  the launch failure escape, and `best_move` and `analyze` pass it on to their
  caller. `BestMove` and `Analyze` return `Raised` in that case.
- The design says a best move is checked against the legal moves. The code
  returns the engine's move unchecked, and so does the model.

## Model

| member | source | states |
|---|---|---|
| ChessRules.SquareFile | engine/stockfish_ai.py:132 | the file of a square is in 0..7 |
| ChessRules.SquareRank | engine/stockfish_ai.py:133 | the rank of a square is in 0..7 |
| ChessRules.PieceValue | engine/stockfish_ai.py:88-95 | the material table shared by the heuristic and the material count: pawn 1, knight and bishop 3, rook 5, queen 9, king 0 (the same table is at gui/board_gui.py:236-243) |
| ChessRules.SquareAt | gui/board_gui.py:343 | the square built from a file and rank has exactly that file and rank |
| ChessRules.Replay | engine/game_manager.py:13 | the position of a board: its root position with every move of its stack applied in order |
| ChessRules.ReplayPush | engine/game_manager.py:21 | pushing a move on a board gives the rules' application of that move to the current position |
| ChessRules.ReplayTurn | gui/board_gui.py:607 | with alternating turns, the side to move depends only on the parity of the stack length |
| Game.MovesFrom | engine/game_manager.py:30 | the filtered list is no longer than the input and every kept move starts on the square |
| Game.MovesFromCount | engine/game_manager.py:30 | the filtered list holds each move with the given origin exactly as often as the input does, and no other move |
| Game.MovesFromAppend | engine/game_manager.py:30 | filtering distributes over concatenation, so the enumeration order is kept |
| Game.MovesFromMembers | engine/game_manager.py:30 | a move is kept if and only if it is in the input and starts on the square |
| Game.MovesFromIdempotent | engine/game_manager.py:30 | filtering twice by the same origin equals filtering once |
| Game.GameManager.constructor | engine/game_manager.py:12-13 | a new game starts at the rules' start position with an empty stack |
| Game.GameManager.Reset | engine/game_manager.py:15-16 | reset empties the stack and returns to the rules' start position |
| Game.GameManager.Push | engine/game_manager.py:18-23 | reports true if and only if the move is legal; if so it is appended and the new position is its application; otherwise nothing changes |
| Game.GameManager.Undo | engine/game_manager.py:25-27 | an empty stack stays empty; otherwise exactly the last move is removed, and re-applying it gives back the previous position |
| Game.GameManager.LegalMovesFrom | engine/game_manager.py:29-30 | exactly the legal moves starting on the square, each with its multiplicity |
| Game.PushThenUndo | engine/game_manager.py:18-27 | a legal push followed by an undo restores the stack and the position |
| StockfishEngine.ChooseLimit | engine/stockfish_ai.py:42-45 | the limit is a depth exactly when a depth is given (that depth), otherwise the given time |
| StockfishEngine.DepthOverridesTime | engine/stockfish_ai.py:42-45 | with a depth given, the time argument has no influence on the limit |
| StockfishEngine.AfterStart | engine/stockfish_ai.py:18-22 | the session after a start: a running one is kept, otherwise the launched handle, or none when the launch failed |
| StockfishEngine.CaptureTerm | engine/stockfish_ai.py:84-104 | 0 for a move to an empty square; otherwise 100 plus the captured piece's value, less 50 when the capturing piece is worth more |
| StockfishEngine.SquareThreat | engine/stockfish_ai.py:111-123 | 10 times the value of the White piece on a square when Black attacks it after the move, otherwise 0 |
| StockfishEngine.ThreatSum | engine/stockfish_ai.py:111-123 | the threat term: the sum of the square threats over the squares below n |
| StockfishEngine.DevelopmentBonus | engine/stockfish_ai.py:128-130 | 5 when a knight or bishop moves, otherwise 0 |
| StockfishEngine.CentreBonus | engine/stockfish_ai.py:132-135 | 3 when the destination has file and rank in 2..5, otherwise 0 |
| StockfishEngine.TacticalBase | engine/stockfish_ai.py:82-123 | the capture term plus the threat term over all 64 squares |
| StockfishEngine.TacticalScore | engine/stockfish_ai.py:82-135 | the score of a move: the base, or the development and centre bonuses when the base is 0 |
| StockfishEngine.IsFirstBest | engine/stockfish_ai.py:137-139 | index k scores highest among the moves, and strictly higher than every earlier move |
| StockfishEngine.ThreatSumBounds | engine/stockfish_ai.py:110-123 | the threat term over n squares is between 0 and 90n and a multiple of 10 |
| StockfishEngine.ThreatSumUnattacked | engine/stockfish_ai.py:110-123 | no White piece attacked by Black means a threat term of 0 |
| StockfishEngine.ScoreNonNegative | engine/stockfish_ai.py:82-135 | every move scores at least 0, so the first move always beats the -1000 sentinel |
| StockfishEngine.CaptureBeatsQuietMove | engine/stockfish_ai.py:84-135 | a capture scores at least 50, a non-capturing move without threats at most 8, so the capture ranks higher |
| StockfishEngine.BonusOnlyWhenBaseIsZero | engine/stockfish_ai.py:125-135 | the development and centre bonuses apply exactly when there is neither a capture nor a threat, and then the score is 0, 3, 5 or 8 |
| StockfishEngine.FirstBestUnique | engine/stockfish_ai.py:137-139 | at most one index is a first maximum, so the tactical choice is determined |
| StockfishEngine.StockfishAI.constructor | engine/stockfish_ai.py:14-16 | an absent or empty path becomes the default "stockfish"; there is no engine session yet |
| StockfishEngine.StockfishAI.Start | engine/stockfish_ai.py:18-22 | a running session is kept; otherwise the session is what the launch produced; it raises exactly when there was no session and the launch failed |
| StockfishEngine.StockfishAI.Stop | engine/stockfish_ai.py:24-30 | afterwards there is no session, whether or not quitting failed |
| StockfishEngine.StockfishAI.BestMove | engine/stockfish_ai.py:32-49 | starts the engine if needed; a failed start raises; otherwise the engine's move under the chosen limit, or None on an engine error |
| StockfishEngine.StockfishAI.Analyze | engine/stockfish_ai.py:51-67 | the same start and limit policy; the engine's analysis, or None on an engine error |
| StockfishEngine.StockfishAI.GetTacticalMove | engine/stockfish_ai.py:69-141 | None exactly when there is no legal move; otherwise a legal move at the first index that reaches the highest tactical score |
| BoardGui.ClickToSquare | gui/board_gui.py:338-343 | a square exactly for clicks inside the 640x640 board, with file x div 80 and rank 7 - y div 80 |
| BoardGui.ClickInsideDrawnSquare | gui/board_gui.py:338-343 | every pixel of the cell drawn for a square maps back to that square |
| BoardGui.SquareMaterial | gui/board_gui.py:246-250 | one square's share of the material count: 0 when empty, the piece's value for White, its negation for Black |
| BoardGui.Material | gui/board_gui.py:244-251 | the material count: the sum of the squares' shares over the squares below n |
| BoardGui.MaterialEmptyBoard | gui/board_gui.py:234-251 | a board with no pieces scores 0 |
| BoardGui.MaterialColourSwap | gui/board_gui.py:234-251 | giving every piece to the other side negates the material score |
| BoardGui.SuggestionScore | gui/board_gui.py:277-280 | the score of a candidate: 100 times the material it gains for White, plus the number of legal moves after it |
| BoardGui.BoardGUI.MaterialScore | gui/board_gui.py:234-251 | the loop's result is the sum over all 64 squares of the piece values, positive for White and negative for Black |
| BoardGui.MaxScore | gui/board_gui.py:271-285 | the best candidate score is at least every candidate's score and is reached by one of them |
| BoardGui.ScoringExactly | gui/board_gui.py:281-285 | the candidates kept for a score are candidates with exactly that score |
| BoardGui.ScoringExactlyNone | gui/board_gui.py:281-283 | when every earlier candidate scores below the new score, nothing earlier is kept |
| BoardGui.ScoringExactlyReached | gui/board_gui.py:281-285 | a candidate that reaches the score is among those kept |
| BoardGui.ElementsMembers | gui/board_gui.py:288-289 | the suggestion set holds exactly the elements of the kept prefix |
| BoardGui.Suggestions | gui/board_gui.py:253-289 | the suggestions: none without a selection, off White's turn or without a candidate; otherwise a set of the first two candidates that reach the best score |
| BoardGui.SuggestionsEmpty | gui/board_gui.py:257-266 | there are no suggestions if and only if there is no selection, it is not White's turn, or the selected square has no legal move |
| BoardGui.SuggestionsAtMostTwo | gui/board_gui.py:287-289 | there are at most two suggestions |
| BoardGui.SuggestionsAreBestLegal | gui/board_gui.py:253-289 | every suggestion is a legal move from the selected square, and no candidate from that square scores higher |
| BoardGui.BoardGUI.BestCandidates | gui/board_gui.py:268-285 | the scan keeps, in order, exactly the candidates reaching the best score of material gain times 100 plus mobility |
| BoardGui.BoardGUI.ComputeSuggestions | gui/board_gui.py:253-289 | the suggestion set becomes the first two best-scoring candidates, or is empty in the early-return cases |
| BoardGui.NatToString | gui/board_gui.py:570-571 | a move number is written as a non-empty string of decimal digits |
| BoardGui.DigitsValue | gui/board_gui.py:570-571 | the number that a string of decimal digits denotes |
| BoardGui.NatToStringValue | gui/board_gui.py:570-571 | the decimal notation of a move number denotes that number and has no leading zero, as Python's formatting of an integer |
| BoardGui.MoveLine | gui/board_gui.py:569-573 | line k of the move list: the number k+1, a full stop and a space, White's SAN, then a space and Black's SAN when there is one |
| BoardGui.Join | gui/board_gui.py:578 | the lines joined with the separator between each two of them |
| BoardGui.MoveLines | gui/board_gui.py:566-573 | a history of n SAN strings gives (n+1) div 2 lines |
| BoardGui.MoveLineKept | gui/board_gui.py:566-573 | appending a move leaves every complete line unchanged |
| BoardGui.MoveLinesAfterWhite | gui/board_gui.py:569-571 | White's move opens a new line "k. san" with the next move number |
| BoardGui.MoveLinesAfterBlack | gui/board_gui.py:572-573 | Black's move is appended, after a space, to the last line |
| BoardGui.BoardGUI.UpdateMoveList | gui/board_gui.py:561-578 | the text is the numbered lines of the history joined by newlines |
| BoardGui.UndoCount | gui/board_gui.py:599-614 | undo takes back nothing on an empty stack, one move on Black's turn, and two on White's turn (one if only one was played) |
| BoardGui.UndoReturnsTurnToWhite | gui/board_gui.py:606-614 | with alternating turns, an undo of two plies, or of one ply on Black's turn, leaves White to move |
| BoardGui.BoardGUI.Undo | gui/board_gui.py:599-618 | the stack loses exactly the undone moves, the selection and thinking flag are cleared, and the SAN history stays as it was |
| BoardGui.BoardGUI.UndoWithHistory | gui/board_gui.py:599-618 | the same pops, also taken off the history, so the history keeps matching the board |
| BoardGui.UndoLeavesStaleHistory | gui/board_gui.py:599-618 | after an undo with a non-empty stack, the history is longer than the stack and no longer matches the board |
| BoardGui.FirstUciMatch | gui/board_gui.py:416-419 | the match is absent exactly when no legal move has the UCI string; otherwise it is the first legal move with that string |
| BoardGui.FirstUciMatchAt | gui/board_gui.py:416-419 | the first index whose UCI string matches is the one found |
| BoardGui.ForcedMove | gui/board_gui.py:389-436 | the move a forced application pushes: the move itself when legal, otherwise the first legal move with its UCI string |
| BoardGui.ForcedMoveIsLegalPush | gui/board_gui.py:388-440 | when UCI strings tell moves apart, forcing a move is the legality-guarded push |
| BoardGui.ForcedMoveSpec | gui/board_gui.py:388-440 | a forced move is found exactly when the move is legal or some legal move has its UCI string, and it is always a legal move with that string |
| BoardGui.ClickMove | gui/board_gui.py:357-365 | the move a click applies: the plain move forced, else the queen promotion forced for a pawn reaching rank 1 or 8 |
| BoardGui.BoardGUI.HistoryMatches | gui/board_gui.py:394-398 | the window's invariant: the history holds, at each index, the SAN of the move at that index of the stack on the position before it |
| BoardGui.BoardGUI.ApplyMoveForce | gui/board_gui.py:380-440 | pushes the forced move, recorded with the SAN computed before the push; with no match nothing changes; the history keeps matching the board |
| BoardGui.BoardGUI.Record | gui/board_gui.py:394-398 | appends the move's SAN on the current position to the history, then the move to the stack |
| BoardGui.BoardGUI.constructor | gui/board_gui.py:41-70 | on a fresh game, as the program builds it, the bookkeeping starts empty and the history matches the board; the engine is started, and it is available exactly when it is running |
| BoardGui.BoardGUI.Redraw | gui/board_gui.py:127-218 | a redraw recomputes the suggestions when a square is selected and rebuilds the move-list text |
| BoardGui.BoardGUI.NewGame | gui/board_gui.py:584-591 | the board is back at the start position with an empty stack and history; selection, suggestions and flags are cleared; the history matches the board |
| BoardGui.BoardGUI.Select | gui/board_gui.py:347-354 | a White piece under the click becomes the selection and its suggestions are shown; otherwise nothing changes |
| BoardGui.BoardGUI.MoveSelectedTo | gui/board_gui.py:355-378 | the plain move is forced, then the queen promotion for a pawn reaching rank 1 or 8; the selection is cleared either way |
| BoardGui.BoardGUI.OnClick | gui/board_gui.py:326-378 | clicks are ignored when the game is over, the engine is thinking, it is not White's turn or the click is off the board; a click selects or moves; the engine's reply is requested exactly after a move leaves Black to move |

## Left out

- The drawing itself is not modelled: canvas, piece images, indicators and dialogs. Only what a redraw recomputes is modelled, in `Redraw`.
- Saving and loading games in the SQLite database is not modelled, and neither are PGN export and import (`export_pgn`, `load_pgn_text`). These are file and database I/O, and PGN belongs to the rules library.
- The engine's move (`_ai_move`) is not modelled: it runs on a worker thread. When the engine gives no move it falls back to the first legal move, and only if that yields nothing to a random one. `OnClick` only reports that the reply is due. `get_smart_move`, which the window calls, is not defined in the engine file.
- Game-over detection (checkmate, stalemate, insufficient material) is not modelled, nor is the automatic restart after a game ends. The rules library decides game over, and `gameOver` is never set in the model.
- `ApplyMoveForce`: the `try`/`except` that turns an internal error into `False` is not modelled. The library calls it wraps are total here.
- `BestCandidates`: the `try`/`except` around pushing a candidate is not modelled. Every candidate is a legal move, and a legal push does not fail.
- The dead second `if not self.engine` test in `best_move` and `analyze` is not modelled. `start` either sets the engine or raises, so that test is never true.
- Setting a position from a FEN string, `is_game_over`, `result`, `piece_at` and `fen` on the game wrapper are not modelled. They are direct calls into the rules library. The root of a board is always its start position.
- The engine's search, the UCI protocol and the engine's time handling are not modelled. Launching, playing and analysing are parameters, and a time limit is an optional real number of seconds.
- constructor (`BoardGui.BoardGUI.constructor`): requires a game with an empty move stack, because the program builds the window only on a new game (main.py:12-19). A window opened over moves already played, whose history would then not match the board, is not covered.
- The restart button is the new game plus a dialog, and is covered by `NewGame`.
- `UndoReturnsTurnToWhite` assumes that every move of the rules library passes the turn to the other side. The library guarantees this; the model states it as a precondition.

## Findings

| source | as written | input that shows it | evidently intended | confidence | as-written member | corrected member |
|---|---|---|---|---|---|---|
| gui/board_gui.py:599-618 | the undo button pops moves off the board but never off `move_history`, so the move list drawn next still shows the undone moves | White plays e4, Black replies e5, and the player presses undo on White's turn: the stack becomes empty but the history stays ["e4", "e5"], so the move list still reads "1. e4 e5" | every SAN popped along with its move, so the history keeps matching the board | not executed | BoardGui.UndoLeavesStaleHistory | BoardGui.BoardGUI.UndoWithHistory |
