# React Offline Chess — a Dafny model of its session logic

React Offline Chess is a single-page chess board for two players on one
device. The page holds one chess engine instance (the chess.js library)
and four pieces of interface logic around it:

- the **session controller** (`App.tsx`). It handles move attempts, the
  promotion dialog, reset, FEN import, undo and board flipping. After every
  change to the engine it rebuilds the snapshot the rest of the page renders
  from: FEN, side to move, check/mate/draw flags, and the move history in SAN
  and in UCI long algebraic form;
- the **board** (`components/ChessBoard.tsx`). It tracks the selected square,
  its legal destinations and the square being dragged. These change on
  clicks, drag starts, drops and drag ends, and are cleared whenever the
  displayed FEN changes;
- the **info panel** (`components/InfoPanel.tsx`). It shows the status line,
  pairs the history into numbered rows, produces the texts of the copy
  buttons, and runs the FEN import box with its error message;
- the **game over dialog** (`components/GameOverModal.tsx`). It derives the
  winner, title and subtitle.

The chess rules themselves are not modelled. A position is an opaque type
parameter `P`. What the engine computes from a position is a field of the
`Chess.Rules<P>` record:

- legal moves in engine order, and the position after a move;
- SAN (section 8.2.3 of the PGN Standard) and FEN (section 16.1 of the PGN
  Standard);
- side to move, piece colours, check, checkmate and draw;
- FEN parsing.

The engine's state is the position it was reset or loaded to plus the log of
plies played since (`Chess.Game`). The current position is the replay of that
log, which is what makes undo exact.

Files:

- `chess.dfy` (module `Chess`): the abstract engine. It covers request
  matching, apply/undo/load/reset on the ply log, and the `Engine` class
  standing for the mutable chess.js instance.
- `controller.dfy` (module `Controller`): the App state as a value
  (`AppState`) and one transition function per handler. It also holds the
  `App` class, whose methods are proved to perform those transitions on its
  fields, and the invariant that the snapshot is always the one derived from
  the engine.
- `board.dfy` (module `Board`): the board's transitions and the
  `ChessBoard` class. It also covers the grid layout with its in-place
  reversal, and the lemmas that connect the board to the App: game over
  freezes the board, and destinations are never stale.
- `infopanel.dfy` (module `InfoPanel`): trimming, the FEN import box, the
  status line, history rows, and the copy texts with their split round trip.
- `gameover.dfy` (module `GameOver`): the dialog's outcome, and its agreement
  with the status line and with the snapshot's game over flag.

## Model

| member | source | states |
|---|---|---|
| Chess.FindMove | App.tsx:70 | the request is rejected exactly when no legal move matches it; otherwise the result is the first legal move in engine order with the requested squares whose promotion is absent or the one requested |
| Chess.MovesFrom | components/ChessBoard.tsx:48 | a move is kept exactly when it is legal and starts on the square; never more moves than the engine listed |
| Chess.HasPromotion | App.tsx:60-61 | the promotion test: some legal move joins the two squares with a promotion; `Controller.AfterMove` states what it decides |
| Chess.TryMove | App.tsx:85-91 | a move request fails exactly when no legal move matches it. On success the log grows by one ply, keeping the earlier plies and the base. The new ply is a legal, matching move, and the current position becomes the engine's position after it |
| Chess.UndoGame | App.tsx:129 | undo fails exactly on an empty log; otherwise it removes exactly the last ply and keeps the base |
| Chess.LoadGame | App.tsx:113 | a load fails exactly when the FEN does not parse; otherwise the base becomes the parsed position and the log is empty |
| Chess.TryMoveKeepsLegal | App.tsx:70 | after an accepted move, every ply of the log is still legal where it was played and carries the SAN the engine gave it there |
| Chess.UndoKeepsLegal | App.tsx:129 | undo keeps every remaining ply legal with its SAN |
| Chess.UndoAfterMove | App.tsx:129 | undo after an accepted move gives back exactly the game before the move |
| Chess.Engine.constructor | App.tsx:13 | a fresh engine is at the standard start with an empty log |
| Chess.Engine.Move | App.tsx:70 | the engine's move either leaves the state unchanged (the request has no match) or moves to `TryMove`'s result and returns the new ply; the log stays legal |
| Chess.Engine.Undo | App.tsx:129 | the engine's undo either leaves an empty log unchanged or moves to `UndoGame`'s result and returns the removed ply |
| Chess.Engine.Load | App.tsx:113 | a load that fails leaves the state unchanged and returns false; one that succeeds moves to `LoadGame`'s result and returns true |
| Chess.Engine.Reset | App.tsx:103 | reset returns the engine to the standard start with an empty log |
| Controller.ParseUci | App.tsx:39 | a UCI text is read back only into a move whose UCI form is that text |
| Controller.UciRoundTrip | App.tsx:39 | for two-character squares, reading back a move's UCI form gives the move, promotion included |
| Controller.Uci | App.tsx:39 | a move is written as origin, destination and the promotion letter if any; `Controller.UciRoundTrip` shows this encoding is undone by `ParseUci` |
| Controller.Snapshot | App.tsx:34-51 | the snapshot is read entirely from the engine's current position and log; `Controller.HistoriesAligned` states its histories ply by ply |
| Controller.HistoriesAligned | App.tsx:38-49 | for every game, the empty log included, the SAN and UCI histories of its snapshot have the length of the log, and entry i of each is ply i's SAN and ply i's UCI text |
| Controller.UciHistoryReadsBack | App.tsx:38-39 | every UCI history entry whose ply has two-character squares reads back to that ply's move |
| Controller.AfterMove | App.tsx:53-78 | when the engine reports game over, nothing changes. When the game is not over, a square pair with a promoting legal move sets the pending promotion to the squares and the side to move and changes nothing else. The game changes exactly when the game is not over, there is no promotion, and the plain move is legal. It then appends exactly that move, sets the highlight to the two squares and rebuilds the snapshot; a rejected move changes nothing, and without a promoting move the pending promotion is always kept |
| Controller.AfterPromotion | App.tsx:80-100 | with no pending promotion, nothing changes. Otherwise the pending promotion is cleared in every case, and the completed move is applied exactly when the engine accepts it, moving the highlight and rebuilding the snapshot |
| Controller.AfterCancel | App.tsx:238 | cancel clears the pending promotion and touches nothing else |
| Controller.AfterReset | App.tsx:102-107 | reset goes back to a new game with no highlight and no pending promotion, a start-position FEN and empty histories; the orientation is kept |
| Controller.AfterLoad | App.tsx:109-122 | the flag is true exactly when the FEN parses. On failure nothing changes; on success the log is empty, the highlight and pending promotion are cleared, and the snapshot shows the loaded FEN with empty histories |
| Controller.LastOf | App.tsx:131-138 | the highlight of a log is its last ply's squares, or none for an empty log; `Controller.AfterUndo` and the invariant `Controller.Derived` use it |
| Controller.AfterUndo | App.tsx:124-141 | an empty log changes nothing. Otherwise exactly the last ply goes (also after game over), the highlight moves to the new last ply or disappears, and the snapshot is rebuilt; the pending promotion and orientation are kept |
| Controller.AfterFlip | App.tsx:143-145 | flipping changes the orientation and nothing else |
| Controller.InitialIsDerived | App.tsx:16-25 | the literal initial snapshot (start FEN, White to move, all flags false, empty histories) equals the one derived from a new engine, and the initial state satisfies the controller invariant |
| Controller.ResetRestoresInitial | App.tsx:102-107 | reset yields the initial state apart from the orientation |
| Controller.MoveKeepsInv | App.tsx:53-78 | a move attempt keeps the log legal, the snapshot equal to the one derived from the engine, and the highlight on the last ply |
| Controller.PromotionKeepsInv | App.tsx:80-100 | finalising a promotion keeps the same invariant |
| Controller.UndoKeepsInv | App.tsx:124-141 | undo keeps the same invariant, the highlight moving back to the ply that is now last |
| Controller.StepKeepsInv | App.tsx:34-51 | every handler keeps the log legal, the snapshot equal to the one derived from the engine, and the highlight on the last ply |
| Controller.RunKeepsInv | App.tsx:34-51 | the same holds for any sequence of handler calls |
| Controller.UndoReversesMove | App.tsx:124-141 | undo after an accepted move attempt restores the game, the snapshot and the highlight |
| Controller.StepExtends | App.tsx:53-100 | move attempts, promotion choices, cancel and flip only ever append to the log |
| Controller.RunExtends | App.tsx:53-100 | a sequence of such calls only ever appends to the log |
| Controller.UndoTimesEffect | App.tsx:124-141 | n undos drop exactly the last n plies; after at least one, the snapshot and highlight are those of the shorter log |
| Controller.UndoTimesRestores | App.tsx:124-141 | undoing once per ply added since an earlier state restores that state's game, snapshot and highlight |
| Controller.MovesThenUndos | App.tsx:53-141 | any run of move attempts, promotion choices, cancels and flips, followed by one undo per ply it added, returns to the starting game, snapshot and highlight |
| Controller.App.constructor | App.tsx:11-31 | the component starts in the initial state, which satisfies the invariant |
| Controller.App.UpdateGameState | App.tsx:34-51 | the snapshot becomes the one derived from the engine; the other fields are kept |
| Controller.App.HandleMove | App.tsx:53-78 | the handler performs `AfterMove` on its fields and keeps the invariant |
| Controller.App.FinalizePromotion | App.tsx:80-100 | the handler performs `AfterPromotion` and keeps the invariant |
| Controller.App.CancelPromotion | App.tsx:238 | the handler performs `AfterCancel` and keeps the invariant |
| Controller.App.ResetGame | App.tsx:102-107 | the handler performs `AfterReset` and keeps the invariant |
| Controller.App.HandleLoadFen | App.tsx:109-122 | the handler performs `AfterLoad`, returns its flag, and keeps the invariant |
| Controller.App.UndoMove | App.tsx:124-141 | the handler performs `AfterUndo` and keeps the invariant |
| Controller.App.ToggleOrientation | App.tsx:143-145 | the handler performs `AfterFlip` and keeps the invariant |
| Board.Destinations | components/ChessBoard.tsx:48-49 | a square is a destination exactly when some legal move goes there from the given square |
| Board.OwnPiece | components/ChessBoard.tsx:41 | the own-piece test: the square holds a piece of the side to move; `Board.OnClick` and `Board.OnDragStart` state where it decides |
| Board.OnClick | components/ChessBoard.tsx:29-56 | after game over a click does nothing. It submits exactly (selected, square) when the square is a destination of the selection, and then changes nothing. Otherwise it selects an own piece that was not selected, showing its destinations; any other click leaves no selection and no destinations |
| Board.OnDragStart | components/ChessBoard.tsx:60-81 | a drag is allowed exactly when the game is not over and the square holds a piece of the side to move. It then sets the dragged square, the selection and that square's destinations; a refused drag changes nothing |
| Board.Utf16Length | components/ChessBoard.tsx:95 | a text's length as JavaScript counts it is between its character count and twice that, and equals the character count exactly when no character lies beyond U+FFFF |
| Board.SquareNameUtf16 | components/ChessBoard.tsx:95 | a square name passes the drop's two-unit length test |
| Board.OnDrop | components/ChessBoard.tsx:88-102 | after game over a drop does nothing. Otherwise it submits (origin, target) exactly when the carried origin is two UTF-16 code units long, as JavaScript measures it, and always clears the dragged square, the selection and the destinations |
| Board.OnDragEnd | components/ChessBoard.tsx:104-107 | drag end clears only the dragged square |
| Board.OnFen | components/ChessBoard.tsx:20-23 | a new FEN clears the selection and the destinations; the same FEN changes nothing |
| Board.HandleKeepsBoardInv | components/ChessBoard.tsx:29-107 | destinations are only ever shown for a selected square, and the selected and dragged squares stay square names |
| Board.GameOverFreezesBoard | components/ChessBoard.tsx:30 | once the snapshot says game over, no gesture reaches the App or changes the selection or destinations |
| Board.FenEffectRefreshes | components/ChessBoard.tsx:20-23 | after the FEN effect, any shown destinations are the engine's targets for the selected square in the new position |
| Board.DispatchKeepsFresh | components/ChessBoard.tsx:29-107 | after any gesture, the App's move handling and the re-render, the destinations shown are exactly the engine's legal targets of the selection in the current position |
| Board.CommandKeepsFresh | components/ChessBoard.tsx:20-23 | the same holds after any App command (promotion, reset, import, undo, flip) and its re-render |
| Board.ChessBoard.constructor | components/ChessBoard.tsx:15-17 | the board starts with no selection, no destinations and no dragged square |
| Board.ChessBoard.HandleSquareClick | components/ChessBoard.tsx:29-56 | the click handler performs `OnClick` and forwards a submitted move to the App's move handler |
| Board.ChessBoard.HandleDragStart | components/ChessBoard.tsx:60-81 | the drag start handler performs `OnDragStart` and returns whether the drag is allowed |
| Board.ChessBoard.HandleDrop | components/ChessBoard.tsx:88-102 | the drop handler performs `OnDrop` and forwards a submitted move to the App's move handler |
| Board.ChessBoard.HandleDragEnd | components/ChessBoard.tsx:104-107 | the drag end handler performs `OnDragEnd` |
| Board.ChessBoard.FenEffect | components/ChessBoard.tsx:20-23 | the FEN effect performs `OnFen` |
| Board.ReverseInPlace | components/ChessBoard.tsx:113-116 | reversing in place leaves the array holding the reverse of its old contents |
| Board.GridAxes | components/ChessBoard.tsx:110-116 | the grid's file and rank axes are a..h and 8..1, reversed when seen from Black |
| Board.GridIsBijection | components/ChessBoard.tsx:121-123 | every grid cell holds a square name, and every square name sits in exactly one cell, for either orientation |
| Board.FlipTurnsGrid | components/ChessBoard.tsx:113-116 | flipping the board turns the grid by half a turn |
| InfoPanel.Trim | components/InfoPanel.tsx:18-20 | the trimmed text is a slice of the input with only whitespace around it, and it neither starts nor ends with whitespace; it is empty exactly when the input is all whitespace |
| InfoPanel.TrimIdempotent | components/InfoPanel.tsx:20 | trimming twice is trimming once |
| InfoPanel.LoadRequest | components/InfoPanel.tsx:17-20 | the loader is not called exactly when the input is all whitespace; otherwise it gets the non-empty trimmed input, which trimming again leaves unchanged |
| InfoPanel.AfterLoadResult | components/InfoPanel.tsx:21-26 | on success the input and the error are cleared; on failure the input is kept and the invalid-FEN message is shown |
| InfoPanel.AfterEdit | components/InfoPanel.tsx:117-120 | an edit takes the new text and clears a shown error |
| InfoPanel.ImportInvKept | components/InfoPanel.tsx:17-27 | the error line only ever holds the invalid-FEN message, and no error survives an edit |
| InfoPanel.StatusText | components/InfoPanel.tsx:29-41 | each of the four texts appears exactly in its case: the checkmate text (naming the side not to move as winner) exactly on checkmate, the check text exactly on check without mate, the draw text exactly on a draw without check or mate, and the turn text exactly otherwise |
| InfoPanel.StatusNamesRightSide | components/InfoPanel.tsx:29-41 | the status line starts with "Checkmate! " exactly on checkmate, and otherwise, unless drawn, names the side to move first |
| InfoPanel.HistoryRows | components/InfoPanel.tsx:85-91 | the table has ceil(n/2) rows |
| InfoPanel.HistoryRowsInverse | components/InfoPanel.tsx:85-91 | read cell by cell, White then Black, the table gives back the history in order, with one empty cell after an odd-length history; row i is numbered i + 1 |
| InfoPanel.Join | components/InfoPanel.tsx:66-67 | the entries joined with one separator between neighbours; `InfoPanel.SplitJoin` is its inverse |
| InfoPanel.SplitJoin | components/InfoPanel.tsx:66-67 | when no entry contains the separator, splitting the joined text gives back a non-empty list; the empty list joins to the empty text, which splits into one empty entry |
| InfoPanel.CopyTexts | components/InfoPanel.tsx:66-67 | the two copy texts are the SAN and UCI histories joined with single spaces; `InfoPanel.CopyTextsRecover` states what they keep |
| InfoPanel.CopyTextsRecover | components/InfoPanel.tsx:66-67 | when no entry contains a space, a non-empty history's copied text split on spaces gives back the history; an empty history is copied as the empty text, which splits into one empty entry |
| InfoPanel.FenImport.constructor | components/InfoPanel.tsx:14-15 | the import box starts empty with no error |
| InfoPanel.FenImport.HandleFenSubmit | components/InfoPanel.tsx:17-27 | blank input changes nothing anywhere. Otherwise the App loads the trimmed input and the box performs `AfterLoadResult` with the App's answer |
| InfoPanel.FenImport.HandleChange | components/InfoPanel.tsx:117-120 | the change handler performs `AfterEdit` |
| GameOver.GameOverView | components/GameOverModal.tsx:11-21 | nothing while neither checkmate nor draw. On checkmate the winner is the side not to move, the title is "Checkmate!" and the subtitle names the winner. On a draw there is no winner, the title is "Game Over" and the subtitle is the draw sentence |
| GameOver.ModalAgreesWithStatus | components/GameOverModal.tsx:17 | on checkmate the dialog and the status line name the same winner |
| GameOver.ModalShownWhenGameOver | App.tsx:243 | with a snapshot derived from the engine, the dialog appears exactly when the snapshot's game over flag is set, which is when the engine reports checkmate or a draw |

## Left out

- Chess rules: legal move generation, SAN and FEN text, check, mate and draw detection are fields of `Chess.Rules`, not computed. The model assumes only what the page relies on: the engine's start position is the standard one, with White to move and no flags set (`Chess.WellFormed`).
- Chess.FindMove: the rule by which chess.js matches a `{from, to, promotion}` request against its legal moves belongs to the library, which is not part of this model. The model takes it to be "same squares, and promotion absent or equal to the one requested; first match in engine order".
- Chess.IsGameOver: the engine's game over flag is taken as checkmate or draw, with stalemate counted among draws, as chess.js defines it. `GameOver.ModalShownWhenGameOver` depends on this.
- InfoPanel.CopyTextsRecover: the round trip assumes that no history entry contains a space. SAN texts come from the engine, whose rules are not modelled, so this is taken as given rather than derived.
- Board.DispatchKeepsFresh: this and `Board.CommandKeepsFresh` assume that equal FEN texts describe positions with equal legal moves (`Board.FenDetermines`). This is true of FEN, but it is not derived here.
- Board.OnFen: the React effect on the `fen` prop is modelled as a field recording the FEN it last ran for. Render and effect scheduling are not modelled; each handler and its re-render are one atomic step.
- Controller.AfterMove: a move attempt made while a promotion is pending is not refused. The page relies on the promotion dialog covering the board, and the model does the same.
- Clipboard writes and the two-second reset of the "copied" indicator (App.tsx:147-152): browser I/O and a timer.
- The help dialog, its open/closed flag, the piece artwork and the promotion dialog's layout. Only its four-piece choice set is modelled, as `Chess.Promo`.
- All rendering and styling: square colours, the check highlight, coordinate labels, move dots, the status line's colour classes and the dialog layouts.
- The drag-and-drop transfer object and `preventDefault`: a drop carries its origin text as a plain parameter, and a refused drag start is a `false` result.
- `console.error` logging of rejected moves and malformed FENs: chess.js throwing is modelled as a failed result.
- The donation link in the info panel.
- The FEN shown and copied is the snapshot's `fen` field as is; it has no logic.
