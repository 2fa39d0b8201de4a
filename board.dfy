/** The board of components/ChessBoard.tsx: the selected square, its legal
    destinations and the square being dragged, driven by click, drag-start,
    drop and drag-end gestures, and cleared whenever the FEN it is shown
    changes. Each handler is a transition function on `BoardState` that also
    returns the move it submits (the `onMove` call), and a method of the
    `ChessBoard` class that performs it and forwards the move to the App. */
module Board {
  import opened Chess
  import opened Controller

  datatype BoardState = BoardState(
    selected: Option<Square>,
    possible: seq<Square>,
    dragged: Option<Square>,
    effectFen: string)   // the FEN the reset effect last ran for

  /** A call of `onMove(from, to)`. */
  datatype Submit = Submit(from: Square, to: Square)

  function InitialBoard(fen: string): BoardState {
    BoardState(None, [], None, fen)
  }

  /** The target squares of the legal moves that start on `sq`, in engine order. */
  function Destinations<P>(rules: Rules<P>, pos: P, sq: Square): (r: seq<Square>)
    ensures forall t :: t in r <==> exists m | m in rules.legalMoves(pos) :: m.from == sq && m.to == t
  {
    var moves := MovesFrom(rules.legalMoves(pos), sq);
    var r := Targets(moves);
    assert forall t :: t in r <==> exists m | m in moves :: m.to == t by {
      forall t | t in r ensures exists m | m in moves :: m.to == t {
        var i :| 0 <= i < |r| && r[i] == t;
        assert moves[i] in moves;
      }
      forall t | exists m | m in moves :: m.to == t ensures t in r {
        var m :| m in moves && m.to == t;
        var i :| 0 <= i < |moves| && moves[i] == m;
        assert r[i] == t;
      }
    }
    r
  }

  /** The square holds a piece of the side to move. */
  predicate OwnPiece<P>(rules: Rules<P>, pos: P, sq: Square) {
    rules.pieceAt(pos, sq) == Some(rules.turn(pos))
  }

  /** handleSquareClick. */
  function OnClick<P>(rules: Rules<P>, pos: P, over: bool, b: BoardState, square: Square): (r: (BoardState, Option<Submit>))
    ensures over ==> r == (b, None)
    ensures r.1.Some? <==> !over && b.selected.Some? && square in b.possible
    ensures r.1.Some? ==> r.0 == b && r.1.value == Submit(b.selected.value, square)
    ensures r.0.dragged == b.dragged && r.0.effectFen == b.effectFen
    ensures !over && r.1.None? ==>
      && (r.0.selected.Some? <==> OwnPiece(rules, pos, square) && b.selected != Some(square))
      && (r.0.selected.Some? ==> r.0.selected == Some(square) && r.0.possible == Destinations(rules, pos, square))
      && (r.0.selected.None? ==> r.0.possible == [])
  {
    if over then (b, None)
    else if b.selected.Some? && square in b.possible then (b, Some(Submit(b.selected.value, square)))
    else if OwnPiece(rules, pos, square) then
      if b.selected == Some(square) then (b.(selected := None, possible := []), None)
      else (b.(selected := Some(square), possible := Destinations(rules, pos, square)), None)
    else (b.(selected := None, possible := []), None)
  }

  /** handleDragStart: the new state, and whether the drag is allowed
      (false where the source calls preventDefault). */
  function OnDragStart<P>(rules: Rules<P>, pos: P, over: bool, b: BoardState, square: Square): (r: (BoardState, bool))
    ensures r.1 <==> !over && OwnPiece(rules, pos, square)
    ensures !r.1 ==> r.0 == b
    ensures r.1 ==> r.0 == BoardState(Some(square), Destinations(rules, pos, square), Some(square), b.effectFen)
  {
    if over || !OwnPiece(rules, pos, square) then (b, false)
    else (b.(dragged := Some(square), possible := Destinations(rules, pos, square), selected := Some(square)), true)
  }

  /** The length of a text as JavaScript counts it: in UTF-16 code units, so
      a character beyond U+FFFF counts twice. */
  function Utf16Length(s: string): (r: nat)
    ensures |s| <= r <= 2 * |s|
    ensures r == |s| <==> forall i | 0 <= i < |s| :: s[i] as int <= 0xFFFF
  {
    if s == [] then 0
    else
      var rest := Utf16Length(s[1..]);
      assert forall i | 0 <= i < |s[1..]| :: s[1..][i] == s[i + 1];
      (if s[0] as int > 0xFFFF then 2 else 1) + rest
  }

  /** A square name is two units long in JavaScript as well. */
  lemma SquareNameUtf16(sq: Square)
    requires IsSquareName(sq)
    ensures Utf16Length(sq) == 2
  {
    assert sq[1..][0] == sq[1] && sq[1..][1..] == [];
  }

  /** handleDrop. `origin` is the text the drag carried ("" when it carried
      none); its length is checked in UTF-16 units, as the page does. */
  function OnDrop(over: bool, b: BoardState, target: Square, origin: string): (r: (BoardState, Option<Submit>))
    ensures over ==> r == (b, None)
    ensures r.1.Some? <==> !over && Utf16Length(origin) == 2
    ensures r.1.Some? ==> r.1.value == Submit(origin, target)
    ensures !over ==> r.0 == BoardState(None, [], None, b.effectFen)
  {
    if over then (b, None)
    else
      var submit := if origin != "" && Utf16Length(origin) == 2 then Some(Submit(origin, target)) else None;
      (b.(dragged := None, selected := None, possible := []), submit)
  }

  /** handleDragEnd: the selection survives, so click-to-move still works. */
  function OnDragEnd(b: BoardState): (r: BoardState)
    ensures r.dragged.None?
    ensures r.selected == b.selected && r.possible == b.possible && r.effectFen == b.effectFen
  {
    b.(dragged := None)
  }

  /** The effect on [fen]: any change of FEN clears the selection. */
  function OnFen(b: BoardState, fen: string): (r: BoardState)
    ensures r.effectFen == fen && r.dragged == b.dragged
    ensures fen != b.effectFen ==> r.selected.None? && r.possible == []
    ensures fen == b.effectFen ==> r == b
  {
    if fen != b.effectFen then b.(selected := None, possible := [], effectFen := fen) else b
  }

  /** Destinations are only ever shown for a selected square, and the squares
      the board remembers are square names. */
  predicate BoardInv(b: BoardState) {
    && (b.possible != [] ==> b.selected.Some?)
    && (b.selected.Some? ==> IsSquareName(b.selected.value))
    && (b.dragged.Some? ==> IsSquareName(b.dragged.value))
  }

  /** A gesture on the board, on a square of the grid. */
  datatype Gesture =
    | Click(square: Square)
    | DragStart(square: Square)
    | Drop(target: Square, origin: string)
    | DragEnd

  predicate OnGrid(g: Gesture) {
    match g
    case Click(sq) => IsSquareName(sq)
    case DragStart(sq) => IsSquareName(sq)
    case Drop(target, _) => IsSquareName(target)
    case DragEnd => true
  }

  /** The board's own transition, with the move it submits. */
  function Handle<P>(rules: Rules<P>, pos: P, over: bool, b: BoardState, g: Gesture): (BoardState, Option<Submit>) {
    match g
    case Click(sq) => OnClick(rules, pos, over, b, sq)
    case DragStart(sq) => (OnDragStart(rules, pos, over, b, sq).0, None)
    case Drop(target, origin) => OnDrop(over, b, target, origin)
    case DragEnd => (OnDragEnd(b), None)
  }

  lemma HandleKeepsBoardInv<P>(rules: Rules<P>, pos: P, over: bool, b: BoardState, g: Gesture)
    requires BoardInv(b) && OnGrid(g)
    ensures BoardInv(Handle(rules, pos, over, b, g).0)
  {
  }

  /** One gesture as the page runs it: the board handler, the App's move
      handler if a move was submitted, then the FEN effect of the re-render. */
  function Dispatch<P>(rules: Rules<P>, s: AppState<P>, b: BoardState, g: Gesture): (AppState<P>, BoardState) {
    var (b', submit) := Handle(rules, Current(rules, s.game), s.snapshot.isGameOver, b, g);
    var s' := if submit.Some? then AfterMove(rules, s, submit.value.from, submit.value.to) else s;
    (s', OnFen(b', s'.snapshot.fen))
  }

  /** A command sent to the App from elsewhere (promotion dialog, buttons,
      FEN import), followed by the FEN effect of the re-render. */
  function AfterCommand<P>(rules: Rules<P>, s: AppState<P>, b: BoardState, c: Command): (AppState<P>, BoardState) {
    var s' := Step(rules, s, c);
    (s', OnFen(b, s'.snapshot.fen))
  }

  /** Once the snapshot says the game is over, no gesture selects anything or
      reaches the App: clicks and drops return early, drag starts are refused,
      and a drag end only drops the dragged square. */
  lemma GameOverFreezesBoard<P>(rules: Rules<P>, s: AppState<P>, b: BoardState, g: Gesture)
    requires Inv(rules, s) && s.snapshot.isGameOver && b.effectFen == s.snapshot.fen
    ensures var (s', b') := Dispatch(rules, s, b, g);
      s' == s && b'.selected == b.selected && b'.possible == b.possible
  {
  }

  /** Equal FENs describe positions with equal legal moves: a FEN is a
      complete description of the position. */
  ghost predicate FenDetermines<P(!new)>(rules: Rules<P>) {
    forall p, q :: rules.fen(p) == rules.fen(q) ==> rules.legalMoves(p) == rules.legalMoves(q)
  }

  /** The board's destinations are those the engine gives for the selected
      square in the current position, and the effect has seen the current FEN. */
  ghost predicate Fresh<P>(rules: Rules<P>, s: AppState<P>, b: BoardState) {
    var pos := Current(rules, s.game);
    && b.effectFen == rules.fen(pos)
    && (b.selected.Some? ==> b.possible == Destinations(rules, pos, b.selected.value))
  }

  lemma FenEffectRefreshes<P(!new)>(rules: Rules<P>, s: AppState<P>, s': AppState<P>, b: BoardState)
    requires FenDetermines(rules) && Inv(rules, s')
    requires Fresh(rules, s, b)
    ensures Fresh(rules, s', OnFen(b, s'.snapshot.fen))
  {
    var pos, pos' := Current(rules, s.game), Current(rules, s'.game);
    if rules.fen(pos') == rules.fen(pos) {
      assert rules.legalMoves(pos') == rules.legalMoves(pos);
      if b.selected.Some? {
        var sq := b.selected.value;
        assert MovesFrom(rules.legalMoves(pos'), sq) == MovesFrom(rules.legalMoves(pos), sq);
      }
    }
  }

  /** Destination sets are never stale: after any gesture or App command and
      the re-render that follows it, the destinations shown are exactly the
      engine's legal targets of the selected square in the new position. */
  lemma {:induction false} DispatchKeepsFresh<P(!new)>(rules: Rules<P>, s: AppState<P>, b: BoardState, g: Gesture)
    requires FenDetermines(rules) && Inv(rules, s) && Fresh(rules, s, b)
    ensures var (s', b') := Dispatch(rules, s, b, g);
      Inv(rules, s') && Fresh(rules, s', b')
  {
    var pos := Current(rules, s.game);
    var (b1, submit) := Handle(rules, pos, s.snapshot.isGameOver, b, g);
    assert Fresh(rules, s, b1);
    if submit.Some? {
      StepKeepsInv(rules, s, Attempt(submit.value.from, submit.value.to));
      FenEffectRefreshes(rules, s, AfterMove(rules, s, submit.value.from, submit.value.to), b1);
    } else {
      FenEffectRefreshes(rules, s, s, b1);
    }
  }

  lemma CommandKeepsFresh<P(!new)>(rules: Rules<P>, s: AppState<P>, b: BoardState, c: Command)
    requires FenDetermines(rules) && Inv(rules, s) && Fresh(rules, s, b)
    ensures var (s', b') := AfterCommand(rules, s, b, c);
      Inv(rules, s') && Fresh(rules, s', b')
  {
    StepKeepsInv(rules, s, c);
    FenEffectRefreshes(rules, s, Step(rules, s, c), b);
  }

  /** The ChessBoard component. The App it belongs to supplies the engine
      (`game`), the FEN and game over flag of its snapshot, and `onMove`. */
  class ChessBoard {
    var selectedSquare: Option<Square>
    var possibleMoves: seq<Square>
    var draggedSquare: Option<Square>
    var effectFen: string

    function State(): BoardState
      reads this
    {
      BoardState(selectedSquare, possibleMoves, draggedSquare, effectFen)
    }

    constructor (fen: string)
      ensures State() == InitialBoard(fen)
    {
      selectedSquare, possibleMoves, draggedSquare, effectFen := None, [], None, fen;
    }

    method HandleSquareClick<P>(app: App<P>, square: Square)
      requires app.Valid()
      modifies this, app, app.game
      ensures app.Valid()
      ensures var (b, submit) := OnClick(app.game.rules, old(app.game.CurrentPosition()), old(app.gameState.isGameOver), old(State()), square);
        && State() == b
        && app.Model() == if submit.Some? then AfterMove(app.game.rules, old(app.Model()), submit.value.from, submit.value.to)
                          else old(app.Model())
    {
      if app.gameState.isGameOver {
        return;
      }
      if selectedSquare.Some? && square in possibleMoves {
        app.HandleMove(selectedSquare.value, square);
        return;
      }
      var rules := app.game.rules;
      var pos := app.game.CurrentPosition();
      if rules.pieceAt(pos, square) == Some(rules.turn(pos)) {
        if selectedSquare == Some(square) {
          selectedSquare := None;
          possibleMoves := [];
        } else {
          selectedSquare := Some(square);
          possibleMoves := Targets(MovesFrom(rules.legalMoves(pos), square));
        }
      } else {
        selectedSquare := None;
        possibleMoves := [];
      }
    }

    method HandleDragStart<P>(app: App<P>, square: Square) returns (allowed: bool)
      requires app.Valid()
      modifies this
      ensures (State(), allowed) == OnDragStart(app.game.rules, app.game.CurrentPosition(), app.gameState.isGameOver, old(State()), square)
    {
      if app.gameState.isGameOver {
        return false;
      }
      var rules := app.game.rules;
      var pos := app.game.CurrentPosition();
      if rules.pieceAt(pos, square) != Some(rules.turn(pos)) {
        return false;
      }
      draggedSquare := Some(square);
      possibleMoves := Targets(MovesFrom(rules.legalMoves(pos), square));
      selectedSquare := Some(square);
      allowed := true;
    }

    method HandleDrop<P>(app: App<P>, target: Square, origin: string)
      requires app.Valid()
      modifies this, app, app.game
      ensures app.Valid()
      ensures var (b, submit) := OnDrop(old(app.gameState.isGameOver), old(State()), target, origin);
        && State() == b
        && app.Model() == if submit.Some? then AfterMove(app.game.rules, old(app.Model()), submit.value.from, submit.value.to)
                          else old(app.Model())
    {
      if app.gameState.isGameOver {
        return;
      }
      if origin != "" && Utf16Length(origin) == 2 {
        app.HandleMove(origin, target);
      }
      draggedSquare := None;
      selectedSquare := None;
      possibleMoves := [];
    }

    method HandleDragEnd()
      modifies this
      ensures State() == OnDragEnd(old(State()))
    {
      draggedSquare := None;
    }

    /** The effect that runs when the `fen` prop changes. */
    method FenEffect(fen: string)
      modifies this
      ensures State() == OnFen(old(State()), fen)
    {
      if fen != effectFen {
        selectedSquare := None;
        possibleMoves := [];
        effectFen := fen;
      }
    }
  }

  /** The grid: files a..h and ranks 8..1, both reversed in place when the
      board is seen from Black's side. */
  const Files := "abcdefgh"
  const Ranks := "87654321"

  function Reversed(s: string): (r: string)
    ensures |r| == |s|
  {
    seq(|s|, i requires 0 <= i < |s| => s[|s| - 1 - i])
  }

  function AxisFiles(o: Orientation): string {
    if o == BlackSide then Reversed(Files) else Files
  }

  function AxisRanks(o: Orientation): string {
    if o == BlackSide then Reversed(Ranks) else Ranks
  }

  /** Array.prototype.reverse. */
  method ReverseInPlace(a: array<char>)
    modifies a
    ensures a[..] == Reversed(old(a[..]))
  {
    var n := a.Length;
    var i := 0;
    while i < n / 2
      invariant 0 <= i <= n / 2
      invariant forall k | 0 <= k < i :: a[k] == old(a[n - 1 - k]) && a[n - 1 - k] == old(a[k])
      invariant forall k | i <= k < n - i :: a[k] == old(a[k])
    {
      a[i], a[n - 1 - i] := a[n - 1 - i], a[i];
      i := i + 1;
    }
  }

  method GridAxes(o: Orientation) returns (files: array<char>, ranks: array<char>)
    ensures files[..] == AxisFiles(o) && ranks[..] == AxisRanks(o)
  {
    files := new char[8](i requires 0 <= i < 8 => Files[i]);
    ranks := new char[8](i requires 0 <= i < 8 => Ranks[i]);
    assert files[..] == Files && ranks[..] == Ranks;
    if o == BlackSide {
      ReverseInPlace(files);
      ReverseInPlace(ranks);
    }
  }

  /** The square drawn in a row and column of the grid. */
  function SquareAt(o: Orientation, row: nat, col: nat): Square
    requires row < 8 && col < 8
  {
    [AxisFiles(o)[col], AxisRanks(o)[row]]
  }

  function RowOf(o: Orientation, sq: Square): nat
    requires IsSquareName(sq)
  {
    if o == WhiteSide then ('8' as int) - (sq[1] as int) else (sq[1] as int) - ('1' as int)
  }

  function ColOf(o: Orientation, sq: Square): nat
    requires IsSquareName(sq)
  {
    if o == WhiteSide then (sq[0] as int) - ('a' as int) else ('h' as int) - (sq[0] as int)
  }

  /** The file letter in column `col` and the rank digit in row `row`, as
      character codes. */
  lemma FileAtColumn(o: Orientation, col: nat)
    requires col < 8
    ensures AxisFiles(o)[col] as int == if o == WhiteSide then 'a' as int + col else 'h' as int - col
  {
    if o == BlackSide {
      assert AxisFiles(o)[col] == Files[7 - col];
    }
  }

  lemma RankAtRow(o: Orientation, row: nat)
    requires row < 8
    ensures AxisRanks(o)[row] as int == if o == WhiteSide then '8' as int - row else '1' as int + row
  {
    if o == BlackSide {
      assert AxisRanks(o)[row] == Ranks[7 - row];
    }
  }

  /** The grid shows every square exactly once: each cell holds a square
      name, and each square name sits in exactly one cell. */
  lemma GridIsBijection(o: Orientation, row: nat, col: nat, sq: Square)
    requires row < 8 && col < 8 && IsSquareName(sq)
    ensures IsSquareName(SquareAt(o, row, col))
    ensures RowOf(o, SquareAt(o, row, col)) == row && ColOf(o, SquareAt(o, row, col)) == col
    ensures RowOf(o, sq) < 8 && ColOf(o, sq) < 8 && SquareAt(o, RowOf(o, sq), ColOf(o, sq)) == sq
  {
    FileAtColumn(o, col);
    RankAtRow(o, row);
    var r, c := RowOf(o, sq), ColOf(o, sq);
    FileAtColumn(o, c);
    RankAtRow(o, r);
    assert SquareAt(o, r, c) == [sq[0], sq[1]] == sq;
  }

  /** Flipping the board turns the grid by half a turn. */
  lemma FlipTurnsGrid(row: nat, col: nat)
    requires row < 8 && col < 8
    ensures SquareAt(BlackSide, row, col) == SquareAt(WhiteSide, 7 - row, 7 - col)
  {
    FileAtColumn(BlackSide, col);
    FileAtColumn(WhiteSide, 7 - col);
    RankAtRow(BlackSide, row);
    RankAtRow(WhiteSide, 7 - row);
  }
}
