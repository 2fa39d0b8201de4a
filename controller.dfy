/** The session controller of App.tsx: one engine, the snapshot derived from
    it after every mutation, the last-move highlight, the pending promotion
    and the board orientation. Each handler is a transition function on
    `AppState` (AfterMove, AfterPromotion, ...) and a method of the `App`
    class proved to perform that transition on its fields. */
module Controller {
  import opened Chess

  /** The read-only snapshot the rest of the interface renders from. */
  datatype GameState = GameState(
    fen: string,
    turn: Color,
    inCheck: bool,
    isCheckmate: bool,
    isDraw: bool,
    isGameOver: bool,
    history: seq<string>,      // SAN of each ply
    uciHistory: seq<string>)   // UCI long algebraic form of each ply

  datatype LastMove = LastMove(from: Square, to: Square)

  datatype Pending = Pending(from: Square, to: Square, color: Color)

  datatype Orientation = WhiteSide | BlackSide

  /** A move in the long algebraic form of the Universal Chess Interface:
      origin, destination, then the promotion letter if any. */
  function Uci(m: Move): string {
    m.from + m.to + (if m.promotion.Some? then [PromoLetter(m.promotion.value)] else [])
  }

  /** Reading a UCI move back, for two-character square names. */
  function ParseUci(s: string): (r: Option<Move>)
    ensures r.Some? ==> Uci(r.value) == s
  {
    if |s| == 4 then Some(Move(s[..2], s[2..4], None))
    else if |s| == 5 && PromoOfLetter(s[4]).Some? then
      assert s == s[..2] + s[2..4] + [s[4]];
      Some(Move(s[..2], s[2..4], PromoOfLetter(s[4])))
    else None
  }

  lemma UciRoundTrip(m: Move)
    requires |m.from| == 2 && |m.to| == 2
    ensures ParseUci(Uci(m)) == Some(m)
  {
    var s := Uci(m);
    assert s[..2] == m.from && s[2..4] == m.to;
    if m.promotion.Some? {
      assert s[4] == PromoLetter(m.promotion.value);
    }
  }

  function SanHistory(log: seq<Ply>): seq<string> {
    seq(|log|, i requires 0 <= i < |log| => log[i].san)
  }

  function UciHistory(log: seq<Ply>): seq<string> {
    seq(|log|, i requires 0 <= i < |log| => Uci(log[i].move))
  }

  /** updateGameState: everything in the snapshot is read from the engine. */
  function Snapshot<P>(rules: Rules<P>, g: Game<P>): GameState {
    var p := Current(rules, g);
    GameState(rules.fen(p), rules.turn(p), rules.inCheck(p), rules.isCheckmate(p),
              rules.isDraw(p), IsGameOver(rules, p), SanHistory(g.log), UciHistory(g.log))
  }

  /** The two histories of a snapshot are aligned with the engine's log:
      same length, and entry i of each describes ply i. */
  lemma HistoriesAligned<P>(rules: Rules<P>, g: Game<P>)
    ensures var s := Snapshot(rules, g);
      && |s.history| == |s.uciHistory| == |g.log|
      && forall i | 0 <= i < |g.log| :: s.history[i] == g.log[i].san && s.uciHistory[i] == Uci(g.log[i].move)
  {
  }

  /** Entry i of the UCI history reads back to ply i's move whenever its
      squares have two-character names. */
  lemma UciHistoryReadsBack<P>(rules: Rules<P>, g: Game<P>)
    ensures var s := Snapshot(rules, g);
      forall i | 0 <= i < |g.log| && |g.log[i].move.from| == 2 && |g.log[i].move.to| == 2 ::
        ParseUci(s.uciHistory[i]) == Some(g.log[i].move)
  {
    var s := Snapshot(rules, g);
    forall i | 0 <= i < |g.log| && |g.log[i].move.from| == 2 && |g.log[i].move.to| == 2
      ensures ParseUci(s.uciHistory[i]) == Some(g.log[i].move)
    {
      UciRoundTrip(g.log[i].move);
    }
  }

  /** The whole state of the App component. */
  datatype AppState<P> = AppState(
    game: Game<P>,
    snapshot: GameState,
    lastMove: Option<LastMove>,
    pending: Option<Pending>,
    orientation: Orientation)

  /** The snapshot the component starts with, written out literally. */
  function InitialSnapshot<P>(rules: Rules<P>): GameState {
    GameState(rules.fen(rules.start), White, false, false, false, false, [], [])
  }

  function Initial<P>(rules: Rules<P>): AppState<P> {
    AppState(NewGame(rules), InitialSnapshot(rules), None, None, WhiteSide)
  }

  /** The highlight that belongs to a log: its last ply's squares. */
  function LastOf(log: seq<Ply>): Option<LastMove> {
    if log == [] then None else Some(LastMove(log[|log| - 1].move.from, log[|log| - 1].move.to))
  }

  /** The controller's invariant: a legal log, a snapshot that is exactly the
      one derived from the engine, and a highlight on the last ply played. */
  ghost predicate Inv<P>(rules: Rules<P>, s: AppState<P>) {
    LegalLog(rules, s.game) && Derived(rules, s)
  }

  /** The snapshot and the highlight are the ones the engine's game gives. */
  predicate Derived<P>(rules: Rules<P>, s: AppState<P>) {
    s.snapshot == Snapshot(rules, s.game) && s.lastMove == LastOf(s.game.log)
  }

  /** handleMove: the game over guard, then the promotion split, then apply. */
  function AfterMove<P>(rules: Rules<P>, s: AppState<P>, from: Square, to: Square): (r: AppState<P>)
    ensures r.orientation == s.orientation
    ensures IsGameOver(rules, Current(rules, s.game)) ==> r == s
    ensures r.pending != s.pending ==>
      && r.pending == Some(Pending(from, to, rules.turn(Current(rules, s.game))))
      && r.game == s.game && r.lastMove == s.lastMove && r.snapshot == s.snapshot
    ensures r.game != s.game ==>
      && !HasPromotion(rules.legalMoves(Current(rules, s.game)), from, to)
      && r.game.base == s.game.base
      && |r.game.log| == |s.game.log| + 1
      && r.game.log[..|s.game.log|] == s.game.log
      && r.game.log[|s.game.log|].move == Move(from, to, None)
      && r.lastMove == Some(LastMove(from, to))
      && r.pending == s.pending
      && r.snapshot == Snapshot(rules, r.game)
    ensures r.game == s.game ==> r.lastMove == s.lastMove && r.snapshot == s.snapshot
    ensures !IsGameOver(rules, Current(rules, s.game)) && HasPromotion(rules.legalMoves(Current(rules, s.game)), from, to) ==>
      r == s.(pending := Some(Pending(from, to, rules.turn(Current(rules, s.game)))))
    ensures !HasPromotion(rules.legalMoves(Current(rules, s.game)), from, to) ==> r.pending == s.pending
    ensures r.game != s.game <==>
      && !IsGameOver(rules, Current(rules, s.game))
      && !HasPromotion(rules.legalMoves(Current(rules, s.game)), from, to)
      && Move(from, to, None) in rules.legalMoves(Current(rules, s.game))
  {
    var pos := Current(rules, s.game);
    if IsGameOver(rules, pos) then s
    else if HasPromotion(rules.legalMoves(pos), from, to) then
      s.(pending := Some(Pending(from, to, rules.turn(pos))))
    else
      match TryMove(rules, s.game, from, to, None)
      case None =>
        assert Move(from, to, None) !in rules.legalMoves(pos) by {
          assert !Accepts(Move(from, to, None), from, to, None) || Move(from, to, None) !in rules.legalMoves(pos);
        }
        s
      case Some(g) =>
        assert g != s.game by { assert |g.log| != |s.game.log|; }
        s.(game := g, lastMove := Some(LastMove(from, to)), snapshot := Snapshot(rules, g))
  }

  /** finalizePromotion: no-op without a pending promotion; otherwise apply
      the completed move and clear the pending promotion whatever happens. */
  function AfterPromotion<P>(rules: Rules<P>, s: AppState<P>, piece: Promo): (r: AppState<P>)
    ensures r.orientation == s.orientation
    ensures s.pending.None? ==> r == s
    ensures r.pending.None?
    ensures r.game == s.game ==> r.lastMove == s.lastMove && r.snapshot == s.snapshot
    ensures r.game != s.game ==>
      && s.pending.Some?
      && TryMove(rules, s.game, s.pending.value.from, s.pending.value.to, Some(piece)).Some?
      && r.game == TryMove(rules, s.game, s.pending.value.from, s.pending.value.to, Some(piece)).value
      && r.lastMove == Some(LastMove(s.pending.value.from, s.pending.value.to))
      && r.snapshot == Snapshot(rules, r.game)
    ensures s.pending.Some? && TryMove(rules, s.game, s.pending.value.from, s.pending.value.to, Some(piece)).Some? ==>
      r.game != s.game
  {
    match s.pending
    case None => s
    case Some(p) =>
      match TryMove(rules, s.game, p.from, p.to, Some(piece))
      case None => s.(pending := None)
      case Some(g) =>
        assert |g.log| != |s.game.log|;
        s.(game := g, lastMove := Some(LastMove(p.from, p.to)), snapshot := Snapshot(rules, g), pending := None)
  }

  /** The promotion dialog's cancel button: only the pending promotion goes. */
  function AfterCancel<P>(s: AppState<P>): (r: AppState<P>)
    ensures r.pending.None?
    ensures r.game == s.game && r.snapshot == s.snapshot && r.lastMove == s.lastMove && r.orientation == s.orientation
  {
    s.(pending := None)
  }

  /** resetGame. */
  function AfterReset<P>(rules: Rules<P>, s: AppState<P>): (r: AppState<P>)
    ensures r.game == NewGame(rules) && r.lastMove.None? && r.pending.None? && r.orientation == s.orientation
    ensures r.snapshot.history == [] && r.snapshot.uciHistory == [] && r.snapshot.fen == rules.fen(rules.start)
  {
    var g := NewGame(rules);
    s.(game := g, lastMove := None, pending := None, snapshot := Snapshot(rules, g))
  }

  /** handleLoadFen: the new state and the success flag. */
  function AfterLoad<P>(rules: Rules<P>, s: AppState<P>, fen: string): (r: (AppState<P>, bool))
    ensures r.1 <==> rules.parse(fen).Some?
    ensures !r.1 ==> r.0 == s
    ensures r.1 ==>
      && r.0.game == Game(rules.parse(fen).value, [])
      && r.0.lastMove.None? && r.0.pending.None?
      && r.0.snapshot.fen == rules.fen(rules.parse(fen).value)
      && r.0.snapshot.history == [] && r.0.snapshot.uciHistory == []
      && r.0.orientation == s.orientation
  {
    match LoadGame(rules, fen)
    case None => (s, false)
    case Some(g) => (s.(game := g, lastMove := None, pending := None, snapshot := Snapshot(rules, g)), true)
  }

  /** undoMove: allowed in any state; the highlight moves back to the ply
      that is now the last one. */
  function AfterUndo<P>(rules: Rules<P>, s: AppState<P>): (r: AppState<P>)
    ensures s.game.log == [] ==> r == s
    ensures s.game.log != [] ==>
      && r.game.base == s.game.base
      && |r.game.log| == |s.game.log| - 1 && r.game.log == s.game.log[..|r.game.log|]
      && r.lastMove == LastOf(r.game.log)
      && r.snapshot == Snapshot(rules, r.game)
    ensures r.pending == s.pending && r.orientation == s.orientation
  {
    match UndoGame(s.game)
    case None => s
    case Some(g) => s.(game := g, lastMove := LastOf(g.log), snapshot := Snapshot(rules, g))
  }

  /** toggleOrientation. */
  function AfterFlip<P>(s: AppState<P>): (r: AppState<P>)
    ensures r.orientation != s.orientation
    ensures r.(orientation := s.orientation) == s
  {
    s.(orientation := if s.orientation == WhiteSide then BlackSide else WhiteSide)
  }

  /** Everything the App component can be asked to do. */
  datatype Command =
    | Attempt(from: Square, to: Square)
    | Choose(piece: Promo)
    | Dismiss
    | Restart
    | Import(fen: string)
    | TakeBack
    | Flip

  function Step<P>(rules: Rules<P>, s: AppState<P>, c: Command): AppState<P> {
    match c
    case Attempt(from, to) => AfterMove(rules, s, from, to)
    case Choose(piece) => AfterPromotion(rules, s, piece)
    case Dismiss => AfterCancel(s)
    case Restart => AfterReset(rules, s)
    case Import(fen) => AfterLoad(rules, s, fen).0
    case TakeBack => AfterUndo(rules, s)
    case Flip => AfterFlip(s)
  }

  function Run<P>(rules: Rules<P>, s: AppState<P>, cs: seq<Command>): AppState<P>
    decreases |cs|
  {
    if cs == [] then s else Run(rules, Step(rules, s, cs[0]), cs[1..])
  }

  /** The literal initial snapshot is the one the engine would give, and the
      initial state satisfies the invariant. */
  lemma InitialIsDerived<P>(rules: Rules<P>)
    requires WellFormed(rules)
    ensures Initial(rules).snapshot == Snapshot(rules, NewGame(rules))
    ensures Initial(rules).snapshot.fen == StartFen
    ensures Inv(rules, Initial(rules))
  {
  }

  /** Reset brings back the initial state, except for the orientation. */
  lemma ResetRestoresInitial<P>(rules: Rules<P>, s: AppState<P>)
    requires WellFormed(rules)
    ensures AfterReset(rules, s) == Initial(rules).(orientation := s.orientation)
  {
  }

  lemma MoveKeepsInv<P>(rules: Rules<P>, s: AppState<P>, from: Square, to: Square)
    requires Inv(rules, s)
    ensures Inv(rules, AfterMove(rules, s, from, to))
  {
    var pos := Current(rules, s.game);
    if !IsGameOver(rules, pos) && !HasPromotion(rules.legalMoves(pos), from, to)
       && TryMove(rules, s.game, from, to, None).Some? {
      TryMoveKeepsLegal(rules, s.game, from, to, None);
    }
  }

  lemma PromotionKeepsInv<P>(rules: Rules<P>, s: AppState<P>, piece: Promo)
    requires Inv(rules, s)
    ensures Inv(rules, AfterPromotion(rules, s, piece))
  {
    if s.pending.Some? && TryMove(rules, s.game, s.pending.value.from, s.pending.value.to, Some(piece)).Some? {
      TryMoveKeepsLegal(rules, s.game, s.pending.value.from, s.pending.value.to, Some(piece));
    }
  }

  lemma UndoKeepsInv<P>(rules: Rules<P>, s: AppState<P>)
    requires Inv(rules, s)
    ensures Inv(rules, AfterUndo(rules, s))
  {
    if s.game.log != [] {
      UndoKeepsLegal(rules, s.game);
    }
  }

  lemma {:induction false} StepKeepsInv<P>(rules: Rules<P>, s: AppState<P>, c: Command)
    requires Inv(rules, s)
    ensures Inv(rules, Step(rules, s, c))
  {
    match c
    case Attempt(from, to) => MoveKeepsInv(rules, s, from, to);
    case Choose(piece) => PromotionKeepsInv(rules, s, piece);
    case Dismiss =>
    case Restart =>
    case Import(fen) =>
    case TakeBack => UndoKeepsInv(rules, s);
    case Flip =>
  }

  /** Whatever the user does from the start, the snapshot stays the one
      derived from the engine and the highlight stays on the last ply. */
  lemma {:induction false} RunKeepsInv<P>(rules: Rules<P>, s: AppState<P>, cs: seq<Command>)
    requires Inv(rules, s)
    ensures Inv(rules, Run(rules, s, cs))
    decreases |cs|
  {
    if cs != [] {
      StepKeepsInv(rules, s, cs[0]);
      RunKeepsInv(rules, Step(rules, s, cs[0]), cs[1..]);
    }
  }

  /** Undo takes back exactly what an accepted move attempt did. */
  lemma UndoReversesMove<P>(rules: Rules<P>, s: AppState<P>, from: Square, to: Square)
    requires Inv(rules, s)
    requires AfterMove(rules, s, from, to).game != s.game
    ensures var t := AfterUndo(rules, AfterMove(rules, s, from, to));
      t.game == s.game && t.snapshot == s.snapshot && t.lastMove == s.lastMove
  {
    UndoAfterMove(rules, s.game, from, to, None);
  }

  /** Undo applied n times. */
  function UndoTimes<P>(rules: Rules<P>, s: AppState<P>, n: nat): AppState<P>
    decreases n
  {
    if n == 0 then s else UndoTimes(rules, AfterUndo(rules, s), n - 1)
  }

  /** The log of `g'` continues the log of `g` from the same base. */
  ghost predicate Extends<P>(g: Game<P>, g': Game<P>) {
    g'.base == g.base && |g.log| <= |g'.log| && g'.log[..|g.log|] == g.log
  }

  /** Every command either continues the log, or is a reset, an import or an undo. */
  lemma StepExtends<P>(rules: Rules<P>, s: AppState<P>, c: Command)
    requires !c.Restart? && !c.Import? && !c.TakeBack?
    ensures Extends(s.game, Step(rules, s, c).game)
  {
  }

  /** n undos drop the last n plies; after at least one, the snapshot and
      highlight are those of the shorter log. */
  lemma {:induction false} UndoTimesEffect<P>(rules: Rules<P>, t: AppState<P>, n: nat)
    requires n <= |t.game.log|
    ensures UndoTimes(rules, t, n).game == Game(t.game.base, t.game.log[..|t.game.log| - n])
    ensures n > 0 ==> Derived(rules, UndoTimes(rules, t, n))
    decreases n
  {
    if n == 0 {
      assert t.game.log[..|t.game.log|] == t.game.log;
    } else {
      var t' := AfterUndo(rules, t);
      var shorter := t.game.log[..|t.game.log| - 1];
      assert t'.game == Game(t.game.base, shorter);
      UndoTimesEffect(rules, t', n - 1);
      assert UndoTimes(rules, t, n) == UndoTimes(rules, t', n - 1);
      assert shorter[..|shorter| - (n - 1)] == t.game.log[..|t.game.log| - n];
    }
  }

  /** One undo per ply that `t` has beyond `s` brings back the game, the
      snapshot and the highlight of `s`. */
  ghost predicate UndoesBackTo<P>(rules: Rules<P>, t: AppState<P>, s: AppState<P>)
    requires |s.game.log| <= |t.game.log|
  {
    var u := UndoTimes(rules, t, |t.game.log| - |s.game.log|);
    u.game == s.game && u.snapshot == s.snapshot && u.lastMove == s.lastMove
  }

  /** Undoing as many times as plies were added since an earlier state takes
      the session back to that state's position, snapshot and highlight. */
  lemma UndoTimesRestores<P>(rules: Rules<P>, s: AppState<P>, t: AppState<P>)
    requires Derived(rules, s) && Derived(rules, t) && Extends(s.game, t.game)
    ensures UndoesBackTo(rules, t, s)
  {
    var n := |t.game.log| - |s.game.log|;
    UndoTimesEffect(rules, t, n);
    var u := UndoTimes(rules, t, n);
    assert u.game == s.game;
    if n == 0 {
      assert u == t;
    }
  }

  /** A sequence of move attempts and promotion choices, followed by one undo
      per ply it added, returns to where it started. */
  lemma {:induction false} MovesThenUndos<P>(rules: Rules<P>, s: AppState<P>, cs: seq<Command>)
    requires Inv(rules, s)
    requires forall i | 0 <= i < |cs| :: !cs[i].Restart? && !cs[i].Import? && !cs[i].TakeBack?
    ensures Extends(s.game, Run(rules, s, cs).game) && UndoesBackTo(rules, Run(rules, s, cs), s)
  {
    var t := Run(rules, s, cs);
    RunExtends(rules, s, cs);
    RunKeepsInv(rules, s, cs);
    assert Extends(s.game, t.game) && Derived(rules, t);
    UndoTimesRestores(rules, s, t);
  }

  lemma {:induction false} RunExtends<P>(rules: Rules<P>, s: AppState<P>, cs: seq<Command>)
    requires forall i | 0 <= i < |cs| :: !cs[i].Restart? && !cs[i].Import? && !cs[i].TakeBack?
    ensures Extends(s.game, Run(rules, s, cs).game)
    decreases |cs|
  {
    if cs != [] {
      var s' := Step(rules, s, cs[0]);
      StepExtends(rules, s, cs[0]);
      RunExtends(rules, s', cs[1..]);
      var t := Run(rules, s', cs[1..]);
      assert t.game.log[..|s.game.log|] == t.game.log[..|s'.game.log|][..|s.game.log|];
    }
  }

  /** The App component. `game` is the engine held in gameRef. */
  class App<P> {
    const game: Engine<P>
    var gameState: GameState
    var lastMove: Option<LastMove>
    var pendingPromotion: Option<Pending>
    var orientation: Orientation

    function Model(): AppState<P>
      reads this, game
    {
      AppState(game.State(), gameState, lastMove, pendingPromotion, orientation)
    }

    ghost predicate Valid()
      reads this, game
    {
      game.Valid() && Inv(game.rules, Model())
    }

    constructor (rules: Rules<P>)
      requires WellFormed(rules)
      ensures fresh(game) && game.rules == rules
      ensures Model() == Initial(rules) && Valid()
    {
      game := new Engine(rules);
      new;
      gameState := GameState(game.rules.fen(game.CurrentPosition()), White, false, false, false, false, [], []);
      lastMove, pendingPromotion, orientation := None, None, WhiteSide;
      InitialIsDerived(rules);
    }

    /** updateGameState. */
    method UpdateGameState()
      modifies this
      ensures gameState == Snapshot(game.rules, game.State())
      ensures lastMove == old(lastMove) && pendingPromotion == old(pendingPromotion) && orientation == old(orientation)
    {
      var log := game.log;
      var pos := game.CurrentPosition();
      var rules := game.rules;
      gameState := GameState(rules.fen(pos), rules.turn(pos), rules.inCheck(pos), rules.isCheckmate(pos),
                             rules.isDraw(pos), rules.isCheckmate(pos) || rules.isDraw(pos),
                             SanHistory(log), UciHistory(log));
    }

    method HandleMove(from: Square, to: Square)
      requires Valid()
      modifies this, game
      ensures Valid() && Model() == AfterMove(game.rules, old(Model()), from, to)
    {
      MoveKeepsInv(game.rules, Model(), from, to);
      var pos := game.CurrentPosition();
      if IsGameOver(game.rules, pos) {
        return;
      }
      var moves := game.rules.legalMoves(pos);
      var isPromotion := exists m | m in moves :: m.from == from && m.to == to && m.promotion.Some?;
      if isPromotion {
        pendingPromotion := Some(Pending(from, to, game.rules.turn(pos)));
        return;
      }
      var result := game.Move(from, to, None);
      if result.Some? {
        lastMove := Some(LastMove(from, to));
        UpdateGameState();
      }
    }

    method FinalizePromotion(piece: Promo)
      requires Valid()
      modifies this, game
      ensures Valid() && Model() == AfterPromotion(game.rules, old(Model()), piece)
    {
      PromotionKeepsInv(game.rules, Model(), piece);
      if pendingPromotion.None? {
        return;
      }
      var p := pendingPromotion.value;
      var result := game.Move(p.from, p.to, Some(piece));
      if result.Some? {
        lastMove := Some(LastMove(p.from, p.to));
        UpdateGameState();
      }
      pendingPromotion := None;
    }

    /** The promotion dialog's onCancel. */
    method CancelPromotion()
      requires Valid()
      modifies this
      ensures Valid() && Model() == AfterCancel(old(Model()))
    {
      pendingPromotion := None;
    }

    method ResetGame()
      requires Valid()
      modifies this, game
      ensures Valid() && Model() == AfterReset(game.rules, old(Model()))
    {
      game.Reset();
      lastMove := None;
      pendingPromotion := None;
      UpdateGameState();
    }

    method HandleLoadFen(fen: string) returns (ok: bool)
      requires Valid()
      modifies this, game
      ensures Valid() && (Model(), ok) == AfterLoad(game.rules, old(Model()), fen)
    {
      ok := game.Load(fen);
      if ok {
        lastMove := None;
        pendingPromotion := None;
        UpdateGameState();
      }
    }

    method UndoMove()
      requires Valid()
      modifies this, game
      ensures Valid() && Model() == AfterUndo(game.rules, old(Model()))
    {
      UndoKeepsInv(game.rules, Model());
      var undid := game.Undo();
      if undid.Some? {
        lastMove := LastOf(game.log);
        UpdateGameState();
      }
    }

    method ToggleOrientation()
      requires Valid()
      modifies this
      ensures Valid() && Model() == AfterFlip(old(Model()))
    {
      orientation := if orientation == WhiteSide then BlackSide else WhiteSide;
    }
  }
}
