/** The rules engine the application delegates to (the chess.js library), as an
    abstract collaborator. Chess itself is not modelled: a position is an opaque
    value of the type parameter P, and what the engine computes from it (legal
    moves, the position after a move, SAN text, FEN text, check and mate flags,
    FEN parsing) is a field of a `Rules<P>` record. What IS modelled is the part
    of the engine the application relies on: the move log that apply and undo
    work on, the matching of a move request against the legal moves, and
    load/reset. */
module Chess {

  datatype Option<+T> = None | Some(value: T)

  datatype Color = White | Black

  function Opponent(c: Color): (r: Color)
    ensures r != c
  {
    if c == White then Black else White
  }

  /** A square name. The board only ever produces "a1".."h8"; a drop can carry
      any text, so the type is plain text. */
  type Square = string

  predicate IsSquareName(s: string) {
    |s| == 2 && 'a' <= s[0] <= 'h' && '1' <= s[1] <= '8'
  }

  /** The four pieces a pawn may promote to. */
  datatype Promo = Queen | Rook | Bishop | Knight

  function PromoLetter(p: Promo): char {
    match p
    case Queen => 'q'
    case Rook => 'r'
    case Bishop => 'b'
    case Knight => 'n'
  }

  function PromoOfLetter(c: char): (r: Option<Promo>)
    ensures r.Some? ==> PromoLetter(r.value) == c
    ensures forall p: Promo :: PromoLetter(p) == c ==> r == Some(p)
  {
    if c == 'q' then Some(Queen)
    else if c == 'r' then Some(Rook)
    else if c == 'b' then Some(Bishop)
    else if c == 'n' then Some(Knight)
    else None
  }

  /** A move as the engine lists it: origin, destination and, for a pawn
      reaching the last rank, the promotion piece. */
  datatype Move = Move(from: Square, to: Square, promotion: Option<Promo>)

  /** One entry of the engine's verbose history: the move played and its SAN
      (section 8.2.3 of the PGN Standard), computed in the position before it. */
  datatype Ply = Ply(move: Move, san: string)

  /** The chess rules, as the engine computes them. */
  datatype Rules<!P> = Rules(
    start: P,                          // the standard starting position
    legalMoves: P -> seq<Move>,        // all legal moves of the side to move, in engine order
    play: (P, Move) -> P,              // the position after a legal move
    san: (P, Move) -> string,          // SAN of a move in a position
    turn: P -> Color,                  // side to move
    pieceAt: (P, Square) -> Option<Color>,  // colour of the piece on a square, if any
    inCheck: P -> bool,
    isCheckmate: P -> bool,
    isDraw: P -> bool,                 // stalemate, fifty moves, repetition, material
    fen: P -> string,                  // FEN, section 16.1 of the PGN Standard
    parse: string -> Option<P>)        // FEN parsing; None on a malformed code

  /** FEN of the standard starting position. */
  const StartFen := "rnbqkbnr/pppppppp/8/8/8/8/PPPPPPPP/RNBQKBNR w KQkq - 0 1"

  /** What the application takes for granted about the engine's start position. */
  predicate WellFormed<P>(rules: Rules<P>) {
    && rules.fen(rules.start) == StartFen
    && rules.turn(rules.start) == White
    && !rules.inCheck(rules.start)
    && !rules.isCheckmate(rules.start)
    && !rules.isDraw(rules.start)
  }

  /** The engine's game over test: checkmate, or any kind of draw. */
  predicate IsGameOver<P>(rules: Rules<P>, p: P) {
    rules.isCheckmate(p) || rules.isDraw(p)
  }

  /** The engine's state: the position it was last reset or loaded to, and
      the plies played since. */
  datatype Game<P> = Game(base: P, log: seq<Ply>)

  /** The position reached by playing `log` from `base`. */
  function Position<P>(rules: Rules<P>, base: P, log: seq<Ply>): P
    decreases |log|
  {
    if log == [] then base
    else rules.play(Position(rules, base, log[..|log| - 1]), log[|log| - 1].move)
  }

  function Current<P>(rules: Rules<P>, g: Game<P>): P {
    Position(rules, g.base, g.log)
  }

  /** Every ply of the log was legal where it was played, and carries the SAN
      the engine gave it there. */
  ghost predicate LegalLog<P>(rules: Rules<P>, g: Game<P>) {
    forall i | 0 <= i < |g.log| ::
      var before := Position(rules, g.base, g.log[..i]);
      g.log[i].move in rules.legalMoves(before) && g.log[i].san == rules.san(before, g.log[i].move)
  }

  /** The engine accepts a request (from, to, promotion) for a legal move with
      the same origin and destination whose promotion is absent or is the one
      requested. */
  predicate Accepts(m: Move, from: Square, to: Square, promotion: Option<Promo>) {
    m.from == from && m.to == to && (m.promotion.None? || m.promotion == promotion)
  }

  /** The first legal move that a request matches, if any. */
  function FindMove(moves: seq<Move>, from: Square, to: Square, promotion: Option<Promo>): (r: Option<Move>)
    ensures r.None? <==> forall m | m in moves :: !Accepts(m, from, to, promotion)
    ensures r.Some? ==> exists k | 0 <= k < |moves| :: moves[k] == r.value && Accepts(r.value, from, to, promotion) &&
                          forall j | 0 <= j < k :: !Accepts(moves[j], from, to, promotion)
  {
    if moves == [] then None
    else if Accepts(moves[0], from, to, promotion) then Some(moves[0])
    else
      var r := FindMove(moves[1..], from, to, promotion);
      assert r.Some? ==> r.value in moves;
      assert forall m | m in moves[1..] :: m in moves;
      r
  }

  /** Whether some legal move from `from` to `to` carries a promotion. */
  predicate HasPromotion(moves: seq<Move>, from: Square, to: Square) {
    exists m | m in moves :: m.from == from && m.to == to && m.promotion.Some?
  }

  /** The legal moves that start on `sq`, in engine order. */
  function MovesFrom(moves: seq<Move>, sq: Square): (r: seq<Move>)
    ensures forall m :: m in r <==> m in moves && m.from == sq
    ensures |r| <= |moves|
  {
    if moves == [] then []
    else (if moves[0].from == sq then [moves[0]] else []) + MovesFrom(moves[1..], sq)
  }

  /** The destination squares of a list of moves. */
  function Targets(moves: seq<Move>): seq<Square> {
    seq(|moves|, i requires 0 <= i < |moves| => moves[i].to)
  }

  /** Applying a request: the first matching legal move is appended to the log
      with its SAN, or the request is rejected. */
  function TryMove<P>(rules: Rules<P>, g: Game<P>, from: Square, to: Square, promotion: Option<Promo>): (r: Option<Game<P>>)
    ensures r.None? <==> forall m | m in rules.legalMoves(Current(rules, g)) :: !Accepts(m, from, to, promotion)
    ensures r.Some? ==>
      && r.value.base == g.base
      && |r.value.log| == |g.log| + 1
      && r.value.log[..|g.log|] == g.log
      && r.value.log[|g.log|].move in rules.legalMoves(Current(rules, g))
      && Accepts(r.value.log[|g.log|].move, from, to, promotion)
      && Current(rules, r.value) == rules.play(Current(rules, g), r.value.log[|g.log|].move)
  {
    var pos := Current(rules, g);
    match FindMove(rules.legalMoves(pos), from, to, promotion)
    case None => None
    case Some(m) =>
      var g' := Game(g.base, g.log + [Ply(m, rules.san(pos, m))]);
      assert g'.log[..|g.log|] == g.log;
      Some(g')
  }

  /** Taking back the last ply, if there is one. */
  function UndoGame<P>(g: Game<P>): (r: Option<Game<P>>)
    ensures r.None? <==> g.log == []
    ensures r.Some? ==> r.value.base == g.base && |r.value.log| == |g.log| - 1 && r.value.log == g.log[..|r.value.log|]
  {
    if g.log == [] then None else Some(Game(g.base, g.log[..|g.log| - 1]))
  }

  /** Loading a FEN: the parsed position with an empty log, or a failure. */
  function LoadGame<P>(rules: Rules<P>, fen: string): (r: Option<Game<P>>)
    ensures r.None? <==> rules.parse(fen).None?
    ensures r.Some? ==> r.value.log == [] && Some(r.value.base) == rules.parse(fen)
  {
    match rules.parse(fen)
    case None => None
    case Some(p) => Some(Game(p, []))
  }

  function NewGame<P>(rules: Rules<P>): Game<P> {
    Game(rules.start, [])
  }

  lemma {:induction false} TryMoveKeepsLegal<P>(rules: Rules<P>, g: Game<P>, from: Square, to: Square, promotion: Option<Promo>)
    requires LegalLog(rules, g)
    requires TryMove(rules, g, from, to, promotion).Some?
    ensures LegalLog(rules, TryMove(rules, g, from, to, promotion).value)
  {
    var g' := TryMove(rules, g, from, to, promotion).value;
    var n := |g.log|;
    forall i | 0 <= i < |g'.log|
      ensures var before := Position(rules, g'.base, g'.log[..i]);
        g'.log[i].move in rules.legalMoves(before) && g'.log[i].san == rules.san(before, g'.log[i].move)
    {
      if i < n {
        assert g'.log[..i] == g.log[..i];
        assert g'.log[i] == g.log[i];
      } else {
        assert g'.log[..i] == g.log;
      }
    }
  }

  lemma {:induction false} UndoKeepsLegal<P>(rules: Rules<P>, g: Game<P>)
    requires LegalLog(rules, g) && g.log != []
    ensures LegalLog(rules, UndoGame(g).value)
  {
    var g' := UndoGame(g).value;
    forall i | 0 <= i < |g'.log|
      ensures var before := Position(rules, g'.base, g'.log[..i]);
        g'.log[i].move in rules.legalMoves(before) && g'.log[i].san == rules.san(before, g'.log[i].move)
    {
      assert g'.log[..i] == g.log[..i];
      assert g'.log[i] == g.log[i];
    }
  }

  /** Undo is the inverse of an accepted move. */
  lemma UndoAfterMove<P>(rules: Rules<P>, g: Game<P>, from: Square, to: Square, promotion: Option<Promo>)
    requires TryMove(rules, g, from, to, promotion).Some?
    ensures UndoGame(TryMove(rules, g, from, to, promotion).value) == Some(g)
  {
    var g' := TryMove(rules, g, from, to, promotion).value;
    assert g'.log[..|g'.log| - 1] == g.log;
  }

  /** The engine object: one mutable chess.js instance. */
  class Engine<P> {
    const rules: Rules<P>
    var base: P
    var log: seq<Ply>

    function State(): Game<P>
      reads this
    {
      Game(base, log)
    }

    ghost predicate Valid()
      reads this
    {
      LegalLog(rules, State())
    }

    constructor (rules: Rules<P>)
      ensures this.rules == rules && State() == NewGame(rules) && Valid()
    {
      this.rules := rules;
      base := rules.start;
      log := [];
    }

    function CurrentPosition(): P
      reads this
    {
      Current(rules, State())
    }

    /** game.move({from, to, promotion}): the ply played, or None where
        chess.js throws on an illegal request. */
    method Move(from: Square, to: Square, promotion: Option<Promo>) returns (r: Option<Ply>)
      requires Valid()
      modifies this
      ensures Valid()
      ensures r.None? ==> TryMove(rules, old(State()), from, to, promotion).None? && State() == old(State())
      ensures r.Some? ==> TryMove(rules, old(State()), from, to, promotion) == Some(State()) && r.value == log[|log| - 1]
    {
      var pos := CurrentPosition();
      var found := FindMove(rules.legalMoves(pos), from, to, promotion);
      match found {
        case None =>
          r := None;
        case Some(m) =>
          TryMoveKeepsLegal(rules, State(), from, to, promotion);
          var ply := Ply(m, rules.san(pos, m));
          log := log + [ply];
          r := Some(ply);
      }
    }

    /** game.undo(): the ply taken back, or None on an empty log. */
    method Undo() returns (r: Option<Ply>)
      requires Valid()
      modifies this
      ensures Valid()
      ensures r.None? ==> old(log) == [] && State() == old(State())
      ensures r.Some? ==> UndoGame(old(State())) == Some(State()) && r.value == old(log)[|old(log)| - 1]
    {
      if log == [] {
        r := None;
      } else {
        UndoKeepsLegal(rules, State());
        r := Some(log[|log| - 1]);
        log := log[..|log| - 1];
      }
    }

    /** game.load(fen): false where chess.js throws on a malformed FEN. */
    method Load(fen: string) returns (ok: bool)
      requires Valid()
      modifies this
      ensures Valid()
      ensures !ok ==> LoadGame(rules, fen).None? && State() == old(State())
      ensures ok ==> LoadGame(rules, fen) == Some(State())
    {
      match rules.parse(fen) {
        case None =>
          ok := false;
        case Some(p) =>
          base, log := p, [];
          ok := true;
      }
    }

    /** game.reset(): back to the starting position with an empty log. */
    method Reset()
      requires Valid()
      modifies this
      ensures Valid() && State() == NewGame(rules)
    {
      base, log := rules.start, [];
    }
  }
}
