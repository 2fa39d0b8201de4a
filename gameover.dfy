/** The outcome shown by components/GameOverModal.tsx: nothing while the game
    goes on; otherwise the winner, a title and a subtitle. */
module GameOver {
  import opened Chess
  import opened Controller
  import opened InfoPanel

  datatype Outcome = Outcome(winner: Option<string>, title: string, subtitle: string)

  const DrawSentence := "The game has ended in a draw."

  function GameOverView(gs: GameState): (r: Option<Outcome>)
    ensures r.None? <==> !gs.isCheckmate && !gs.isDraw
    ensures r.Some? ==> (r.value.title == "Checkmate!" <==> gs.isCheckmate)
    ensures r.Some? && !gs.isCheckmate ==> r.value.title == "Game Over"
    ensures r.Some? ==> (r.value.winner.Some? <==> gs.isCheckmate)
    ensures r.Some? && gs.isCheckmate ==>
      && r.value.winner == Some(SideName(Opponent(gs.turn)))
      && r.value.subtitle == r.value.winner.value + " wins the game."
    ensures r.Some? && !gs.isCheckmate ==> r.value.subtitle == DrawSentence
  {
    if !gs.isCheckmate && !gs.isDraw then None
    else
      var winner := if gs.isCheckmate then Some(if gs.turn == White then "Black" else "White") else None;
      var title := if gs.isCheckmate then "Checkmate!" else "Game Over";
      var subtitle := if gs.isCheckmate then winner.value + " wins the game." else DrawSentence;
      Some(Outcome(winner, title, subtitle))
  }

  /** The modal and the status line agree on the winner of a checkmate. */
  lemma ModalAgreesWithStatus(gs: GameState)
    requires gs.isCheckmate
    ensures StatusText(gs) == "Checkmate! " + GameOverView(gs).value.winner.value + " Wins"
  {
  }

  /** With a snapshot derived from the engine, the modal appears exactly when
      the snapshot is game over, which is when the board stops taking gestures. */
  lemma ModalShownWhenGameOver<P>(rules: Rules<P>, s: AppState<P>)
    requires Inv(rules, s)
    ensures GameOverView(s.snapshot).Some? <==> s.snapshot.isGameOver
    ensures s.snapshot.isGameOver <==> IsGameOver(rules, Current(rules, s.game))
  {
  }
}
