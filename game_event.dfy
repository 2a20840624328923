/** The one-shot notifications the clock sends to the presentation layer. */
module GameEvents {

  datatype GameEvent = PlayTapSound | ShowGameOver(message: string)

  /** The message sent when White (player 1) runs out of time. */
  const BlackWins := "Time out! Black wins!"
  /** The message sent when Black (player 2) runs out of time. */
  const WhiteWins := "Time out! White wins!"

  /** The game-over message naming the winner when one side's flag falls. */
  function TimeOutMessage(player1Expired: bool): string {
    if player1Expired then BlackWins else WhiteWins
  }

  /** The events the clock can ever produce. */
  predicate IsProduced(e: GameEvent) {
    e == PlayTapSound || e == ShowGameOver(BlackWins) || e == ShowGameOver(WhiteWins)
  }

  /** Every event is one of exactly two kinds, and only a game-over carries a message. */
  lemma TwoKinds(e: GameEvent)
    ensures e.PlayTapSound? != e.ShowGameOver?
    ensures e.PlayTapSound? ==> e == PlayTapSound
  {
  }
}
