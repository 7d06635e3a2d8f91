/**
 The record of one game between two players: the two player IDs and which of
 them won, or a tie. The record is immutable and not validated: any two IDs are
 accepted, equal ones and ones no store knows included.
 */
module Games {

  /** The outcome of a game, seen from player 1's side of the record. */
  datatype GameResult = Player1 | Tie | Player2

  /** A game between `player1` and `player2`. */
  datatype Game<ID> = Game(player1: ID, player2: ID, result: GameResult)
  {
    /** The ID of player 1. */
    function GetPlayer1ID(): ID { player1 }

    /** The ID of player 2. */
    function GetPlayer2ID(): ID { player2 }

    /** The outcome. */
    function GetResult(): GameResult { result }
  }

  /**
   Records a game. There is no precondition: any two IDs are accepted,
   including two equal ones and ones that no store holds.
   */
  function NewGame<ID>(player1ID: ID, player2ID: ID, result: GameResult): (g: Game<ID>)
    ensures g.GetPlayer1ID() == player1ID
    ensures g.GetPlayer2ID() == player2ID
    ensures g.GetResult() == result
  {
    Game(player1ID, player2ID, result)
  }

  /** A game is determined by what its getters report: rebuilding it from them gives it back. */
  lemma GameFromGetters<ID>(g: Game<ID>)
    ensures NewGame(g.GetPlayer1ID(), g.GetPlayer2ID(), g.GetResult()) == g
  {
  }

  /** Two recorded games are equal exactly when their IDs and outcomes are. */
  lemma NewGameInjective<ID>(a1: ID, a2: ID, ar: GameResult, b1: ID, b2: ID, br: GameResult)
    ensures NewGame(a1, a2, ar) == NewGame(b1, b2, br) <==> a1 == b1 && a2 == b2 && ar == br
  {
  }

  /** An outcome is one of exactly three values, and the three are distinct. */
  lemma GameResultThreeValues(r: GameResult)
    ensures r == Player1 || r == Tie || r == Player2
    ensures Player1 != Tie && Tie != Player2 && Player1 != Player2
  {
  }
}
