/** GameManager: the two scores, the win threshold, and the branch after each
    goal into EndGame or a puck reset. Unity's global Time.timeScale and the
    win panel's active flag are held here as fields. */
module Game {
  import opened Scoring
  import Puck

  class GameManager {
    var player1Score: int
    var player2Score: int
    var winScore: int
    /** Time.timeScale */
    var timeScale: real
    /** winPanel.activeSelf */
    var winPanelActive: bool
    /** The puck AddScore resets; wired in the scene, never reassigned by code. */
    const puck: Puck.PuckController
    /** Calls to EndGame. */
    ghost var endGameCalls: nat

    function Score(): Scores
      reads this
    {
      Scores(player1Score, player2Score)
    }

    /** A fresh match: both scores at zero (the C# default), time running, the
        win panel hidden. winScore is an inspector field whose default is 5. */
    constructor (puck: Puck.PuckController, winScore: int)
      ensures Score() == Scores(0, 0) && this.winScore == winScore
      ensures timeScale == 1.0 && !winPanelActive
      ensures this.puck == puck && endGameCalls == 0
    {
      player1Score, player2Score := 0, 0;
      this.winScore := winScore;
      timeScale := 1.0;
      winPanelActive := false;
      this.puck := puck;
      endGameCalls := 0;
    }

    /** Halts simulation time and shows the win panel. */
    method EndGame()
      modifies this
      ensures timeScale == 0.0 && winPanelActive
      ensures endGameCalls == old(endGameCalls) + 1
      ensures Score() == old(Score()) && winScore == old(winScore)
    {
      timeScale := 0.0;
      winPanelActive := true;
      endGameCalls := endGameCalls + 1;
    }

    /** What one call of AddScore(player) does: credit one goal to player (1,
        or anyone else for player 2), then either end the game, if either score
        has reached winScore, or reset the puck. */
    twostate predicate AddedScore(player: int)
      reads this, puck
    {
      && Score() == Credit(old(Score()), player)
      && winScore == old(winScore)
      && (Reached(Score(), winScore) ==>
            && timeScale == 0.0 && winPanelActive
            && endGameCalls == old(endGameCalls) + 1
            && unchanged(puck))
      && (!Reached(Score(), winScore) ==>
            && timeScale == old(timeScale) && winPanelActive == old(winPanelActive)
            && endGameCalls == old(endGameCalls)
            && puck.JustReset())
    }

    /** There is no game-over guard: a goal after the game has ended still
        counts and runs EndGame again. */
    method AddScore(player: int)
      modifies this, puck
      ensures AddedScore(player)
    {
      if player == 1 {
        player1Score := player1Score + 1;
      } else {
        player2Score := player2Score + 1;
      }
      if player1Score >= winScore || player2Score >= winScore {
        EndGame();
      } else {
        puck.ResetPuck();
      }
    }
  }

  /** PuckController.OnTriggerEnter: a goal trigger tagged GoalLeft scores for
      player 2 and one tagged GoalRight for player 1, through the GameManager
      singleton (passed here as instance); any other trigger does nothing. It
      lives in this module because it calls into GameManager. */
  method OnTriggerEnter(instance: GameManager, otherTag: string)
    modifies instance, instance.puck
    ensures otherTag == "GoalLeft" ==>
      instance.player2Score == old(instance.player2Score) + 1 && instance.player1Score == old(instance.player1Score)
    ensures otherTag == "GoalRight" ==>
      instance.player1Score == old(instance.player1Score) + 1 && instance.player2Score == old(instance.player2Score)
    ensures Puck.GoalScorer(otherTag).Some? ==> instance.AddedScore(Puck.GoalScorer(otherTag).value)
    ensures Puck.GoalScorer(otherTag).None? ==> unchanged(instance) && unchanged(instance.puck)
  {
    var scorer := Puck.GoalScorer(otherTag);
    if scorer.Some? {
      instance.AddScore(scorer.value);
    }
  }
}
