/** The arithmetic of GameManager.AddScore: which score a goal credits, the
    win-threshold test, and what a whole run of goals does to the scores and to
    the branch (end the game or reset the puck) that each call takes. */
module Scoring {

  /** player1Score and player2Score. */
  datatype Scores = Scores(p1: int, p2: int)

  /** The branch AddScore takes after its increment. */
  datatype Branch = Ends | Resets

  /** The increment at the head of AddScore: player 1 credits player1Score,
      every other number (not only 2) credits player2Score. */
  function Credit(s: Scores, player: int): (r: Scores)
    ensures r.p1 == s.p1 + 1 <==> player == 1
    ensures r.p2 == s.p2 + 1 <==> player != 1
    ensures r.p1 >= s.p1 && r.p2 >= s.p2
    ensures r.p1 + r.p2 == s.p1 + s.p2 + 1
  {
    if player == 1 then s.(p1 := s.p1 + 1) else s.(p2 := s.p2 + 1)
  }

  /** The threshold test AddScore applies to the incremented scores. */
  predicate Reached(s: Scores, winScore: int) {
    s.p1 >= winScore || s.p2 >= winScore
  }

  function Decide(s: Scores, winScore: int): Branch {
    if Reached(s, winScore) then Ends else Resets
  }

  /** The scores after AddScore has been called once per entry of goals, in order. */
  function AfterGoals(s: Scores, goals: seq<int>): Scores {
    if goals == [] then s
    else Credit(AfterGoals(s, goals[..|goals| - 1]), goals[|goals| - 1])
  }

  /** The branch taken by each of those calls; AddScore has no game-over
      guard, so every call takes one of the two branches. */
  function Branches(s: Scores, winScore: int, goals: seq<int>): (r: seq<Branch>)
    ensures |r| == |goals|
  {
    if goals == [] then []
    else Branches(s, winScore, goals[..|goals| - 1]) + [Decide(AfterGoals(s, goals), winScore)]
  }

  /** How many of the goals credit player 1. */
  function Player1Goals(goals: seq<int>): (n: nat)
    ensures n <= |goals|
  {
    if goals == [] then 0
    else Player1Goals(goals[..|goals| - 1]) + (if goals[|goals| - 1] == 1 then 1 else 0)
  }

  /** Every call adds exactly one point: player 1 gets one per goal numbered 1,
      player 2 one per every other goal. */
  lemma {:induction false} GoalsTally(s: Scores, goals: seq<int>)
    ensures AfterGoals(s, goals)
         == Scores(s.p1 + Player1Goals(goals), s.p2 + (|goals| - Player1Goals(goals)))
  {
    if goals != [] {
      GoalsTally(s, goals[..|goals| - 1]);
    }
  }

  /** Neither score ever decreases along a run of goals. */
  lemma {:induction false} ScoresNeverDecrease(s: Scores, goals: seq<int>, i: nat, j: nat)
    requires i <= j <= |goals|
    ensures AfterGoals(s, goals[..i]).p1 <= AfterGoals(s, goals[..j]).p1
    ensures AfterGoals(s, goals[..i]).p2 <= AfterGoals(s, goals[..j]).p2
  {
    if i < j {
      ScoresNeverDecrease(s, goals, i, j - 1);
      assert goals[..j][..j - 1] == goals[..j - 1];
    }
  }

  /** The i-th call ends the game exactly when, after its own increment, some
      score has reached winScore; otherwise it resets the puck. */
  lemma {:induction false} BranchAt(s: Scores, winScore: int, goals: seq<int>, i: nat)
    requires i < |goals|
    ensures Branches(s, winScore, goals)[i] == Ends
        <==> Reached(AfterGoals(s, goals[..i + 1]), winScore)
  {
    var init := goals[..|goals| - 1];
    if i < |init| {
      BranchAt(s, winScore, init, i);
      assert init[..i + 1] == goals[..i + 1];
    } else {
      assert goals[..i + 1] == goals;
    }
  }

  /** No game-over guard: once a call has ended the game, every later call
      ends it again and none resets the puck. */
  lemma {:induction false} EndGameSticky(s: Scores, winScore: int, goals: seq<int>, i: nat, j: nat)
    requires i <= j < |goals|
    requires Branches(s, winScore, goals)[i] == Ends
    ensures Branches(s, winScore, goals)[j] == Ends
  {
    BranchAt(s, winScore, goals, i);
    BranchAt(s, winScore, goals, j);
    ScoresNeverDecrease(s, goals, i + 1, j + 1);
  }

  /** Starting below the threshold, the first call that ends the game (the one
      whose predecessor, if any, reset the puck; by EndGameSticky every earlier
      call did) is the one on which a score equals winScore exactly: the test
      is never skipped. */
  lemma {:induction false} FirstEndGameAtThreshold(s: Scores, winScore: int, goals: seq<int>, i: nat)
    requires !Reached(s, winScore)
    requires i < |goals|
    requires Branches(s, winScore, goals)[i] == Ends
    requires i == 0 || Branches(s, winScore, goals)[i - 1] == Resets
    ensures AfterGoals(s, goals[..i + 1]).p1 == winScore || AfterGoals(s, goals[..i + 1]).p2 == winScore
  {
    BranchAt(s, winScore, goals, i);
    if i > 0 {
      BranchAt(s, winScore, goals, i - 1);
    } else {
      assert goals[..0] == [];
    }
    assert goals[..i + 1][..i] == goals[..i];
  }
}
