/** Concrete matches played through the engine object. Each draw is chosen
    for the computer's run it gives: RandomRun(d) == d + 1 for d < 6. */
module Scenarios {
  import opened Rules
  import opened Machine
  import opened Engine

  /** A first-innings ball that is not a wicket, played and revealed: the
      batting side scores its run and input is open again. */
  method FirstInningsRun(g: GameState, userChoice: int, draw: nat, now: string)
    requires g.Valid() && IsRun(userChoice) && RandomRun(draw) != userChoice
    requires g.started && !g.gameOver && !g.inputLocked && g.innings == 1 && g.pending == []
    modifies g
    ensures g.Valid() && g.started && !g.gameOver && !g.inputLocked
    ensures g.innings == 1 && g.pending == [] && g.balls == old(g.balls) + 1
    ensures g.userBattingFirst == old(g.userBattingFirst)
    ensures g.history == old(g.history) && g.bestScore == old(g.bestScore)
    ensures g.userBattingFirst ==>
      g.userScore == old(g.userScore) + userChoice && g.compScore == old(g.compScore)
    ensures !g.userBattingFirst ==>
      g.compScore == old(g.compScore) + RandomRun(draw) && g.userScore == old(g.userScore)
  {
    g.PlayBall(userChoice, draw);
    g.Fire(0, now);
  }

  /** A first-innings wicket, played and revealed: the innings break shows
      and, as written, input is open during it. */
  method FirstInningsWicket(g: GameState, userChoice: int, now: string)
    requires g.Valid() && IsRun(userChoice)
    requires g.started && !g.gameOver && !g.inputLocked && g.innings == 1 && g.pending == []
    modifies g
    ensures g.Valid() && g.started && !g.gameOver && !g.inputLocked
    ensures g.innings == 1 && g.overlayVisible && g.pending == [SecondInnings]
    ensures g.balls == old(g.balls) + 1 && g.userBattingFirst == old(g.userBattingFirst)
    ensures g.userScore == old(g.userScore) && g.compScore == old(g.compScore)
    ensures g.history == old(g.history) && g.bestScore == old(g.bestScore)
  {
    g.PlayBall(userChoice, userChoice - 1);  // the computer picks the same run
    g.Fire(0, now);
  }

  /** The innings break ends: the second innings starts with no balls and
      the target set from the first batting side's score. A second break end,
      if one was scheduled, stays pending. */
  method EndBreak(g: GameState, now: string)
    requires g.Valid()
    requires g.pending == [SecondInnings] || g.pending == [SecondInnings, SecondInnings]
    modifies g
    ensures g.Valid() && g.innings == 2 && g.balls == 0 && !g.inputLocked && !g.overlayVisible
    ensures g.pending == old(g.pending)[1..]
    ensures g.target == Some((if g.userBattingFirst then g.userScore else g.compScore) + 1)
    ensures g.started == old(g.started) && g.gameOver == old(g.gameOver)
    ensures g.userBattingFirst == old(g.userBattingFirst)
    ensures g.userScore == old(g.userScore) && g.compScore == old(g.compScore)
    ensures g.history == old(g.history) && g.bestScore == old(g.bestScore)
  {
    g.Fire(0, now);
  }

  /** A second-innings ball that is not a wicket and leaves the chasing
      side short of the target, played and revealed: as written, input
      stays locked and the pending list is as before (empty, or a second
      break end scheduled earlier). */
  method ChaseRunShort(g: GameState, userChoice: int, draw: nat, now: string)
    requires g.Valid() && IsRun(userChoice) && RandomRun(draw) != userChoice
    requires g.started && !g.gameOver && !g.inputLocked && g.innings == 2
    requires g.pending == [] || g.pending == [SecondInnings]
    requires g.target.Some? && !g.overlayVisible
    requires (if g.userBattingFirst then g.compScore + RandomRun(draw) else g.userScore + userChoice)
             < g.target.value
    modifies g
    ensures g.Valid() && g.started && !g.gameOver && g.inputLocked && g.pending == old(g.pending)
    ensures g.innings == 2 && g.balls == old(g.balls) + 1 && g.target == old(g.target)
    ensures g.userBattingFirst == old(g.userBattingFirst)
    ensures g.userBattingFirst ==>
      g.compScore == old(g.compScore) + RandomRun(draw) && g.userScore == old(g.userScore)
    ensures !g.userBattingFirst ==>
      g.userScore == old(g.userScore) + userChoice && g.compScore == old(g.compScore)
  {
    g.PlayBall(userChoice, draw);
    g.Fire(|g.pending| - 1, now);
  }

  /** The user bats first, scores 4, 4 and 4 and is out on the fourth ball:
      the second innings starts with no balls and a target of 13. */
  method UserOutOnTwelve() returns (userScore: int, ballsAtWicket: int,
                                    innings: int, balls: int, target: Option<int>)
    ensures userScore == 12 && ballsAtWicket == 4
    ensures innings == 2 && balls == 0 && target == Some(13)
  {
    var g := new GameState(0, []);
    g.StartMatch(true);
    FirstInningsRun(g, 4, 0, "t1");
    FirstInningsRun(g, 4, 0, "t2");
    FirstInningsRun(g, 4, 0, "t3");
    FirstInningsWicket(g, 4, "t4");
    ballsAtWicket := g.balls;
    EndBreak(g, "t5");
    userScore, innings, balls, target := g.userScore, g.innings, g.balls, g.target;
  }

  /** The user bowls first and the computer is out on 4, so the target is
      5; the user's first ball of the chase scores 6 and wins at once,
      without a dismissal. */
  method ChaseWonMidInnings() returns (target: Option<int>, over: bool, phase: Phase,
                                       best: int, latest: HistoryEntry)
    ensures target == Some(5) && over && phase == Result && best == 6
    ensures latest == HistoryEntry("t4", 6, 4, Win, false)
  {
    var g := new GameState(0, []);
    g.StartMatch(false);
    FirstInningsRun(g, 1, 3, "t1");  // the computer scores 4
    FirstInningsWicket(g, 2, "t2");
    EndBreak(g, "t3");
    target := g.target;
    g.PlayBall(6, 0);                // the user scores 6
    g.Fire(0, "t4");
    over, phase, best, latest := g.gameOver, g.phase, g.bestScore, g.history[0];
  }

  /** Both sides are out on their first ball: 0 against 0 is a tie. */
  method BothOutForNothing() returns (result: Outcome, userScore: int, compScore: int,
                                      stored: nat)
    ensures result == Tie && userScore == 0 && compScore == 0 && stored == 1
  {
    var g := new GameState(0, []);
    g.StartMatch(true);
    FirstInningsWicket(g, 3, "t1");
    EndBreak(g, "t2");
    g.PlayBall(5, 4);  // both pick 5
    g.Fire(0, "t3");
    result, userScore, compScore, stored := g.history[0].result, g.userScore, g.compScore, |g.history|;
  }

  /** As written, a second-innings ball that neither ends the match nor
      takes a wicket leaves input locked with nothing pending: the match
      is still on, but the next ball is refused and nothing can fire. */
  method SecondInningsStalls() returns (started: bool, over: bool, locked: bool,
                                        waiting: nat, ballsBefore: int, ballsAfter: int)
    ensures started && !over && locked && waiting == 0
    ensures ballsBefore == 1 && ballsAfter == 1
  {
    var g := new GameState(0, []);
    g.StartMatch(true);
    FirstInningsRun(g, 5, 0, "t1");  // the user scores 5
    FirstInningsWicket(g, 3, "t2");
    EndBreak(g, "t3");               // target 6
    ChaseRunShort(g, 2, 4, "t4");    // the computer scores 5
    ballsBefore := g.balls;
    g.PlayBall(1, 0);                // refused
    ballsAfter := g.balls;
    started, over, locked, waiting := g.started, g.gameOver, g.inputLocked, |g.pending|;
  }

  /** As written, input reopens while the innings overlay shows; a ball
      played then still counts for the first innings, and the target is
      taken when the break ends, so it includes those runs. */
  method RunsDuringBreak() returns (overlayUp: bool, lockedInBreak: bool, target: Option<int>)
    ensures overlayUp && !lockedInBreak && target == Some(7)
  {
    var g := new GameState(0, []);
    g.StartMatch(true);
    FirstInningsWicket(g, 3, "t1");  // out for 0
    overlayUp, lockedInBreak := g.overlayVisible, g.inputLocked;
    g.PlayBall(6, 0);                // scores 6 during the break
    g.Fire(1, "t2");                 // its reveal fires before the break ends
    EndBreak(g, "t3");
    target := g.target;
  }

  /** As written, two reveals can be pending at once: a ball played during
      the break and one played right after it. If both take a wicket in
      the second innings, the match is finished, and stored, twice. */
  method MatchStoredTwice() returns (stored: nat, first: HistoryEntry, second: HistoryEntry)
    ensures stored == 2
    ensures first == HistoryEntry("t4", 0, 0, Tie, true) && second == HistoryEntry("t3", 0, 0, Tie, true)
  {
    var g := new GameState(0, []);
    g.StartMatch(true);
    FirstInningsWicket(g, 3, "t1");  // out for 0
    g.PlayBall(1, 0);                // played during the break: both pick 1
    g.Fire(0, "t2");                 // the break ends before that ball's reveal
    g.PlayBall(2, 1);                // both pick 2
    g.Fire(0, "t3");                 // the first reveal: a second-innings wicket ends the match
    g.Fire(0, "t4");                 // the second reveal ends it again
    stored, first, second := |g.history|, g.history[0], g.history[1];
  }

  /** As written, a ball played during the break whose reveal fires after
      the break has ended is resolved in the second innings: the user is
      out for 0, plays 6 during the break, the break ends (target 1), and
      the computer's run of 1 then wins the chase for the computer. */
  method BreakBallInChase() returns (target: Option<int>, ballsAfterBreak: int,
                                     over: bool, latest: HistoryEntry)
    ensures target == Some(1) && ballsAfterBreak == 0 && over
    ensures latest == HistoryEntry("t3", 0, 1, Loss, true)
  {
    var g := new GameState(0, []);
    g.StartMatch(true);
    FirstInningsWicket(g, 3, "t1");  // out for 0
    g.PlayBall(6, 0);                // played during the break; the computer picks 1
    g.Fire(0, "t2");                 // the break ends before that ball's reveal
    target, ballsAfterBreak := g.target, g.balls;
    g.Fire(0, "t3");                 // the reveal: the computer, now chasing, scores 1
    over, latest := g.gameOver, g.history[0];
  }

  /** A wicket played and revealed during the break, while its end is still
      pending: the first innings is switched again, so a second break end is
      scheduled, and input reopens. */
  method SecondWicketInBreak(g: GameState, now: string)
    requires g.Valid() && g.started && !g.gameOver && !g.inputLocked
    requires g.innings == 1 && g.pending == [SecondInnings]
    modifies g
    ensures g.Valid() && g.started && !g.gameOver && !g.inputLocked
    ensures g.innings == 1 && g.overlayVisible && g.pending == [SecondInnings, SecondInnings]
    ensures g.balls == old(g.balls) + 1 && g.userBattingFirst == old(g.userBattingFirst)
    ensures g.userScore == old(g.userScore) && g.compScore == old(g.compScore)
  {
    g.PlayBall(2, 1);  // both pick 2
    g.Fire(1, now);
  }

  /** As written, a second wicket during the break schedules a second break
      end. After a chase ball that falls short, input stays locked with that
      break end still pending; when it fires it resets the balls count to 0
      and reopens input in the middle of the chase. */
  method DoubleBreak() returns (breaksPending: nat, lockedAfterBall: bool, ballsBefore: int,
                                waitingAfterBall: nat, ballsAfter: int, lockedAfter: bool,
                                innings: int, target: Option<int>, compScore: int)
    ensures breaksPending == 2
    ensures lockedAfterBall && ballsBefore == 1 && waitingAfterBall == 1
    ensures ballsAfter == 0 && !lockedAfter && innings == 2 && target == Some(6) && compScore == 2
  {
    var g := new GameState(0, []);
    g.StartMatch(true);
    FirstInningsRun(g, 5, 0, "t0");  // the user scores 5
    FirstInningsWicket(g, 3, "t1");
    SecondWicketInBreak(g, "t2");
    breaksPending := |g.pending|;
    EndBreak(g, "t3");               // the first break end: target 6
    ChaseRunShort(g, 1, 1, "t4");    // the computer scores 2
    lockedAfterBall, ballsBefore, waitingAfterBall := g.inputLocked, g.balls, |g.pending|;
    EndBreak(g, "t5");               // the second break end
    ballsAfter, lockedAfter, innings, target, compScore :=
      g.balls, g.inputLocked, g.innings, g.target, g.compScore;
  }
}
