/** The engine as the source has it: one mutable game-state object whose
    functions update its fields step by step. Every method is proved to
    move the object exactly as the matching function of module Machine
    moves the state record, so the properties proved there hold of it. */
module Engine {
  import opened Rules
  import opened Machine

  class GameState {
    var phase: Phase
    var started: bool
    var inputLocked: bool
    var userBattingFirst: bool
    var innings: int
    var userScore: int
    var compScore: int
    var target: Option<int>
    var balls: int
    var gameOver: bool
    var lastUserChoice: Option<int>
    var lastCompChoice: Option<int>
    var bestScore: int
    var overlayVisible: bool
    var pending: seq<Continuation>
    var history: seq<HistoryEntry>

    /** The record the fields currently hold. */
    function Snapshot(): State
      reads this
    {
      State(phase, started, inputLocked, userBattingFirst, innings, userScore, compScore,
            target, balls, gameOver, lastUserChoice, lastCompChoice, bestScore,
            overlayVisible, pending, history)
    }

    ghost predicate Valid()
      reads this
    {
      Consistent(Snapshot())
    }

    /** Page load, with the best score and history read from storage. */
    constructor (storedBest: int, storedHistory: seq<HistoryEntry>)
      ensures Snapshot() == Initial(storedBest, storedHistory)
      ensures Valid()
    {
      phase, started, inputLocked, userBattingFirst := Lobby, false, false, true;
      innings, userScore, compScore, target, balls := 1, 0, 0, None, 0;
      gameOver, lastUserChoice, lastCompChoice := false, None, None;
      bestScore, overlayVisible, pending, history := storedBest, false, [], storedHistory;
    }

    method ClearTimers()
      modifies this
      ensures Snapshot() == Machine.ClearTimers(old(Snapshot()))
    {
      pending := [];
    }

    method Schedule(k: Continuation)
      modifies this
      ensures Snapshot() == Machine.Schedule(old(Snapshot()), k)
    {
      pending := pending + [k];
    }

    method SaveHistory(entry: HistoryEntry)
      modifies this
      ensures Snapshot() == old(Snapshot()).(history := SavedHistory(old(history), entry))
    {
      var all := [entry] + history;
      history := all[..if |all| < HistoryLimit then |all| else HistoryLimit];
    }

    method ResetForRoleSelect()
      modifies this
      ensures Snapshot() == Machine.ResetForRoleSelect(old(Snapshot()))
    {
      ClearTimers();
      started := false;
      gameOver := false;
      inputLocked := false;
      lastUserChoice := None;
      lastCompChoice := None;
      overlayVisible := false;
    }

    method OpenRoleSelect()
      requires Valid()
      modifies this
      ensures Snapshot() == Machine.OpenRoleSelect(old(Snapshot()))
      ensures Valid()
    {
      ghost var s0 := Snapshot();
      ResetForRoleSelect();
      phase := RoleSelect;
      StepPreserves(s0, StartButton);
    }

    method GoHome()
      requires Valid()
      modifies this
      ensures Snapshot() == Machine.GoHome(old(Snapshot()))
      ensures Valid()
    {
      ghost var s0 := Snapshot();
      ResetForRoleSelect();
      phase := Lobby;
      StepPreserves(s0, HomeButton);
    }

    method BackToLobby()
      requires Valid()
      modifies this
      ensures Snapshot() == Machine.BackToLobby(old(Snapshot()))
      ensures Valid()
    {
      ghost var s0 := Snapshot();
      phase := Lobby;
      StepPreserves(s0, RoleBack);
    }

    method StartMatch(userBatsFirst: bool)
      requires Valid()
      modifies this
      ensures Snapshot() == Machine.StartMatch(old(Snapshot()), userBatsFirst)
      ensures Valid()
    {
      ghost var s0 := Snapshot();
      ClearTimers();
      StartFlags(userBatsFirst);
      ResetScores();
      overlayVisible := false;
      phase := Game;
      StartMatchConsistent(s0, userBatsFirst);
    }

    /** The flags a new match starts with. */
    method StartFlags(userBatsFirst: bool)
      modifies this
      ensures Snapshot() == old(Snapshot()).(
        started := true, inputLocked := false, userBattingFirst := userBatsFirst,
        gameOver := false, lastUserChoice := None, lastCompChoice := None)
    {
      started, inputLocked, userBattingFirst := true, false, userBatsFirst;
      gameOver, lastUserChoice, lastCompChoice := false, None, None;
    }

    /** The first innings, with no runs, no target and no balls. */
    method ResetScores()
      modifies this
      ensures Snapshot() == old(Snapshot()).(
        innings := 1, userScore := 0, compScore := 0, target := None, balls := 0)
    {
      innings, userScore, compScore, target, balls := 1, 0, 0, None, 0;
    }

    /** A run picked by the user; `draw` is the random word the computer's
        run is taken from. */
    method PlayBall(userChoice: int, draw: nat)
      requires Valid() && IsRun(userChoice)
      modifies this
      ensures Snapshot() == Machine.PlayBall(old(Snapshot()), userChoice, draw)
      ensures Valid()
    {
      ghost var s0 := Snapshot();
      if !started || gameOver || inputLocked {
        StepPreserves(s0, Ball(userChoice, draw));
        return;
      }
      var compChoice := RandomRun(draw);
      RecordBall(userChoice, compChoice);
      Schedule(Reveal(userChoice, compChoice));
      StepPreserves(s0, Ball(userChoice, draw));
    }

    /** Both runs are shown, one more ball is counted and input locks until
        the reveal. */
    method RecordBall(userChoice: int, compChoice: int)
      modifies this
      ensures Snapshot() == old(Snapshot()).(
        lastUserChoice := Some(userChoice), lastCompChoice := Some(compChoice),
        balls := old(balls) + 1, inputLocked := true)
    {
      lastUserChoice := Some(userChoice);
      lastCompChoice := Some(compChoice);
      balls := balls + 1;
      inputLocked := true;
    }

    method FinalizeMatch(now: string)
      modifies this
      ensures Snapshot() == Machine.FinalizeMatch(old(Snapshot()), now)
    {
      ghost var s0 := Snapshot();
      gameOver := true;
      started := false;
      inputLocked := true;
      var result := Classify(userScore, compScore);
      if userScore > bestScore {
        bestScore := userScore;
      }
      assert Snapshot() == s0.(gameOver := true, started := false, inputLocked := true,
                               bestScore := NextBest(s0.bestScore, s0.userScore));
      SaveHistory(HistoryEntry(now, userScore, compScore, result, userBattingFirst));
      phase := Result;
    }

    method BeginSecondInnings()
      modifies this
      ensures Snapshot() == Machine.BeginSecondInnings(old(Snapshot()))
    {
      innings := 2;
      balls := 0;
      target := Some((if userBattingFirst then userScore else compScore) + 1);
      inputLocked := false;
      overlayVisible := false;
    }

    method SwitchInnings(now: string)
      modifies this
      ensures Snapshot() == Machine.SwitchInnings(old(Snapshot()), now)
    {
      if innings == 1 {
        inputLocked := true;
        overlayVisible := true;
        Schedule(SecondInnings);
        return;
      }
      FinalizeMatch(now);
    }

    method ApplyBallResult(userChoice: int, compChoice: int, now: string)
      modifies this
      ensures Snapshot() == Machine.ApplyBallResult(old(Snapshot()), userChoice, compChoice, now)
    {
      var userBatting := UserBatting(innings, userBattingFirst);
      if compChoice == userChoice {
        SwitchInnings(now);
        return;
      }
      if userBatting {
        userScore := userScore + userChoice;
      } else {
        compScore := compScore + compChoice;
      }
      if ShouldChaseEnd(innings, target, userBattingFirst, userScore, compScore) {
        FinalizeMatch(now);
      }
    }

    method UnlockInputAfterReveal()
      modifies this
      ensures Snapshot() == Machine.UnlockInputAfterReveal(old(Snapshot()))
    {
      if gameOver || !started {
        return;
      }
      if innings == 1 || overlayVisible {
        inputLocked := false;
      }
    }

    /** The timer of the i-th pending continuation fires at time `now`. */
    method Fire(i: nat, now: string)
      requires Valid() && i < |pending|
      modifies this
      ensures Snapshot() == Machine.Fire(old(Snapshot()), i, now)
      ensures Valid()
    {
      ghost var s0 := Snapshot();
      var k := pending[i];
      pending := pending[..i] + pending[i + 1..];
      assert Snapshot() == s0.(pending := Without(s0.pending, i));
      match k {
        case Reveal(u, c) =>
          ApplyBallResult(u, c, now);
          UnlockInputAfterReveal();
        case SecondInnings =>
          BeginSecondInnings();
      }
      FirePreserves(s0, i, now);
    }
  }
}
