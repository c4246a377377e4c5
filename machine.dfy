/** The match engine as a state machine over one record, the game state.
    Each function below is one function of the engine, taking the state
    before and giving the state after; the class in module Engine performs
    the same transitions by updating its fields in place. */
module Machine {
  import opened Rules

  /** The screen the engine is on. */
  datatype Phase = Lobby | RoleSelect | Game | Result

  /** A continuation waiting on a timer. */
  datatype Continuation =
    | Reveal(userChoice: int, compChoice: int)  // shows the computer's run and resolves the ball
    | SecondInnings                             // ends the innings break

  datatype HistoryEntry = HistoryEntry(date: string, userScore: int, compScore: int,
                                       result: Outcome, userBatFirst: bool)

  /** The game state record. `overlayVisible` is the negation of the
      innings overlay's `hidden` flag; `pending` lists the continuations
      whose timers have not fired, in the order they were scheduled;
      `bestScore` and `history` are the stored values. */
  datatype State = State(
    phase: Phase,
    started: bool,
    inputLocked: bool,
    userBattingFirst: bool,
    innings: int,
    userScore: int,
    compScore: int,
    target: Option<int>,
    balls: int,
    gameOver: bool,
    lastUserChoice: Option<int>,
    lastCompChoice: Option<int>,
    bestScore: int,
    overlayVisible: bool,
    pending: seq<Continuation>,
    history: seq<HistoryEntry>)

  /** A run the user can pick, and the computer can draw. */
  predicate IsRun(x: int) { 1 <= x <= 6 }

  function FirstBattingScore(s: State): int
  {
    if s.userBattingFirst then s.userScore else s.compScore
  }

  function SecondBattingScore(s: State): int
  {
    ChasingScore(s.userBattingFirst, s.userScore, s.compScore)
  }

  /** The facts every reachable state satisfies. */
  ghost predicate Consistent(s: State)
  {
    && (s.innings == 1 || s.innings == 2)
    && s.userScore >= 0 && s.compScore >= 0 && s.balls >= 0
    // no target in the first innings; in the second it is the first
    // batting side's score plus one, and that score no longer changes
    && (s.innings == 1 <==> s.target.None?)
    && (s.innings == 1 ==> SecondBattingScore(s) == 0)
    && (s.innings == 2 ==> s.target == Some(FirstBattingScore(s) + 1))
    // once the chase is complete no ball is accepted any more
    && (s.innings == 2 && SecondBattingScore(s) >= s.target.value ==> s.gameOver || !s.started)
    && !(s.gameOver && s.started)
    && (s.phase == Game ==> !s.gameOver)
    // the innings overlay shows only in the first innings, while the
    // continuation that ends the break is pending
    && (s.overlayVisible ==> s.innings == 1 && SecondInnings in s.pending)
    && (s.lastUserChoice.Some? <==> s.lastCompChoice.Some?)
    && (s.lastUserChoice.Some? ==> IsRun(s.lastUserChoice.value) && IsRun(s.lastCompChoice.value))
    && (forall k :: 0 <= k < |s.pending| && s.pending[k].Reveal? ==>
          IsRun(s.pending[k].userChoice) && IsRun(s.pending[k].compChoice))
  }

  /** The state when the page loads, given the stored best score and history. */
  function Initial(bestScore: int, history: seq<HistoryEntry>): (s: State)
    ensures Consistent(s)
    ensures s.phase == Lobby && !s.started && s.pending == []
  {
    State(Lobby, false, false, true, 1, 0, 0, None, 0, false, None, None,
          bestScore, false, [], history)
  }

  function ClearTimers(s: State): State
  {
    s.(pending := [])
  }

  function Schedule(s: State, k: Continuation): State
  {
    s.(pending := s.pending + [k])
  }

  function ResetForRoleSelect(s: State): State
  {
    ClearTimers(s).(started := false, gameOver := false, inputLocked := false,
                    lastUserChoice := None, lastCompChoice := None, overlayVisible := false)
  }

  /** The start and play-again buttons: reset, then show role selection. */
  function OpenRoleSelect(s: State): State
  {
    ResetForRoleSelect(s).(phase := RoleSelect)
  }

  /** The home button: reset, then show the lobby. */
  function GoHome(s: State): State
  {
    ResetForRoleSelect(s).(phase := Lobby)
  }

  /** The back button of role selection. */
  function BackToLobby(s: State): State
  {
    s.(phase := Lobby)
  }

  function StartMatch(s: State, userBattingFirst: bool): State
  {
    ClearTimers(s).(started := true, inputLocked := false, userBattingFirst := userBattingFirst,
                    innings := 1, userScore := 0, compScore := 0, target := None, balls := 0,
                    gameOver := false, lastUserChoice := None, lastCompChoice := None,
                    overlayVisible := false, phase := Game)
  }

  /** The guard under which a ball is accepted. */
  predicate AcceptsBall(s: State)
  {
    s.started && !s.gameOver && !s.inputLocked
  }

  function PlayBall(s: State, userChoice: int, draw: nat): State
  {
    if !AcceptsBall(s) then s
    else
      var compChoice := RandomRun(draw);
      Schedule(s.(lastUserChoice := Some(userChoice), lastCompChoice := Some(compChoice),
                  balls := s.balls + 1, inputLocked := true),
               Reveal(userChoice, compChoice))
  }

  function FinalizeMatch(s: State, now: string): State
  {
    var result := Classify(s.userScore, s.compScore);
    s.(gameOver := true, started := false, inputLocked := true,
       bestScore := NextBest(s.bestScore, s.userScore),
       history := SavedHistory(s.history, HistoryEntry(now, s.userScore, s.compScore,
                                                       result, s.userBattingFirst)),
       phase := Result)
  }

  function BeginSecondInnings(s: State): State
  {
    s.(innings := 2, balls := 0, target := Some(FirstBattingScore(s) + 1),
       inputLocked := false, overlayVisible := false)
  }

  function SwitchInnings(s: State, now: string): State
  {
    if s.innings == 1 then
      Schedule(s.(inputLocked := true, overlayVisible := true), SecondInnings)
    else
      FinalizeMatch(s, now)
  }

  /** The state after the batting side scores, before the chase test. */
  function AddRuns(s: State, userChoice: int, compChoice: int): State
  {
    if UserBatting(s.innings, s.userBattingFirst) then s.(userScore := s.userScore + userChoice)
    else s.(compScore := s.compScore + compChoice)
  }

  function ApplyBallResult(s: State, userChoice: int, compChoice: int, now: string): State
  {
    if compChoice == userChoice then SwitchInnings(s, now)
    else
      var t := AddRuns(s, userChoice, compChoice);
      if ShouldChaseEnd(t.innings, t.target, t.userBattingFirst, t.userScore, t.compScore)
      then FinalizeMatch(t, now)
      else t
  }

  function UnlockInputAfterReveal(s: State): State
  {
    if s.gameOver || !s.started then s
    else if s.innings == 1 || s.overlayVisible then s.(inputLocked := false)
    else s
  }

  /** Runs a continuation whose timer has fired. */
  function Resolve(s: State, k: Continuation, now: string): State
  {
    match k
    case Reveal(u, c) => UnlockInputAfterReveal(ApplyBallResult(s, u, c, now))
    case SecondInnings => BeginSecondInnings(s)
  }

  function Without<T>(q: seq<T>, i: nat): seq<T>
    requires i < |q|
  {
    q[..i] + q[i + 1..]
  }

  /** The timer of the i-th pending continuation fires: it leaves the
      pending list, then runs. */
  function Fire(s: State, i: nat, now: string): State
    requires i < |s.pending|
  {
    Resolve(s.(pending := Without(s.pending, i)), s.pending[i], now)
  }

  /** Everything that can happen to the engine. */
  datatype Event =
    | StartButton                      // start, or play again
    | HomeButton
    | RoleBack
    | ChooseRole(userBatsFirst: bool)  // bat first, or bowl first
    | Ball(userChoice: int, draw: nat) // a run picked by key or button
    | Timer(index: nat, now: string)   // a pending timer fires at time `now`

  /** Buttons and keys only offer the runs 1 to 6, and only a pending
      timer can fire. */
  predicate Enabled(s: State, e: Event)
  {
    match e
    case Ball(u, _) => IsRun(u)
    case Timer(i, _) => i < |s.pending|
    case _ => true
  }

  function Step(s: State, e: Event): State
    requires Enabled(s, e)
  {
    match e
    case StartButton => OpenRoleSelect(s)
    case HomeButton => GoHome(s)
    case RoleBack => BackToLobby(s)
    case ChooseRole(b) => StartMatch(s, b)
    case Ball(u, draw) => PlayBall(s, u, draw)
    case Timer(i, now) => Fire(s, i, now)
  }

  // ---------------------------------------------------------------------
  // Properties of single operations
  // ---------------------------------------------------------------------

  /** Starting a match drops every pending continuation and begins the
      first innings from nothing, keeping the stored values. */
  lemma StartMatchResets(s: State, userBattingFirst: bool)
    ensures var r := StartMatch(s, userBattingFirst);
      && r.pending == [] && r.started && !r.inputLocked && !r.gameOver
      && r.userBattingFirst == userBattingFirst && r.innings == 1
      && r.userScore == 0 && r.compScore == 0 && r.target == None && r.balls == 0
      && r.lastUserChoice == None && r.lastCompChoice == None && !r.overlayVisible
      && r.phase == Game && r.bestScore == s.bestScore && r.history == s.history
  {
  }

  /** A freshly started match is consistent, whatever came before. */
  lemma StartMatchConsistent(s: State, userBattingFirst: bool)
    ensures Consistent(StartMatch(s, userBattingFirst))
  {
    StartMatchResets(s, userBattingFirst);
  }

  /** Going back to role selection or to the lobby drops every pending
      continuation, so a stale reveal or innings break never runs, and
      leaves no match in play. */
  lemma ResetDropsTimers(s: State)
    ensures OpenRoleSelect(s).pending == [] && GoHome(s).pending == []
    ensures !OpenRoleSelect(s).started && !GoHome(s).started
    ensures !OpenRoleSelect(s).gameOver && !GoHome(s).gameOver
    ensures OpenRoleSelect(s).phase == RoleSelect && GoHome(s).phase == Lobby
  {
  }

  /** A ball is accepted exactly when the match is started, not over and
      input is unlocked; a rejected ball changes nothing, an accepted one
      counts one ball, records both runs, locks input and leaves one
      reveal pending behind the earlier continuations. */
  lemma PlayBallGuard(s: State, userChoice: int, draw: nat)
    ensures PlayBall(s, userChoice, draw) == s <==> !AcceptsBall(s)
    ensures AcceptsBall(s) ==> var r := PlayBall(s, userChoice, draw);
      && r.balls == s.balls + 1
      && r.lastUserChoice == Some(userChoice) && r.lastCompChoice == Some(RandomRun(draw))
      && r.inputLocked
      && r.pending == s.pending + [Reveal(userChoice, RandomRun(draw))]
      && r.userScore == s.userScore && r.compScore == s.compScore
      && r.innings == s.innings && r.target == s.target && r.gameOver == s.gameOver
  {
  }

  /** When both sides pick the same run the batting side is out and no
      score moves. In the first innings input is locked, the overlay shows
      and the innings break is scheduled; otherwise the match is finished,
      with the result, best score and history FinalizeMatchResult states. */
  lemma DismissalRule(s: State, run: int, now: string)
    ensures var r := ApplyBallResult(s, run, run, now);
      && r.userScore == s.userScore && r.compScore == s.compScore
      && r.innings == s.innings && r.target == s.target && r.balls == s.balls
      && (s.innings == 1 ==> r.inputLocked && r.overlayVisible && r.gameOver == s.gameOver
                             && r.pending == s.pending + [SecondInnings])
      && (s.innings != 1 ==> r == FinalizeMatch(s, now) && r.gameOver && r.phase == Result
                             && r.pending == s.pending)
  {
  }

  /** When the runs differ the batting side scores its own run and the
      other score stays as it was. */
  lemma ScoringRule(s: State, userChoice: int, compChoice: int, now: string)
    requires userChoice != compChoice
    ensures var r := ApplyBallResult(s, userChoice, compChoice, now);
      && (UserBatting(s.innings, s.userBattingFirst) ==>
            r.userScore == s.userScore + userChoice && r.compScore == s.compScore)
      && (!UserBatting(s.innings, s.userBattingFirst) ==>
            r.compScore == s.compScore + compChoice && r.userScore == s.userScore)
      && r.innings == s.innings && r.target == s.target && r.pending == s.pending
  {
  }

  /** In the second innings a scoring ball ends the match exactly when the
      chasing side reaches the target, without waiting for a dismissal. */
  lemma ChaseEndsMatch(s: State, userChoice: int, compChoice: int, now: string)
    requires Consistent(s) && s.innings == 2 && !s.gameOver
    requires userChoice != compChoice
    ensures var r := ApplyBallResult(s, userChoice, compChoice, now);
      && (r.gameOver <==> SecondBattingScore(r) >= s.target.value)
      && (r.gameOver ==> !r.started && r.inputLocked && r.phase == Result)
  {
  }

  /** The chase never ends a first-innings ball, nor one without a target. */
  lemma NoChaseInFirstInnings(s: State, userChoice: int, compChoice: int, now: string)
    requires s.innings == 1 || s.target.None?
    requires userChoice != compChoice && !s.gameOver
    ensures !ApplyBallResult(s, userChoice, compChoice, now).gameOver
  {
  }

  /** The second innings begins with no balls, input open, the overlay
      hidden and the target one more than the first batting side's score
      at the moment the break ends. */
  lemma SecondInningsTarget(s: State)
    ensures var r := BeginSecondInnings(s);
      && r.innings == 2 && r.balls == 0 && !r.inputLocked && !r.overlayVisible
      && r.target == Some((if s.userBattingFirst then s.userScore else s.compScore) + 1)
      && r.userScore == s.userScore && r.compScore == s.compScore
  {
  }

  /** Finishing a match ends play, classifies the result, keeps the best
      score as the larger of the old best and the user's score, and puts
      the match at the head of a history of at most ten entries. */
  lemma FinalizeMatchResult(s: State, now: string)
    ensures var r := FinalizeMatch(s, now);
      && r.gameOver && !r.started && r.inputLocked && r.phase == Result
      && r.userScore == s.userScore && r.compScore == s.compScore
      && r.bestScore >= s.bestScore && r.bestScore >= s.userScore
      && (r.bestScore == s.bestScore || r.bestScore == s.userScore)
      && 1 <= |r.history| <= HistoryLimit
      && r.history[0].userScore == s.userScore && r.history[0].compScore == s.compScore
      && r.history[0].userBatFirst == s.userBattingFirst && r.history[0].date == now
      && (r.history[0].result == Win <==> s.userScore > s.compScore)
      && (r.history[0].result == Loss <==> s.userScore < s.compScore)
      && (r.history[0].result == Tie <==> s.userScore == s.compScore)
      && (forall k :: 1 <= k < |r.history| ==> r.history[k] == s.history[k - 1])
  {
  }

  /** After a reveal, input is reopened only for a live match that is in
      its first innings or shows the overlay; nothing else changes. */
  lemma UnlockAsWritten(s: State)
    ensures var r := UnlockInputAfterReveal(s);
      && r == s.(inputLocked := r.inputLocked)
      && (r.inputLocked <==>
            s.inputLocked && (s.gameOver || !s.started || (s.innings != 1 && !s.overlayVisible)))
  {
  }

  /** Consequently a reveal in the second innings never reopens input:
      once its overlay is gone, a second-innings ball that neither ends nor
      breaks the match leaves input locked. */
  lemma SecondInningsRevealKeepsLock(s: State)
    requires Consistent(s) && s.innings == 2
    ensures UnlockInputAfterReveal(s) == s
  {
  }

  /** The innings break reopens input: a first-innings dismissal in a live
      match leaves input unlocked while the overlay shows. */
  lemma BreakLeavesInputOpen(s: State, run: int, now: string)
    requires s.innings == 1 && s.started && !s.gameOver
    ensures var r := Resolve(s, Reveal(run, run), now);
      && r.overlayVisible && !r.inputLocked && SecondInnings in r.pending
  {
    assert ApplyBallResult(s, run, run, now).pending == s.pending + [SecondInnings];
  }

  /** Once the chase is complete, no ball is accepted. */
  lemma ChaseReachedBlocksBalls(s: State, userChoice: int, draw: nat)
    requires Consistent(s) && s.innings == 2 && SecondBattingScore(s) >= s.target.value
    ensures PlayBall(s, userChoice, draw) == s
  {
  }

  // ---------------------------------------------------------------------
  // The invariant and what it gives over whole runs
  // ---------------------------------------------------------------------

  lemma WithoutKeeps<T>(q: seq<T>, i: nat, x: T)
    requires i < |q| && x in q && q[i] != x
    ensures x in Without(q, i)
  {
    var j :| 0 <= j < |q| && q[j] == x;
    if j < i {
      assert Without(q, i)[j] == x;
    } else {
      assert Without(q, i)[j - 1] == x;
    }
  }

  lemma WithoutElements<T>(q: seq<T>, i: nat)
    requires i < |q|
    ensures |Without(q, i)| == |q| - 1
    ensures forall k :: 0 <= k < |Without(q, i)| ==>
      Without(q, i)[k] == if k < i then q[k] else q[k + 1]
  {
  }

  /** A dismissal in the first innings starts the break. */
  lemma BreakPreserves(s: State, now: string)
    requires Consistent(s) && s.innings == 1
    ensures Consistent(SwitchInnings(s, now))
  {
    var r := SwitchInnings(s, now);
    assert r.pending == s.pending + [SecondInnings];
    assert r.pending[|s.pending|] == SecondInnings;
    assert forall k :: 0 <= k < |r.pending| && r.pending[k].Reveal? ==> k < |s.pending|;
  }

  /** Finishing a match keeps the invariant, even from a state whose chase
      is complete but which is still started. */
  lemma FinalizePreserves(s: State, now: string)
    requires Consistent(s.(started := false))
    ensures Consistent(FinalizeMatch(s, now))
  {
  }

  /** A scoring ball keeps the invariant. */
  lemma ScoringPreserves(s: State, u: int, c: int, now: string)
    requires Consistent(s) && IsRun(u) && IsRun(c) && c != u
    ensures Consistent(ApplyBallResult(s, u, c, now))
  {
    var t := AddRuns(s, u, c);
    assert t.innings == 2 ==> FirstBattingScore(t) == FirstBattingScore(s);
    if ShouldChaseEnd(t.innings, t.target, t.userBattingFirst, t.userScore, t.compScore) {
      FinalizePreserves(t, now);
    }
  }

  lemma ApplyBallPreserves(s: State, u: int, c: int, now: string)
    requires Consistent(s) && IsRun(u) && IsRun(c)
    ensures Consistent(ApplyBallResult(s, u, c, now))
  {
    if c != u {
      ScoringPreserves(s, u, c, now);
    } else if s.innings == 1 {
      BreakPreserves(s, now);
    } else {
      FinalizePreserves(s, now);
    }
  }

  /** Taking a continuation other than the break's end off the list keeps
      the invariant. */
  lemma DropPreserves(s: State, i: nat)
    requires Consistent(s) && i < |s.pending| && s.pending[i] != SecondInnings
    ensures Consistent(s.(pending := Without(s.pending, i)))
  {
    WithoutElements(s.pending, i);
    if s.overlayVisible {
      WithoutKeeps(s.pending, i, SecondInnings);
    }
  }

  /** The end of the break keeps the invariant. */
  lemma BreakEndPreserves(s: State, i: nat, now: string)
    requires Consistent(s) && i < |s.pending| && s.pending[i] == SecondInnings
    ensures Consistent(Fire(s, i, now))
  {
    WithoutElements(s.pending, i);
  }

  lemma FirePreserves(s: State, i: nat, now: string)
    requires Consistent(s) && i < |s.pending|
    ensures Consistent(Fire(s, i, now))
  {
    match s.pending[i]
    case Reveal(u, c) =>
      var t := s.(pending := Without(s.pending, i));
      DropPreserves(s, i);
      ApplyBallPreserves(t, u, c, now);
    case SecondInnings =>
      BreakEndPreserves(s, i, now);
  }

  /** Every event keeps the engine consistent. */
  lemma StepPreserves(s: State, e: Event)
    requires Consistent(s) && Enabled(s, e)
    ensures Consistent(Step(s, e))
  {
    match e
    case Timer(i, now) => FirePreserves(s, i, now);
    case Ball(u, draw) =>
      var r := PlayBall(s, u, draw);
      if AcceptsBall(s) {
        assert forall k :: 0 <= k < |r.pending| && r.pending[k].Reveal? ==>
          (k < |s.pending| && r.pending[k] == s.pending[k]) || r.pending[k] == Reveal(u, RandomRun(draw));
      }
    case _ =>
  }

  /** Within a match nothing goes backwards: scores and the innings never
      decrease, the best score never decreases, the balls count drops only
      when an innings break ends, and a second-innings target stays fixed.
      Only choosing a role, which starts a new match, resets them. */
  lemma StepMonotone(s: State, e: Event)
    requires Consistent(s) && Enabled(s, e) && !e.ChooseRole?
    ensures var r := Step(s, e);
      && r.userScore >= s.userScore && r.compScore >= s.compScore
      && r.innings >= s.innings
      && r.bestScore >= s.bestScore
      && (r.balls < s.balls ==> e.Timer? && s.pending[e.index] == SecondInnings)
      && (s.innings == 2 ==> r.target == s.target)
  {
    match e
    case Timer(i, now) => FireMonotone(s, i, now);
    case Ball(u, draw) =>
    case _ =>
  }

  lemma FireMonotone(s: State, i: nat, now: string)
    requires Consistent(s) && i < |s.pending|
    ensures var r := Fire(s, i, now);
      && r.userScore >= s.userScore && r.compScore >= s.compScore
      && r.innings >= s.innings
      && r.bestScore >= s.bestScore
      && (r.balls < s.balls ==> s.pending[i] == SecondInnings)
      && (s.innings == 2 ==> r.target == s.target)
  {
    match s.pending[i]
    case Reveal(u, c) =>
      assert IsRun(u) && IsRun(c);
      ApplyBallMonotone(s.(pending := Without(s.pending, i)), u, c, now);
    case SecondInnings =>
  }

  /** The result of a ball never lowers a score or the best score, and
      leaves the innings, the balls count and the target alone. */
  lemma ApplyBallMonotone(s: State, u: int, c: int, now: string)
    requires IsRun(u) && IsRun(c)
    ensures var r := ApplyBallResult(s, u, c, now);
      && r.userScore >= s.userScore && r.compScore >= s.compScore
      && r.innings == s.innings && r.balls == s.balls && r.target == s.target
      && r.bestScore >= s.bestScore
  {
    if c != u {
      ScoringRule(s, u, c, now);
    }
  }

  /** The best score is never lowered, whatever happens. */
  lemma BestScoreNeverDecreases(s: State, e: Event)
    requires Enabled(s, e)
    ensures Step(s, e).bestScore >= s.bestScore
  {
    match e
    case Timer(i, now) =>
      var t := s.(pending := Without(s.pending, i));
      match s.pending[i] {
        case Reveal(u, c) =>
          ApplyBallKeepsBest(t, u, c, now);
          assert Fire(s, i, now).bestScore == ApplyBallResult(t, u, c, now).bestScore;
        case SecondInnings =>
      }
    case _ =>
  }

  lemma ApplyBallKeepsBest(s: State, u: int, c: int, now: string)
    ensures ApplyBallResult(s, u, c, now).bestScore >= s.bestScore
  {
    if c != u {
      var t := AddRuns(s, u, c);
      assert t.bestScore == s.bestScore;
    }
  }
}
