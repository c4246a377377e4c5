# Hand-cricket match engine

A Dafny model of the match engine of the browser hand-cricket game in
`script.js`. The user and the computer each pick a run from 1 to 6. When
the picks are equal the batting side is out. Otherwise the batting side
scores its own pick. The first dismissal starts an innings break, after
which the second innings begins with a target. The match ends on a second
dismissal, or as soon as the chasing side reaches the target. A finished
match is classified as a win, loss or tie, the best score is raised if the
user beat it, and the match is put at the head of a history capped at ten
entries.

The model has four modules:

- `Rules` (rules.dfy): the pure pieces. These are the computer's draw
  `x % 6 + 1`, which side bats, the chase test, the runs still needed, the
  classification, the best score and the capped history.
- `Machine` (machine.dfy): the `gameState` record as a datatype `State`.
  There is one pure function per engine function, plus an `Event`/`Step`
  view of everything that can happen to the engine. It also holds the
  invariant `Consistent` and the lemmas about all of these.
- `Engine` (engine.dfy): the class `GameState`, whose fields are those of
  the record. Its methods update the fields in place, as the source does.
  Each method is proved to move the object exactly as the matching
  `Machine` function moves the record, and the public methods keep
  `Consistent`.
- `Scenarios` (scenarios.dfy): concrete matches played through the object.

Timers are modelled as a list of pending continuations. A continuation is
either the reveal of a ball or the end of the innings break. `Fire(i)`
runs the i-th one after removing it from the list, as the `schedule`
wrapper does. Any pending continuation may fire next, so the model covers
every order the 220 ms and 1800 ms delays allow, and more.
`clearTimers` empties the list.

### Behaviour of the code as written

The engine is modelled as written, including the following behaviour:

- `unlockInputAfterReveal` (script.js:436-442) reopens input in the first
  innings even while the innings overlay shows (`BreakLeavesInputOpen`).
  In the second innings it never reopens input
  (`SecondInningsRevealKeepsLock`). Suppose no other continuation is
  pending after the first ball of a chase that neither ends the match nor
  takes a wicket. Then the match is still started and not over, but input
  stays locked and nothing is pending, so every later ball is refused
  (`SecondInningsStalls`, `ChaseRunShort`).
- A ball played during the innings break is resolved when its reveal
  fires, and `applyBallResult` picks the batting side at that moment
  (script.js:401). If the reveal fires before the break ends, the ball
  counts for the first innings. The target is computed when the break ends
  (script.js:356), so it includes those runs (`RunsDuringBreak`). If the
  reveal fires after the break ends, the ball is resolved in the second
  innings for the chasing side. It is not counted in the balls, which the
  break's end has reset to 0 (`BreakBallInChase`).
- A second wicket during the break reaches `switchInnings` with the innings
  still 1 (script.js:377-383), so a second break end is scheduled
  (`SecondWicketInBreak`). The first break end starts the chase. A short
  chase ball then locks input with the second break end still pending.
  When that fires it resets the balls count to 0 again and reopens input in
  the middle of the chase, keeping the target (`DoubleBreak`).
- Two reveals can be pending at once, and `applyBallResult` does not check
  `gameOver`. So one match can be finished, and stored in the history,
  twice (`MatchStoredTwice`).
- Even so, once the second innings has begun, its target is always the
  first batting side's score plus one. That score does not change after
  the innings starts. Once the chase is complete, no ball is accepted
  (`Consistent`, `StepPreserves`, `ChaseReachedBlocksBalls`).
- `randomRun` maps a 32-bit word to `x % 6 + 1`. Over all 2^32 words the
  runs 1 to 4 come up once more than 5 and 6 (`RandomRunBias`).

The code has no input validation error and no turn token. `playBall`
trusts its callers, which only pass 1 to 6 (script.js:474-483). A reset
drops stale continuations by clearing the timers. The model follows the
code.

## Model

Some members are reached only through the rows below:
- `Rules.ShouldChaseEnd` is `shouldChaseEnd` (script.js:390-398).
- `Machine.ClearTimers`, `Schedule`, `ResetForRoleSelect`, `StartMatch`, `PlayBall`, `FinalizeMatch`, `BeginSecondInnings`, `SwitchInnings`, `ApplyBallResult` and `UnlockInputAfterReveal` are the functions of the same names (script.js:124-135, 260-467).
- `Machine.Fire` is the `schedule` wrapper firing (script.js:129-135), and `Machine.Step` is the event handlers (script.js:474-529).
- `Machine.Consistent` is the invariant that `StepPreserves` states.


| member | source | states |
|---|---|---|
| `Rules.RandomRun` | script.js:90-93 | the computer's run is between 1 and 6 |
| `Rules.FaceCountFormula` | script.js:92 | over the first n words each run comes up n / 6 times, and the n % 6 lowest runs once more |
| `Rules.RandomRunBias` | script.js:90-93 | over all 2^32 words the runs 1 to 4 come up 715827883 times and the runs 5 and 6 come up 715827882 times, so the draw is not exactly fair |
| `Rules.UserBatting` | script.js:143-146 | the user bats in the first innings iff batting first, in the second iff not, and in no other innings |
| `Rules.ChasingScore` | script.js:231 | the chasing score is the score of the side that bats in the second innings |
| `Rules.RunsNeeded` | script.js:232 | the runs needed are the larger of 0 and target minus chasing score |
| `Rules.ChaseEndIffNothingNeeded` | script.js:390-398 | the chase test holds iff it is the second innings, a non-zero target is set and the chasing side needs no more runs |
| `Rules.Classify` | script.js:314-326 | the result is a win iff the user scored more, a loss iff less, and a tie iff equal |
| `Rules.NextBest` | script.js:328-331 | the new best is at least the old best and at least the user's score, and is one of the two |
| `Rules.SavedHistory` | script.js:118-122 | the new entry is at index 0 and the earlier entries follow in order; the length is one more than before, at most 10 |
| `Rules.SaveAllNewestFirst` | script.js:118-122 | after any run of saves the history has at most 10 entries, newest first |
| `Machine.Initial` | script.js:68-84 | the state at page load is in the lobby with no match started and no timers, and satisfies the invariant |
| `Machine.StartMatchResets` | script.js:278-306 | starting a match drops all pending continuations and sets innings 1, both scores 0, no target, 0 balls, not over, input unlocked, started, phase game; stored values are kept |
| `Machine.ResetDropsTimers` | script.js:260-276 | going back to role selection or to the lobby drops all pending continuations and leaves no match started or over |
| `Machine.PlayBallGuard` | script.js:444-467 | a ball changes nothing iff the match is not started, is over or input is locked; an accepted ball adds exactly 1 ball, records both runs, locks input and adds one reveal to the pending list, without touching scores, innings or target |
| `Machine.DismissalRule` | script.js:400-412 | on equal picks neither score changes; in the first innings input is locked, the overlay shows and the innings break is scheduled; otherwise the result is exactly the finished match of `FinalizeMatch`, with the result, best score and history entry `FinalizeMatchResult` states |
| `Machine.ScoringRule` | script.js:414-422 | on different picks the batting side's score rises by its own pick and the other score is unchanged |
| `Machine.ChaseEndsMatch` | script.js:426-428 | in the second innings a scoring ball ends the match iff the chasing side reaches the target; a finished match is not started, input is locked and the phase is result |
| `Machine.NoChaseInFirstInnings` | script.js:390-391 | a scoring ball never ends the match in the first innings or without a target |
| `Machine.SecondInningsTarget` | script.js:353-357 | the second innings begins at 0 balls with input unlocked, the overlay hidden and the target one more than the first batting side's score at that moment |
| `Machine.FinalizeMatchResult` | script.js:308-339 | finishing sets over, not started, input locked, phase result; the best score becomes the larger of the old best and the user's score; history gets the classified match at index 0, keeps the older entries after it and has at most 10 entries |
| `Machine.UnlockAsWritten` | script.js:436-442 | after a reveal only the input lock changes; it stays locked iff it was locked and the match is over, not started, or in a later innings with the overlay hidden |
| `Machine.SecondInningsRevealKeepsLock` | script.js:438 | in a consistent second-innings state the reveal's unlock step changes nothing |
| `Machine.BreakLeavesInputOpen` | script.js:374-384 | a first-innings dismissal in a live match shows the overlay, schedules the break's end and leaves input unlocked |
| `Machine.ChaseReachedBlocksBalls` | script.js:445 | once the chasing side has reached the target, every ball is refused |
| `Machine.StepPreserves` | script.js:278-467 | every button, ball and timer keeps the invariant: innings 1 or 2; no target in innings 1; in innings 2 the target is the first batting side's score + 1; a complete chase accepts no ball; over implies not started; the overlay implies a pending break end; pending runs are 1 to 6 |
| `Machine.StepMonotone` | script.js:400-429 | except when a new match starts, scores, innings and best score never decrease; balls drop only when a break ends; a second-innings target never changes |
| `Machine.BestScoreNeverDecreases` | script.js:328-331 | no event lowers the best score |
| `Engine.GameState.constructor` | script.js:68-84 | the object starts as the page-load state and is consistent |
| `Engine.GameState.ClearTimers` | script.js:124-127 | the pending list becomes empty and nothing else changes |
| `Engine.GameState.Schedule` | script.js:129-135 | the continuation is appended to the pending list and nothing else changes |
| `Engine.GameState.SaveHistory` | script.js:118-122 | the history becomes the saved history and nothing else changes |
| `Engine.GameState.ResetForRoleSelect` | script.js:260-276 | timers cleared; not started, not over, input unlocked, last picks cleared, overlay hidden; scores, innings and target kept |
| `Engine.GameState.OpenRoleSelect` | script.js:495-499 | reset, then phase role-select, keeping the invariant |
| `Engine.GameState.GoHome` | script.js:525-529 | reset, then phase lobby, keeping the invariant |
| `Engine.GameState.BackToLobby` | script.js:501 | only the phase changes, to lobby |
| `Engine.GameState.StartMatch` | script.js:278-306 | the object moves as `Machine.StartMatch`, whose effect `StartMatchResets` states, and stays consistent (`StartMatchConsistent`) |
| `Engine.GameState.StartFlags` | script.js:281-293 | the match is started, not over, input unlocked, the batting order set and no last picks; nothing else changes |
| `Engine.GameState.ResetScores` | script.js:281-293 | innings 1, both scores 0, no target and 0 balls; nothing else changes |
| `Engine.GameState.RecordBall` | script.js:447-455 | both picks are recorded, the balls count rises by one and input locks; nothing else changes |
| `Engine.GameState.PlayBall` | script.js:444-467 | the object moves as `Machine.PlayBall` (see `PlayBallGuard`) and stays consistent |
| `Engine.GameState.FinalizeMatch` | script.js:308-351 | the object moves as `Machine.FinalizeMatch` (see `FinalizeMatchResult`) |
| `Engine.GameState.BeginSecondInnings` | script.js:353-372 | the object moves as `Machine.BeginSecondInnings` (see `SecondInningsTarget`) |
| `Engine.GameState.SwitchInnings` | script.js:374-388 | in innings 1, input is locked, the overlay shows and the break's end is scheduled; otherwise the match is finished |
| `Engine.GameState.ApplyBallResult` | script.js:400-429 | the object moves as `Machine.ApplyBallResult` (see `DismissalRule`, `ScoringRule`, `ChaseEndsMatch`) |
| `Engine.GameState.UnlockInputAfterReveal` | script.js:436-442 | the object moves as `Machine.UnlockInputAfterReveal` (see `UnlockAsWritten`) |
| `Engine.GameState.Fire` | script.js:129-135 | the fired continuation leaves the pending list, then runs: a reveal applies the ball and the unlock step, a break end begins the second innings; the object stays consistent |
| `Scenarios.FirstInningsRun` | script.js:414-442 | in a live first innings a ball that is not a wicket, once revealed, adds one ball and the batting side's pick to its score and reopens input, with nothing left pending |
| `Scenarios.FirstInningsWicket` | script.js:374-384 | in a live first innings a wicket, once revealed, leaves scores alone, shows the overlay, leaves the break's end pending and input open |
| `Scenarios.EndBreak` | script.js:353-357 | when a break end is first in the pending list (alone or followed by a second one), firing it starts innings 2 at 0 balls with input open, the overlay hidden, the target one more than the first batting side's score, and only the second break end, if any, left pending |
| `Scenarios.ChaseRunShort` | script.js:436-442 | a second-innings ball that is not a wicket and leaves the chase short, once revealed, adds the chasing side's pick to its score and leaves the match on, the target unchanged and input locked; the pending list is as before, empty or holding a second break end |
| `Scenarios.SecondWicketInBreak` | script.js:374-384 | a wicket revealed during the break, with the innings still 1, schedules a second break end and leaves input open |
| `Scenarios.UserOutOnTwelve` | script.js:353-357 | batting first, 4, 4, 4 then out on ball 4 gives 12 runs, then innings 2 with 0 balls and target 13 |
| `Scenarios.ChaseWonMidInnings` | script.js:426-428 | bowling first, the computer is out on 4; the user's 6 wins at once; best score 6; the history head records the win |
| `Scenarios.BothOutForNothing` | script.js:314-326 | both sides out first ball gives a 0-0 tie, stored once |
| `Scenarios.SecondInningsStalls` | script.js:436-442 | with no other continuation pending, after one scoring chase ball the match is on but input is locked, nothing is pending, and the next ball is refused |
| `Scenarios.RunsDuringBreak` | script.js:353-357 | input is open during the break; 6 runs scored then make the target 7 |
| `Scenarios.MatchStoredTwice` | script.js:400-412 | two pending reveals that both take second-innings wickets finish the match twice and store it twice |
| `Scenarios.BreakBallInChase` | script.js:400-422 | a ball played during the break whose reveal fires after the break ends is resolved for the chasing side: with target 1 the computer's 1 wins the chase, with 0 balls counted |
| `Scenarios.DoubleBreak` | script.js:353-357 | after two wickets in the break, a short chase ball locks input with a break end still pending; when that fires, balls reset to 0 and input reopens mid-chase, the target unchanged |

## Left out

- Rendering, screen toggling, status text, overlay text, feedback banner, button enabling, the help modal and the resize handler are presentation only. Only the `phase` value that `setScreen` stores is modelled, and the overlay's visibility as a boolean.
- Audio, the mute button with `soundEnabled`, and `navigator.vibrate` are side effects with no logic.
- Storage: `localStorage` reads, JSON parsing and writes are foreign I/O. The stored best score and history are constructor parameters and fields. `saveHistory` re-reads storage before prepending; the model uses the field, which is the same as long as nothing else writes storage. A stored best score that is not an integer (`Number` can give NaN or a fraction) is not modelled.
- `crypto.getRandomValues` is a foreign call; the random word is the `draw` parameter. `new Date()` is the `now` parameter.
- The timers that `setFeedback` schedules only touch the feedback banner and are left out of the pending list; the real delays are left out, so `Fire` may fire any pending continuation.
- `calculateRunRate` uses floating-point division and `toFixed`, and is left out.
- `renderHistory` shows the first three entries and is presentation only.
- The out message passed through `switchInnings` and `beginSecondInnings` is display text only.
- Engine.GameState.PlayBall: requires the user's pick to be 1 to 6. `playBall` itself does not check this, but its only callers, the run buttons and the keys 1 to 6, never pass anything else.
- `MainWebsite/script.js` and `Sasta Cricket/script.js` are not part of this model.
