/** Pure rules of the hand-cricket engine: the computer's draw, which side
    bats, the chase test, the match classification, the best score and the
    capped match history. */
module Rules {

  datatype Option<T> = None | Some(value: T)

  /** Result of a finished match, from the user's point of view. */
  datatype Outcome = Win | Loss | Tie

  /** Number of entries the stored history keeps. */
  const HistoryLimit: nat := 10

  /** Number of values a `Uint32Array` element can take. */
  const DrawSpace: nat := 0x1_0000_0000

  /** The computer's run for a raw random word `draw`. */
  function RandomRun(draw: nat): (face: int)
    ensures 1 <= face <= 6
  {
    draw % 6 + 1
  }

  /** How many of the draws 0 .. n-1 give the run `face`. */
  ghost function FaceCount(n: nat, face: int): nat
  {
    if n == 0 then 0
    else FaceCount(n - 1, face) + (if RandomRun(n - 1) == face then 1 else 0)
  }

  /** Over the first n draws every face comes up n / 6 times, and the
      n % 6 lowest faces once more. */
  lemma {:induction false} FaceCountFormula(n: nat, face: int)
    requires 1 <= face <= 6
    ensures FaceCount(n, face) == n / 6 + (if face - 1 < n % 6 then 1 else 0)
  {
    if n > 0 {
      FaceCountFormula(n - 1, face);
      var q, r := (n - 1) / 6, (n - 1) % 6;
      assert n - 1 == 6 * q + r;
      if r == 5 {
        assert n == 6 * (q + 1);
        assert n / 6 == q + 1 && n % 6 == 0;
      } else {
        assert n == 6 * q + (r + 1);
        assert n / 6 == q && n % 6 == r + 1;
      }
    }
  }

  /** Over all 2^32 words the runs 1 to 4 come up once more than 5 and 6:
      the draw is close to uniform but not exactly uniform. */
  lemma RandomRunBias(face: int)
    requires 1 <= face <= 6
    ensures face <= 4 ==> FaceCount(DrawSpace, face) == 715827883
    ensures face >= 5 ==> FaceCount(DrawSpace, face) == 715827882
  {
    FaceCountFormula(DrawSpace, face);
  }

  /** Whether the user bats in the given innings. */
  function UserBatting(innings: int, userBattingFirst: bool): (userBats: bool)
    ensures innings == 1 ==> userBats == userBattingFirst
    ensures innings == 2 ==> userBats == !userBattingFirst
    ensures innings != 1 && innings != 2 ==> !userBats
  {
    (innings == 1 && userBattingFirst) || (innings == 2 && !userBattingFirst)
  }

  /** The score of the side that bats second, the chasing side. */
  function ChasingScore(userBattingFirst: bool, userScore: int, compScore: int): (score: int)
    ensures score == (if UserBatting(2, userBattingFirst) then userScore else compScore)
  {
    if userBattingFirst then compScore else userScore
  }

  /** Whether the chase is complete. A target of 0 counts as no target,
      as it is falsy in the source. */
  function ShouldChaseEnd(innings: int, target: Option<int>, userBattingFirst: bool,
                          userScore: int, compScore: int): bool
  {
    if !(innings == 2 && target.Some? && target.value != 0) then false
    else if userBattingFirst then compScore >= target.value
    else userScore >= target.value
  }

  /** Runs the chasing side still needs. */
  function RunsNeeded(target: int, chasingScore: int): (need: int)
    ensures need >= 0 && need >= target - chasingScore
    ensures need == 0 || need == target - chasingScore
  {
    if target - chasingScore > 0 then target - chasingScore else 0
  }

  /** The chase ends exactly when the chasing side needs no more runs, and
      only in the second innings once a target is set. */
  lemma ChaseEndIffNothingNeeded(innings: int, target: Option<int>, userBattingFirst: bool,
                                 userScore: int, compScore: int)
    ensures ShouldChaseEnd(innings, target, userBattingFirst, userScore, compScore) <==>
      innings == 2 && target.Some? && target.value != 0 &&
      RunsNeeded(target.value, ChasingScore(userBattingFirst, userScore, compScore)) == 0
  {
  }

  /** The user's result: a win iff the user outscored the computer, a loss
      iff the computer outscored the user, a tie otherwise. */
  function Classify(userScore: int, compScore: int): (result: Outcome)
    ensures result == Win <==> userScore > compScore
    ensures result == Loss <==> userScore < compScore
    ensures result == Tie <==> userScore == compScore
  {
    if userScore > compScore then Win
    else if userScore < compScore then Loss
    else Tie
  }

  /** The best score after a match in which the user scored `score`. */
  function NextBest(best: int, score: int): (newBest: int)
    ensures newBest >= best && newBest >= score
    ensures newBest == best || newBest == score
  {
    if score > best then score else best
  }

  /** The stored history after `entry` is put in front and the list is cut
      to its first HistoryLimit entries. */
  function SavedHistory<T>(history: seq<T>, entry: T): (saved: seq<T>)
    ensures |saved| == if |history| < HistoryLimit then |history| + 1 else HistoryLimit
    ensures saved[0] == entry
    ensures forall k :: 1 <= k < |saved| ==> saved[k] == history[k - 1]
  {
    var all := [entry] + history;
    all[..if |all| < HistoryLimit then |all| else HistoryLimit]
  }

  /** The history after saving every entry of `entries`, oldest first. */
  function SaveAll<T>(history: seq<T>, entries: seq<T>): seq<T>
  {
    if entries == [] then history
    else SavedHistory(SaveAll(history, entries[..|entries| - 1]), entries[|entries| - 1])
  }

  /** After a run of saves the history lists the latest matches newest
      first, at most HistoryLimit of them. */
  lemma {:induction false} SaveAllNewestFirst<T>(history: seq<T>, entries: seq<T>)
    requires entries != []
    ensures |SaveAll(history, entries)| <= HistoryLimit
    ensures forall k :: 0 <= k < |SaveAll(history, entries)| && k < |entries| ==>
      SaveAll(history, entries)[k] == entries[|entries| - 1 - k]
  {
    var n := |entries|;
    var front := entries[..n - 1];
    if front != [] {
      SaveAllNewestFirst(history, front);
      var before := SaveAll(history, front);
      var after := SaveAll(history, entries);
      forall k | 1 <= k < |after| && k < n
        ensures after[k] == entries[n - 1 - k]
      {
        assert after[k] == before[k - 1];
        assert before[k - 1] == front[|front| - 1 - (k - 1)];
      }
    }
  }
}
