/** The end-of-game summary: elapsed whole seconds, accuracy, words per
    minute and the integer score.  Accuracy and words per minute are
    computed in exact real arithmetic. */
module Scoring {

  datatype Summary = Summary(score: int, wpm: real, accuracy: real)

  /** Whole seconds between two millisecond clock readings, rounded down. */
  function ElapsedSeconds(startMs: int, nowMs: int): (r: int)
    ensures r * 1000 <= nowMs - startMs < r * 1000 + 1000
  {
    (nowMs - startMs) / 1000
  }

  /** Percentage of charged keystrokes that were credited; 0 before any
      keystroke was charged. */
  function Accuracy(correct: nat, total: nat): (r: real)
    ensures total == 0 ==> r == 0.0
    ensures 0.0 <= r
    ensures correct <= total ==> r <= 100.0
    ensures 0 < total == correct ==> r == 100.0
  {
    if total > 0 then (correct as real / total as real) * 100.0 else 0.0
  }

  /** Words per minute, a word being five credited characters; 0 when less
      than one whole second has elapsed. */
  function Wpm(correct: nat, elapsedSeconds: int): (r: real)
    ensures elapsedSeconds <= 0 ==> r == 0.0
    ensures 0.0 <= r
  {
    if elapsedSeconds > 0 then correct as real / 5.0 / (elapsedSeconds as real / 60.0) else 0.0
  }

  /** Ten points per credited character, minus five per charged keystroke
      that was not credited.  A game with every charged keystroke credited
      scores ten per character, any uncredited keystroke lowers that, and
      the score is negative exactly when fewer than a third of the
      keystrokes were credited. */
  function Score(correct: int, total: int): (r: int)
    ensures correct == total ==> r == 10 * correct
    ensures correct <= total ==> r <= 10 * correct
    ensures r < 0 <==> 3 * correct < total
  {
    correct * 10 - (total - correct) * 5
  }

  /** Accuracy is the credited share of the charged keystrokes, as a
      percentage. */
  lemma AccuracyIsShare(correct: nat, total: nat)
    requires total > 0
    ensures Accuracy(correct, total) * (total as real) == 100.0 * (correct as real)
  {
  }

  /** Words per minute is twelve credited characters per elapsed second. */
  lemma WpmIsRate(correct: nat, elapsedSeconds: int)
    requires elapsedSeconds > 0
    ensures Wpm(correct, elapsedSeconds) * (elapsedSeconds as real) == 12.0 * (correct as real)
  {
  }

  /** Each credited keystroke adds 10 points, each uncredited one costs 5. */
  lemma ScorePerKeystroke(correct: int, total: int)
    ensures Score(correct + 1, total + 1) == Score(correct, total) + 10
    ensures Score(correct, total + 1) == Score(correct, total) - 5
  {
  }

  /** The summary the game reports and submits when it ends. */
  function SummaryOf(correct: nat, total: nat, elapsedSeconds: int): (s: Summary)
    ensures 0 < total == correct ==> s.score == 10 * correct && s.accuracy == 100.0
    ensures total == 0 ==> s.accuracy == 0.0
    ensures elapsedSeconds <= 0 ==> s.wpm == 0.0
    ensures correct <= total ==> s.score <= 10 * correct && s.accuracy <= 100.0
  {
    Summary(Score(correct, total), Wpm(correct, elapsedSeconds), Accuracy(correct, total))
  }
}
