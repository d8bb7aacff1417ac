/** Sequences of `input` events against one answer: what the counters and
    markers end up as after a learner types an answer, depending on what the
    markers held when the question was shown. */
module Runs {
  import opened Keystroke

  /** The evaluator state after the events `texts`, oldest first. */
  function Run(s: KeyState, answer: string, texts: seq<string>): (r: KeyState)
    decreases |texts|
  {
    if texts == [] then s
    else Evaluate(Run(s, answer, texts[..|texts| - 1]), answer, texts[|texts| - 1])
  }

  /** The field contents seen while `answer` is typed left to right without
      a mistake: `answer[..1]`, …, `answer[..k]`. */
  function Prefixes(answer: string, k: nat): (p: seq<string>)
    requires k <= |answer|
    ensures |p| == k
    ensures forall i :: 0 <= i < k ==> p[i] == answer[..i + 1]
  {
    if k == 0 then [] else Prefixes(answer, k - 1) + [answer[..k]]
  }

  /** Characters credited while typing `k` characters cleanly, given the
      credit marker found on the field. */
  function CreditGain(lastCorrect: Option<int>, k: nat): (n: nat)
  {
    match lastCorrect
    case None => 0
    case Some(m) => if m < 0 then k else if k > m then k - m else 0
  }

  /** The credit marker after typing `k` characters cleanly. */
  function CreditMarkerAfter(lastCorrect: Option<int>, k: nat): (m: Option<int>)
  {
    match lastCorrect
    case None => None
    case Some(m) => if k > 0 && k > m then Some(k) else Some(m)
  }

  /** Keystrokes charged while typing `k` characters cleanly: all but the
      first are growth, and the first is charged only when the stored
      length is below 1. */
  function ChargeGain(prevLength: Option<int>, k: nat): (n: nat)
  {
    if k == 0 then 0 else if Exceeds(1, prevLength) then k else k - 1
  }

  /** Typing the first `k` characters of the answer without a mistake,
      from any markers. */
  lemma {:induction false} CleanTyping(s: KeyState, answer: string, k: nat)
    requires k <= |answer|
    ensures var r := Run(s, answer, Prefixes(answer, k));
      r.totalChars == s.totalChars + ChargeGain(s.prevLength, k) &&
      r.correctChars == s.correctChars + CreditGain(s.lastCorrect, k) &&
      r.prevLength == (if k == 0 then s.prevLength else Some(k)) &&
      r.lastCorrect == CreditMarkerAfter(s.lastCorrect, k)
  {
    if k > 0 {
      var ps := Prefixes(answer, k);
      assert ps[..k - 1] == Prefixes(answer, k - 1);
      assert ps[k - 1] == answer[..k];
      CleanTyping(s, answer, k - 1);
    }
  }

  /** After a skip both markers hold 0: typing the answer cleanly charges
      and credits every character. */
  lemma TypingAfterSkip(s: KeyState, answer: string)
    requires s.prevLength == Some(0) && s.lastCorrect == Some(0)
    ensures var r := Run(s, answer, Prefixes(answer, |answer|));
      r.totalChars == s.totalChars + |answer| &&
      r.correctChars == s.correctChars + |answer|
  {
    CleanTyping(s, answer, |answer|);
  }

  /** After a solved non-empty answer, `prevLength` holds its length and a
      set `lastCorrect` holds at least that length.  If the next answer is
      no longer than that marker, typing it cleanly credits nothing, and its
      first character is not charged. */
  lemma TypingAfterSolve(s: KeyState, answer: string)
    requires s.prevLength.Some? && s.prevLength.value >= 1
    requires s.lastCorrect.Some? && s.lastCorrect.value >= |answer| >= 1
    ensures var r := Run(s, answer, Prefixes(answer, |answer|));
      r.totalChars == s.totalChars + |answer| - 1 &&
      r.correctChars == s.correctChars &&
      r.lastCorrect == s.lastCorrect
  {
    CleanTyping(s, answer, |answer|);
    assert ChargeGain(s.prevLength, |answer|) == |answer| - 1;
    assert CreditGain(s.lastCorrect, |answer|) == 0;
    assert CreditMarkerAfter(s.lastCorrect, |answer|) == s.lastCorrect;
  }

  /** On a freshly loaded page both markers are unset: the first keystroke is
      never charged and no clean keystroke is ever credited. */
  lemma TypingWithUnsetMarkers(s: KeyState, answer: string)
    requires s.prevLength == None && s.lastCorrect == None
    requires 1 <= |answer|
    ensures var r := Run(s, answer, Prefixes(answer, |answer|));
      r.totalChars == s.totalChars + |answer| - 1 &&
      r.correctChars == s.correctChars &&
      r.lastCorrect == None
  {
    CleanTyping(s, answer, |answer|);
  }

  /** Each event charges and credits at most one character, and neither
      counter ever decreases. */
  lemma {:induction false} RunGrowthBound(s: KeyState, answer: string, texts: seq<string>)
    ensures var r := Run(s, answer, texts);
      s.totalChars <= r.totalChars <= s.totalChars + |texts| &&
      s.correctChars <= r.correctChars <= s.correctChars + |texts|
  {
    if texts != [] {
      RunGrowthBound(s, answer, texts[..|texts| - 1]);
    }
  }

  /** Typing "c", "cx", backspace to "c", then "ca", "cat" after a skip:
      four growth events are charged and each position is credited once. */
  lemma BacktrackScenario()
    ensures Run(KeyState(0, 0, Some(0), Some(0)), "cat", ["c", "cx", "c", "ca", "cat"])
         == KeyState(3, 4, Some(3), Some(3))
  {
    var s := KeyState(0, 0, Some(0), Some(0));
    var texts := ["c", "cx", "c", "ca", "cat"];
    assert texts[..4] == ["c", "cx", "c", "ca"];
    assert texts[..4][..3] == ["c", "cx", "c"];
    assert texts[..4][..3][..2] == ["c", "cx"];
    assert texts[..4][..3][..2][..1] == ["c"];
    assert Run(s, "cat", ["c"]) == KeyState(1, 1, Some(1), Some(1));
    assert Run(s, "cat", ["c", "cx"]) == KeyState(1, 2, Some(2), Some(1));
    assert Run(s, "cat", ["c", "cx", "c"]) == KeyState(1, 2, Some(1), Some(1));
    assert Run(s, "cat", ["c", "cx", "c", "ca"]) == KeyState(2, 3, Some(2), Some(2));
  }

  /** A credit without growth: on a freshly loaded page, a wrong first
      character followed by overwriting it with the right one credits a
      character that was never charged, so `correctChars <= totalChars`
      does not hold. */
  lemma CorrectCanExceedTotal()
    ensures var r := Run(KeyState(0, 0, None, None), "ab", ["x", "a"]);
      r == KeyState(1, 0, Some(1), Some(1)) && r.correctChars > r.totalChars
  {
    var texts := ["x", "a"];
    assert texts[..1] == ["x"];
    assert Run(KeyState(0, 0, None, None), "ab", ["x"]) == KeyState(0, 0, Some(1), Some(0));
  }
}
