/** The keystroke evaluator of the typing game: what one `input` event on the
    answer field does to the session counters and to the two markers the page
    keeps on the field (`prevLength` and `lastCorrect`), and the per-position
    feedback it renders.  A character stands for one UTF-16 code unit of the
    field's string; only equality and length are used. */
module Keystroke {

  datatype Option<T> = None | Some(value: T)

  /** Feedback for one position of the expected answer. */
  datatype Tag = Pending | Correct | Incorrect

  /** The evaluator's state: the two session counters and the two field
      markers.  A marker is `None` while the page has never set it (the
      attribute is `undefined`). */
  datatype KeyState = KeyState(
    correctChars: nat,
    totalChars: nat,
    prevLength: Option<int>,
    lastCorrect: Option<int>)

  /** The script's `n > marker`: a comparison with an unset (`undefined`)
      marker is always false. */
  predicate Exceeds(n: int, marker: Option<int>)
  {
    match marker
    case None => false
    case Some(m) => n > m
  }

  /** The classification rule for position `i` of the answer. */
  function TagAt(text: string, answer: string, i: nat): (t: Tag)
    requires i < |answer|
  {
    if i >= |text| then Pending
    else if text[i] == answer[i] then Correct
    else Incorrect
  }

  /** The whole feedback line: one tag per answer position. */
  function Feedback(text: string, answer: string): (tags: seq<Tag>)
    ensures |tags| == |answer|
    ensures forall i :: 0 <= i < |answer| ==> tags[i] == TagAt(text, answer, i)
  {
    seq(|answer|, i requires 0 <= i < |answer| => TagAt(text, answer, i))
  }

  /** Number of `Correct` tags. */
  function CountCorrect(tags: seq<Tag>): (n: nat)
    ensures n <= |tags|
  {
    if tags == [] then 0
    else CountCorrect(tags[..|tags| - 1]) + (if tags[|tags| - 1] == Correct then 1 else 0)
  }

  /** The feedback loop of the input handler: builds the tags position by
      position and counts the correct ones. */
  method Classify(text: string, answer: string) returns (tags: seq<Tag>, correctCount: nat)
    ensures tags == Feedback(text, answer)
    ensures correctCount == CountCorrect(tags)
    ensures correctCount <= |text| && correctCount <= |answer|
  {
    tags := [];
    correctCount := 0;
    for i := 0 to |answer|
      invariant |tags| == i
      invariant forall j :: 0 <= j < i ==> tags[j] == TagAt(text, answer, j)
      invariant correctCount == CountCorrect(tags)
      invariant correctCount <= i && correctCount <= |text|
    {
      var tag := Pending;
      if i < |text| {
        if text[i] == answer[i] {
          tag := Correct;
          correctCount := correctCount + 1;
        } else {
          tag := Incorrect;
        }
      }
      assert (tags + [tag])[..i] == tags;
      tags := tags + [tag];
    }
  }

  /** All tags are `Correct` exactly when the count reaches the length. */
  lemma {:induction false} AllCorrectIff(tags: seq<Tag>)
    ensures CountCorrect(tags) == |tags| <==> forall i :: 0 <= i < |tags| ==> tags[i] == Correct
  {
    if tags != [] {
      var init := tags[..|tags| - 1];
      AllCorrectIff(init);
      assert forall i :: 0 <= i < |init| ==> init[i] == tags[i];
    }
  }

  /** For input of the answer's length, the feedback is all `Correct`
      exactly when the input is the answer, which is the solve test. */
  lemma SolvedIffAllCorrect(text: string, answer: string)
    requires |text| == |answer|
    ensures CountCorrect(Feedback(text, answer)) == |answer| <==> text == answer
  {
    var tags := Feedback(text, answer);
    AllCorrectIff(tags);
    if CountCorrect(tags) == |answer| {
      forall i | 0 <= i < |answer| ensures text[i] == answer[i] {
        assert tags[i] == Correct;
      }
    }
  }

  /** One `input` event with field contents `text` against `answer`. */
  function Evaluate(s: KeyState, answer: string, text: string): (r: KeyState)
    // charge a keystroke exactly when the field grew past the stored length
    ensures r.totalChars == if s.prevLength.Some? && |text| > s.prevLength.value
                            then s.totalChars + 1 else s.totalChars
    ensures r.prevLength == Some(|text|)
    // credit at most one character, and never take one back
    ensures s.correctChars <= r.correctChars <= s.correctChars + 1
    ensures r.correctChars == s.correctChars + 1 <==>
              0 < |text| <= |answer| && text[|text| - 1] == answer[|text| - 1] &&
              s.lastCorrect.Some? && |text| > s.lastCorrect.value
    ensures r.correctChars == s.correctChars + 1 ==> r.lastCorrect == Some(|text|)
    // a wrong last character moves the credit marker back
    ensures 0 < |text| <= |answer| && text[|text| - 1] != answer[|text| - 1] ==>
              r.lastCorrect == Some(|text| - 1)
    // empty or overlong input touches neither the credit nor its marker
    ensures (|text| == 0 || |text| > |answer|) ==>
              r.correctChars == s.correctChars && r.lastCorrect == s.lastCorrect
    // a correct last character that is not past a set marker keeps the marker
    ensures (0 < |text| <= |answer| && text[|text| - 1] == answer[|text| - 1] &&
             !Exceeds(|text|, s.lastCorrect)) ==> r.lastCorrect == s.lastCorrect
  {
    var len := |text|;
    var total := if Exceeds(len, s.prevLength) then s.totalChars + 1 else s.totalChars;
    if 0 < len <= |answer| then
      if text[len - 1] == answer[len - 1] then
        if Exceeds(len, s.lastCorrect) then KeyState(s.correctChars + 1, total, Some(len), Some(len))
        else KeyState(s.correctChars, total, Some(len), s.lastCorrect)
      else KeyState(s.correctChars, total, Some(len), Some(len - 1))
    else KeyState(s.correctChars, total, Some(len), s.lastCorrect)
  }
}
