/** The typing game's session controller: the page-level state the script
    keeps in module variables and on the input field, and the handlers that
    change it (start, show next question, input, skip). */
module Session {
  import opened Keystroke
  import opened Scoring

  /** One prompt, already decoded and translated. */
  datatype Question = Question(question: string, answer: string)

  class Game {
    var questions: seq<Question>
    var currentQuestionIndex: nat
    var currentAnswer: string
    var correctChars: nat
    var totalChars: nat
    var startTime: int
    /** The input field's value. */
    var fieldText: string
    /** The field's `prevLength` and `lastCorrect` data attributes. */
    var prevLength: Option<int>
    var lastCorrect: Option<int>

    /** The evaluator's view of the game. */
    function Keys(): KeyState
      reads this
    {
      KeyState(correctChars, totalChars, prevLength, lastCorrect)
    }

    /** The page as loaded: no questions, zero counters, markers unset. */
    constructor ()
      ensures questions == [] && currentQuestionIndex == 0 && currentAnswer == ""
      ensures correctChars == 0 && totalChars == 0 && startTime == 0 && fieldText == ""
      ensures prevLength == None && lastCorrect == None
    {
      questions := [];
      currentQuestionIndex := 0;
      currentAnswer := "";
      correctChars := 0;
      totalChars := 0;
      startTime := 0;
      fieldText := "";
      prevLength := None;
      lastCorrect := None;
    }

    /** Shows the question at the current index, or ends the game when the
        index has run past the list and returns the summary it reports. */
    method ShowNext(nowMs: int) returns (ended: Option<Summary>)
      modifies this`currentAnswer, this`fieldText
      ensures ended == if currentQuestionIndex < |questions| then None
                       else Some(SummaryOf(correctChars, totalChars, ElapsedSeconds(startTime, nowMs)))
      ensures currentQuestionIndex < |questions| ==>
                currentAnswer == questions[currentQuestionIndex].answer && fieldText == ""
      ensures currentQuestionIndex >= |questions| ==>
                currentAnswer == old(currentAnswer) && fieldText == old(fieldText)
    {
      if currentQuestionIndex >= |questions| {
        var elapsed := ElapsedSeconds(startTime, nowMs);
        ended := Some(SummaryOf(correctChars, totalChars, elapsed));
        return;
      }
      currentAnswer := questions[currentQuestionIndex].answer;
      fieldText := "";
      ended := None;
    }

    /** The start button.  `fetched` is the question list, or `None` when
        fetching it failed.  A non-empty list starts a game: index and
        counters go to zero and the first question is shown.  The field
        markers are left as they are. */
    method Start(fetched: Option<seq<Question>>, nowMs: int) returns (started: bool)
      modifies this`questions, this`currentQuestionIndex, this`correctChars, this`totalChars,
               this`startTime, this`currentAnswer, this`fieldText
      ensures started <==> fetched.Some? && |fetched.value| > 0
      ensures started ==>
                questions == fetched.value && currentQuestionIndex == 0 &&
                correctChars == 0 && totalChars == 0 && startTime == nowMs &&
                currentAnswer == questions[0].answer && fieldText == ""
      ensures !started ==>
                questions == old(questions) && currentQuestionIndex == old(currentQuestionIndex) &&
                correctChars == old(correctChars) && totalChars == old(totalChars) &&
                startTime == old(startTime) && currentAnswer == old(currentAnswer) &&
                fieldText == old(fieldText)
    {
      started := fetched.Some? && |fetched.value| > 0;
      if started {
        questions := fetched.value;
        currentQuestionIndex := 0;
        correctChars := 0;
        totalChars := 0;
        startTime := nowMs;
        var ended := ShowNext(nowMs);
      }
    }

    /** One `input` event whose field value is now `text`.  Returns the
        feedback line and whether the question was solved; a solved question
        has already advanced the index, and showing the next question is left
        to the caller (the page does it on a short timer). */
    method OnInput(text: string) returns (feedback: seq<Tag>, solved: bool)
      modifies this`fieldText, this`correctChars, this`totalChars, this`prevLength,
               this`lastCorrect, this`currentQuestionIndex
      ensures Keys() == Evaluate(old(Keys()), currentAnswer, text)
      ensures feedback == Feedback(text, currentAnswer)
      ensures solved <==> text == currentAnswer
      ensures currentQuestionIndex == old(currentQuestionIndex) + (if solved then 1 else 0)
      ensures fieldText == text
    {
      fieldText := text;
      var currentLength := |text|;
      var answerLength := |currentAnswer|;

      if Exceeds(currentLength, prevLength) {
        totalChars := totalChars + 1;
      }
      prevLength := Some(currentLength);

      var currentCorrectChars;
      feedback, currentCorrectChars := Classify(text, currentAnswer);

      if 0 < currentLength <= answerLength {
        if text[currentLength - 1] == currentAnswer[currentLength - 1] {
          if Exceeds(currentLength, lastCorrect) {
            correctChars := correctChars + 1;
            lastCorrect := Some(currentLength);
          }
        } else {
          lastCorrect := Some(currentLength - 1);
        }
      }

      solved := false;
      if currentLength == answerLength && text == currentAnswer {
        currentQuestionIndex := currentQuestionIndex + 1;
        solved := true;
      }
    }

    /** The skip button: reveals the answer, advances the index, clears the
        field and both markers, and shows the next question (or ends the
        game).  The counters are not touched. */
    method Skip(nowMs: int) returns (revealed: string, ended: Option<Summary>)
      modifies this`currentQuestionIndex, this`fieldText, this`lastCorrect,
               this`prevLength, this`currentAnswer
      ensures revealed == old(currentAnswer)
      ensures currentQuestionIndex == old(currentQuestionIndex) + 1
      ensures prevLength == Some(0) && lastCorrect == Some(0) && fieldText == ""
      ensures ended == if currentQuestionIndex < |questions| then None
                       else Some(SummaryOf(correctChars, totalChars, ElapsedSeconds(startTime, nowMs)))
      ensures currentQuestionIndex < |questions| ==>
                currentAnswer == questions[currentQuestionIndex].answer
      ensures currentQuestionIndex >= |questions| ==> currentAnswer == old(currentAnswer)
    {
      revealed := currentAnswer;
      currentQuestionIndex := currentQuestionIndex + 1;
      fieldText := "";
      lastCorrect := Some(0);
      prevLength := Some(0);
      ended := ShowNext(nowMs);
    }
  }

  /** The first game on a freshly loaded page: one question "cat" typed
      cleanly, after which the delayed show-next ends the game.  The first
      keystroke is not charged, nothing is credited, and the score is
      negative. */
  method FreshPageGame() returns (solved: bool, summary: Option<Summary>)
    ensures solved
    ensures summary == Some(Summary(-10, 0.0, 0.0))
  {
    var g := new Game();
    var started := g.Start(Some([Question("animal?", "cat")]), 0);
    var feedback;
    feedback, solved := g.OnInput("c");
    feedback, solved := g.OnInput("ca");
    feedback, solved := g.OnInput("cat");
    summary := g.ShowNext(4000);
  }

  /** Skipping the first question resets the markers to 0, after which the
      second answer typed cleanly is charged and credited in full. */
  method SkipThenTypeGame() returns (solved: bool, summary: Option<Summary>)
    ensures solved
    ensures summary == Some(Summary(30, 12.0, 100.0))
  {
    var g := new Game();
    var started := g.Start(Some([Question("animal?", "cat"), Question("pet?", "dog")]), 0);
    var revealed, ended := g.Skip(1000);
    assert g.currentAnswer == "dog" && g.Keys() == KeyState(0, 0, Some(0), Some(0));
    var feedback;
    feedback, solved := g.OnInput("d");
    assert g.Keys() == KeyState(1, 1, Some(1), Some(1));
    feedback, solved := g.OnInput("do");
    assert g.Keys() == KeyState(2, 2, Some(2), Some(2));
    feedback, solved := g.OnInput("dog");
    assert g.Keys() == KeyState(3, 3, Some(3), Some(3)) && g.currentQuestionIndex == 2;
    summary := g.ShowNext(3000);
  }
}
