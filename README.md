# Typing game session model

A Dafny model of the client-side engine of a timed typing game. The learner
gets a list of questions. For each question they type the answer into one
input field, and the page scores every `input` event. The model covers:

- the keystroke evaluator. It keeps the session counters `correctChars` and
  `totalChars` and the two markers the page stores on the input field.
  `prevLength` is the last seen field length. `lastCorrect` is a length
  marker: a correct last character is credited only when the field is longer
  than the marker. A credit sets the marker to the field length, and a wrong
  last character sets it to one less, whether or not anything was credited.
  The evaluator also builds the per-position feedback (pending, correct,
  incorrect) and detects a solved question;
- the question flow: show next question, skip, and the reset at game start;
- the end-of-game summary: elapsed whole seconds, accuracy, words per minute
  and the integer score.

Files and modules:

- `keystroke.dfy` (`Keystroke`): the evaluator. `Evaluate` is one input event
  as a pure function over `KeyState`. `Classify` is the feedback loop.
- `runs.dfy` (`Runs`): `Run` folds `Evaluate` over a sequence of events. The
  lemmas state what typing an answer does, depending on the markers the field
  holds when the question appears.
- `scoring.dfy` (`Scoring`): the summary formulas.
- `session.dfy` (`Session`): class `Game` holds the page state (questions,
  index, current answer, counters, start time, field value, markers). Its
  methods are the start, show-next, input and skip handlers. Each one states
  the complete new state. `OnInput` is proved against `Evaluate` and
  `Feedback`.

A marker that the page has never set is `undefined` in the script, and the
script compares it with `>`. Such a comparison is always false. The model
writes markers as `Option<int>`, with `None` for `undefined`. The page stores
markers as strings, but comparing a number with a numeric string compares the
numbers, so `int` is faithful. A Dafny `char` stands for one UTF-16 code unit
of the field's string. Any one-to-one encoding would do, because only equality
and length are used.

Behaviours of the code that the model reproduces:

- A keystroke can be credited without being charged, so `correctChars` can
  exceed `totalChars` (`Runs.CorrectCanExceedTotal`).
- Only a skip resets the markers, to 0. Showing the next question keeps them.
  After a non-empty answer is solved, `prevLength` holds its length, and
  `lastCorrect` is either unset or at least that length. On the first game
  after page load both markers are unset. In both cases typing the next
  non-empty answer cleanly credits fewer characters than it has: a set marker
  `m` leaves only the positions beyond `m` to credit (`Runs.CleanTyping`),
  none at all when the answer is no longer than `m` (`Runs.TypingAfterSolve`),
  and an unset marker credits none (`Runs.TypingWithUnsetMarkers`). After a
  skip every character is charged and credited (`Runs.TypingAfterSkip`).
- Typing "c", "cx", "c", "ca", "cat" after a skip charges 4 keystrokes, one
  per growth event, and credits 3 (`Runs.BacktrackScenario`).
- The score is `10 * correct - 5 * (total - correct)`.
- Words per minute is 0 when less than one whole second has elapsed.
- An empty answer is solved by an input event whose field value is empty.

## Model

| member | source | states |
|---|---|---|
| `Keystroke.Feedback` | public/script.js:236-254 | one tag per answer position: pending past the end of the input, correct where the input character equals the answer's, incorrect otherwise |
| `Keystroke.Classify` | public/script.js:233-254 | the loop builds exactly that feedback line and counts its correct tags; the count is at most the input length and at most the answer length |
| `Keystroke.AllCorrectIff` | public/script.js:243-246 | the correct count equals the number of positions iff every tag is correct |
| `Keystroke.SolvedIffAllCorrect` | public/script.js:275-276 | for input of the answer's length, the input is the answer (the solve test) iff every feedback position is correct |
| `Keystroke.Evaluate` | public/script.js:226-272 | one input event: `totalChars` goes up by exactly 1 iff the length exceeds a set `prevLength`, and `prevLength` becomes the length; `correctChars` goes up by at most 1 and never down; it goes up iff `0 < len <= |answer|`, the last character is right and `len` exceeds a set `lastCorrect`, which then becomes `len`; a right last character that does not exceed a set `lastCorrect` (or meets an unset one) keeps the marker; a wrong last character sets `lastCorrect` to `len - 1` without changing the counter; empty or overlong input leaves the credit and its marker alone |
| `Runs.CleanTyping` | public/script.js:226-272 | typing the first `k` answer characters without a mistake, from any markers: all but the first keystroke are charged, and the first only if `prevLength` is below 1; credit goes to the positions beyond a set `lastCorrect` and none if it is unset; the final markers |
| `Runs.TypingAfterSkip` | public/script.js:370-373 | with both markers at 0, as a skip leaves them, typing the answer cleanly charges and credits every character |
| `Runs.TypingAfterSolve` | public/script.js:209-210 | from the markers a solved answer leaves behind (`prevLength` at least 1, `lastCorrect` set to at least the next answer's length), typing that answer cleanly credits nothing, keeps `lastCorrect` and charges one fewer than its length |
| `Runs.TypingWithUnsetMarkers` | public/script.js:226-267 | with both markers unset (a freshly loaded page), typing an answer cleanly never credits and leaves the first keystroke uncharged |
| `Runs.RunGrowthBound` | public/script.js:226-272 | over any sequence of events neither counter decreases, and each grows by at most the number of events |
| `Runs.BacktrackScenario` | public/script.js:221-287 | "c", "cx", "c", "ca", "cat" against "cat" after a skip ends with 3 credited and 4 charged |
| `Runs.CorrectCanExceedTotal` | public/script.js:256-267 | on a fresh page, "x" then "a" against "ab" credits 1 and charges 0, so the credited count exceeds the charged count |
| `Scoring.ElapsedSeconds` | public/script.js:305 | the elapsed milliseconds rounded down to whole seconds |
| `Scoring.Accuracy` | public/script.js:306 | 0 when nothing was charged, within 0 to 100 when credits do not exceed charges, exactly 100 when every charge was credited |
| `Scoring.AccuracyIsShare` | public/script.js:306 | accuracy times the charged count is 100 times the credited count |
| `Scoring.Wpm` | public/script.js:307 | 0 unless at least one whole second has elapsed; never negative |
| `Scoring.WpmIsRate` | public/script.js:307 | words per minute times elapsed seconds is 12 times the credited count (a word is 5 characters) |
| `Scoring.Score` | public/script.js:308 | the score is 10 per character when every charge was credited, no more than that otherwise, and negative exactly when under a third of the charges were credited |
| `Scoring.SummaryOf` | public/script.js:305-308 | the end-of-game summary: a game with every charge credited scores 10 per character at accuracy 100; accuracy is 0 when nothing was charged; words per minute is 0 under one whole second; score and accuracy stay within 10 per character and 100 when credits do not exceed charges |
| `Scoring.ScorePerKeystroke` | public/script.js:308 | a credited keystroke adds 10 points, an uncredited one costs 5 |
| `Session.Game.constructor` | public/script.js:113-122 | page load: no questions, index and counters 0, markers unset |
| `Session.Game.ShowNext` | public/script.js:192-218 | below the end of the list it loads that question's answer and clears the field; otherwise it changes nothing and returns the end-of-game summary of the counters and elapsed time; markers and counters never change, so the next question starts from the markers the previous one left |
| `Session.Game.Start` | public/script.js:133-189 | a fetched non-empty list starts a game: questions stored, index and counters 0, clock started, first answer loaded, field cleared; a failed fetch or an empty list changes nothing; markers are kept in both cases |
| `Session.Game.OnInput` | public/script.js:221-287 | the counters and markers become `Evaluate` of the old ones; it returns `Feedback`; it solves iff the input equals the answer, and solving advances the index by exactly 1 |
| `Session.Game.Skip` | public/script.js:362-376 | reveals the current answer, advances the index by 1, clears the field, sets both markers to 0, leaves the counters alone, then shows the next question or ends the game |
| `Session.FreshPageGame` | public/script.js:133-308 | the first game after page load with one question "cat" typed cleanly is solved and ends with score -10, 0 words per minute and 0 accuracy |
| `Session.SkipThenTypeGame` | public/script.js:362-376 | skip the first question and type "dog" cleanly: the game ends with score 30, 12 words per minute after 3 seconds and 100 accuracy |

## Left out

- DOM rendering is not modelled: the feedback HTML spans, placeholders, the question text display, `classList`, `alert`, focus, and the disabled state of buttons and field. Feedback is a sequence of tags. One effect is that the model does not stop input events after the game ends, even though the page disables the field then.
- Timers are not modelled: `setInterval(updateStats, 1000)`, the clock display in `updateStats`, and `setTimeout(showNextQuestion, 100)`. `OnInput` reports a solve and the caller invokes `ShowNext`. Events that arrive during the delay are still allowed, so the index can pass the end of the list, as in the page.
- `Date.now()` becomes the `nowMs` parameter of `Start`, `ShowNext` and `Skip`.
- Network calls are not modelled (`/api/check`, `/api/logout`, `/api/questions`, `/api/scores`, the ranking fetch). The question fetch becomes the `fetched` parameter of `Start`, with `None` for a failed request. Submitting the summary is left out.
- `decodeHtmlEntities` and `translateToJapanese` are left out because they are a browser parser and an external translation service. Questions reach the model already decoded and translated, and decoding again in show-next is taken as the identity.
- `loadRanking` and the whole server (`server.js`) are left out: they render server data or handle authentication and storage I/O.
- `Scoring.Accuracy`: uses exact real arithmetic. It does not model IEEE double rounding or `toFixed` display rounding.
- `Scoring.Wpm`: uses exact real arithmetic. It does not model IEEE double rounding or `toFixed` display rounding.
- Counters are unbounded integers; JavaScript numbers lose integer precision only beyond 2^53, which no game reaches.
- The handler's local count of correct positions is computed and never used afterwards. `Classify` returns it, and `OnInput` discards it, as the page does.
