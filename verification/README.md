# Grammar quiz: session state machine, scoring and question batching

This project models the sequential core of a React quiz application in which a
user picks a grammar topic, asks for a number of AI-generated multiple-choice
questions, answers them one at a time and sees a score summary. Three pieces
are modelled and proved:

- **The question fetch** (`geminiService.ts`, module `Provider`). The
  generation service is an oracle: a sequence of per-call answers, each
  `Error`, `Empty` (empty or absent response text) or `Batch(items)`. `Fetch`
  follows the source loop step by step. It makes at most `NumBatches(count)`
  calls in sequence and concatenates the batches in order. It stops once
  `count` questions have accumulated, skips empty answers, aborts on the first
  error and cuts the result to `count`. `Conforms` is an independent,
  declarative description of the loop's result; `Fetch` is proved to conform
  to it, and `ConformsIsUnique` shows the description allows only one result.
- **Scoring and progression** (`components/PracticeSession.tsx`, module
  `Practice`). `SelectOption` is ignored on an answered question and
  otherwise moves exactly one tally. `HandleNext` moves the pointer on or ends
  the run. `SelectOption` keeps `WellFormed`; `HandleNext` keeps it when the
  question is answered, the only time the view offers Next. `WellFormed`
  says the pointer stays in `[0, count)`, the tallies add up to
  `currentQuestionIndex + (isAnswered ? 1 : 0)`, and a selected option is
  recorded exactly when the question is answered. A run
  that ends has `correctCount + wrongCount == count`. `PlayScoresEveryAnswer`
  proves that answering every question ends the run, and that the correct
  tally equals the number of answers that match.
- **The application state machine** (`App.tsx`, module `AppMachine`). The
  four pieces of state the handlers change (App.tsx:11-14) become
  `AppState`, and each handler becomes a function. The asynchronous `startSession` is split in two. `StartSession`
  is the synchronous part: it switches to loading and issues a `FetchCall`
  that captures the topic and count. A later `Settle` event delivers that
  call's result, and `FetchSucceeded` or `FetchFailed` applies it to
  whatever the state is by then. A `World` holds the state and the set of
  fetches in flight. `Offered` says which events the views make available,
  and `Step` dispatches one event. `RunKeepsSourceInv` proves the invariant
  over every admissible trace.
- **Corrections** (modules `Provider` and `Attempts`). `FetchChecked` adds the
  missing length check. `Attempts.GuardedStep` adds an attempt guard that
  discards completions of abandoned requests. Both come with the properties
  they restore (see "Findings").

Behaviours of the code worth knowing, each modelled as written:

- The "Restart Quiz" button (App.tsx:179-184) calls `startSetup` with the
  finished session's topic. It opens the setup view, where the count is
  chosen again; nothing is fetched, and the old session stays in place
  (`AppMachine.Restart`). So a session can exist while the setup view is
  showing.
- The prompt asks for "exactly 4 options" (geminiService.ts:14) and the
  schema describes an answer index "0-3" (geminiService.ts:31), but nothing
  checks the parsed items (`Provider.FetchDoesNotValidate`).
- The loop allows ceil(count/10) calls and then returns whatever it has
  (geminiService.ts:47-67), so it can return fewer than `count` questions
  (finding 1).
- A completion calls the state setters whatever has happened since the
  request (App.tsx:38-53), so late completions are applied (finding 2).
- The error message is cleared only by `startSession` (App.tsx:36). Going
  home and opening a new setup view keep it
  (`AppMachine.ErrorOutlivesGoingHome`).

## Model

| member | source | states |
|---|---|---|
| Provider.NumBatches | geminiService.ts:9-10 | the batch limit is the ceiling of count/10: the least n with count <= 10n (zero for a non-positive count) |
| Provider.SliceTo | geminiService.ts:67 | `slice(0, end)` returns a prefix of the list, of length min(end, length) for a non-negative end |
| Provider.Drive | geminiService.ts:47-65 | each iteration of the loop, from any point reached, yields a result that conforms to the loop's declarative description |
| Provider.Fetch | geminiService.ts:46-71 | at most NumBatches(count) calls; no stop before the last call made; failure exactly when the last call made is the first error, with no partial list; otherwise the in-order concatenation cut to count, at most count long |
| Provider.ConformsIsUnique | geminiService.ts:47-67 | the declarative description determines the result: two results that both conform are equal |
| Provider.FullBatchesFetchExactly | geminiService.ts:47-67 | if every call returns 10 items, exactly NumBatches(count) calls are made and exactly count questions are returned |
| Provider.TwentyFiveTakesThreeCalls | geminiService.ts:9-67 | 25 questions in full batches take three calls and return 25 of the 30 items |
| Provider.EmptyAnswersFetchNothing | geminiService.ts:58-64 | empty answers neither fail the fetch nor prolong it: after NumBatches(count) calls it returns an empty list |
| Provider.SecondBatchErrorAborts | geminiService.ts:46-71 | an error on the second of three calls fails the fetch after two calls, with no questions returned |
| Provider.FetchDoesNotValidate | geminiService.ts:58-61 | a question with no options and answer index 7 is returned as it came |
| Provider.FetchChecked | geminiService.ts:67 | corrected fetch: a success holds exactly count questions and equals the unchecked fetch; a failure of the unchecked fetch is returned unchanged; it differs only where the unchecked fetch returns too few, and then fails with an insufficient-questions reason |
| Practice.SelectOption | components/PracticeSession.tsx:26-49 | ignored once answered; otherwise records the option and moves the correct tally exactly when it is the right answer, else the wrong tally; topic, count, questions and pointer unchanged; "CORRECT!" is shown exactly when the correct tally moved; keeps WellFormed |
| Practice.HandleNext | components/PracticeSession.tsx:51-66 | ends the run exactly when index + 1 >= count; otherwise moves the pointer by one, clears the answer state and keeps the tallies; keeps WellFormed on an answered question; an answered last question ends with every question tallied |
| Practice.PlayScoresEveryAnswer | components/PracticeSession.tsx:26-66 | answering every remaining question ends the run with correct + wrong == count, and the correct tally grows by the number of matching answers |
| Practice.UnansweredNextWouldMissATally | components/PracticeSession.tsx:181-210 | "Next" shown before answering would end a run with a question untallied, so the answered-only guard is what completes the tally |
| AppMachine.StartSetup | App.tsx:28-31 | selects the topic and shows setup; session and error unchanged |
| AppMachine.StartSession | App.tsx:33-36 | without a selected topic nothing happens; otherwise loading, error cleared, and a fetch for that topic and count is issued |
| AppMachine.NewSession | App.tsx:39-48 | a new session has the given topic, count and questions, pointer 0, both tallies 0 and no answer; it is well formed exactly when count is positive |
| AppMachine.FetchSucceeded | App.tsx:38-49 | a successful completion shows the session built from the captured topic and count; topic selection and error unchanged |
| AppMachine.FetchFailed | App.tsx:50-53 | a failed completion shows setup with the failure message; selected topic and session unchanged |
| AppMachine.HandleBackToHome | App.tsx:56-60 | from any state: topic list, no session, no selected topic; error kept |
| AppMachine.HandleFinish | App.tsx:62-64 | shows the results view and changes nothing else |
| AppMachine.Restart | App.tsx:179-184 | restart shows setup for the session's topic, keeps the old session and issues no fetch |
| AppMachine.Step | App.tsx:104-184 | every offered event preserves the invariant: session present in active/results views, sessions well formed, results fully tallied, pending counts positive |
| AppMachine.RunKeepsSourceInv | App.tsx:28-64 | the invariant holds after any admissible trace of events |
| AppMachine.AnsweringEveryQuestionFinishes | App.tsx:140-146 | from an active, unanswered session whose remaining questions exist and are well shaped, choosing an option and pressing "Next" for each remaining question is offered at every step and ends on the results view with the session `Play` computes, every question tallied, and topic, error and pending fetches untouched |
| AppMachine.FinishedRunTalliesEveryQuestion | App.tsx:148-170 | from start-up, every results view shows correct + wrong == count |
| AppMachine.CheckedFetchDeliversInFull | geminiService.ts:67 | a completion produced by the length-checked fetch delivers exactly the requested count |
| AppMachine.FullDeliveryKeepsSessionShown | components/PracticeSession.tsx:22-24 | when completions deliver in full, every session holds count questions and an active session always has a current question |
| AppMachine.UnderDeliveredSessionHasNoCurrentQuestion | App.tsx:38-49 | as written, two empty answers to a request for 20 open an active session with no current question; its render crashes and no event is offered afterwards |
| AppMachine.StaleSuccessReopensAbandonedQuiz | App.tsx:38-60 | as written, a success after going home switches the topic list back to the abandoned session |
| AppMachine.StaleSuccessUsesCapturedTopic | App.tsx:33-49 | a late success after going home and picking another topic opens a session on the topic captured when the fetch was started, keeps the new topic selected, and retires the settled request |
| AppMachine.RestartFromResults | App.tsx:179-184 | "Restart Quiz" from the results view goes through `Restart`: setup for the session's topic, old session and error kept, no fetch issued |
| AppMachine.StaleFailureLeavesSetupWithoutTopic | App.tsx:50-60 | as written, a failure after going home shows setup with no topic selected |
| AppMachine.ErrorOutlivesGoingHome | App.tsx:50-60 | a failure message survives going home and appears on the next setup view |
| Attempts.GuardedStep | App.tsx:33-60 | with the guard, only the awaited request's completion changes the application; all else behaves as the source; the strengthened invariant is preserved, including that the awaited request is the one issued last and still in flight |
| Attempts.GuardedRunKeepsStrongInv | App.tsx:33-60 | with the guard, the strengthened invariant holds after any admissible trace |
| Attempts.GuardedViewsAlwaysHaveTheirData | App.tsx:122-148 | with the guard, setup and loading always have a topic, and active and results always have a session |
| Attempts.UnawaitedStaysIgnored | App.tsx:33-60 | with the guard, a request that was issued but is not awaited is never awaited again after any trace, so its completion never changes the application |
| Attempts.AbandonedFetchIsIgnored | App.tsx:56-60 | with the guard, a fetch in flight when the user goes home never changes the application afterwards, whatever events follow, new sessions included |

## Findings

| source | as written | input that shows it | evidently intended | confidence | as-written member | corrected member |
|---|---|---|---|---|---|---|
| geminiService.ts:67 | the fetch returns `slice(0, count)` without checking its length, and the session is built with `count` regardless, so the session view reads `questions[currentQuestionIndex]` past the end (components/PracticeSession.tsx:23) and its render throws on the missing question's text (components/PracticeSession.tsx:112); with no error boundary the whole page is unmounted | a request for 20 questions whose two calls both answer with empty text | fail with an insufficient-questions error when fewer than `count` questions arrived | medium, not executed | AppMachine.UnderDeliveredSessionHasNoCurrentQuestion | Provider.FetchChecked |
| App.tsx:38-53 | a fetch completion is applied to whatever the state is when it arrives | pick a topic, start 20 questions, go home, then the fetch succeeds (the quiz reopens) or fails (setup with no topic: the main area is empty; only the header, with its home link, and the footer remain) | discard completions of a request the user has abandoned | medium, not executed | AppMachine.StaleSuccessReopensAbandonedQuiz | Attempts.GuardedStep |

## Left out

- Rendering, styling, icons, the hint toggle, and the `TopicCard` and
  `SessionSetup` views are presentation. Their only effect on the model is
  which events `Offered` allows: setup offers just the counts 20, 40, 50
  and 100.
- Dark-mode and mute preferences kept in `localStorage` and on the document
  element are I/O outside the state machine.
- `audioUtils.ts` (Web Audio tones) and the floating-point progress
  percentage are presentation.
- The `GoogleGenAI` client, prompt text, response schema and `JSON.parse`
  are foreign calls, replaced by the oracle. A parse failure or a
  non-iterable payload is an `Error` answer, and a parsed empty array is a
  `Batch` of no items. A payload that parses to a non-array iterable such as
  a string is not modelled.
- The `console.error` logging before the rethrow is I/O.
- React `async`/`await` and state-update batching become discrete
  `Settle` events. A double click landing before a re-render is not
  modelled; a choice on an answered question is allowed as an event, and the
  handler's guard absorbs it.
- The topic catalog content is not modelled; any `Topic` value may be picked.
- `Practice.SelectOption` requires the current question to exist on the
  unanswered path, because the source dereferences it there and would throw.
  An active session without a current question is mounted by App.tsx:140,
  but its render throws at components/PracticeSession.tsx:112. There is no
  error boundary, so the whole page, home link included, is unmounted.
  The model represents this as `AppMachine.PageCrashed`, a state in which
  `Offered` allows no event at all. Late completions are not modelled as
  events in that state, because setting state on an unmounted page has no
  effect. The crash itself, and the browser's error reporting, are not
  modelled.
- `Provider.Fetch` requires the oracle to list an answer for each of the
  NumBatches(count) calls it may make.
- `Provider.NumBatches` returns 0 for a non-positive count, where
  `Math.ceil` gives 0 or a negative number. Either way the loop runs zero
  times.
