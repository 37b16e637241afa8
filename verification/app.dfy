/** The top-level application: status, selected topic, session and error
    message, the handlers that change them, and the event-driven world in
    which fetch completions arrive as separate events. */
module AppMachine {
  import opened Options
  import opened Types
  import opened Practice
  import Provider

  /** The counts the setup view offers. */
  const QuestionCountOptions: seq<int> := [20, 40, 50, 100]

  const FailureMessage: string := "Failed to generate questions. Please try again."

  /** The four pieces of application state. */
  datatype AppState = AppState(
    status: SessionStatus,
    selectedTopic: Option<Topic>,
    session: Option<QuizSession>,
    error: Option<string>
  )

  const Initial := AppState(Idle, None, None, None)

  /** The arguments a pending fetch completion closed over when it was issued. */
  datatype FetchCall = FetchCall(topic: Topic, count: int)

  /** Opening the setup view for a topic; nothing else changes. */
  function StartSetup(app: AppState, topic: Topic): (r: AppState)
    ensures r.status == Setup && r.selectedTopic == Some(topic)
    ensures r.session == app.session && r.error == app.error
  {
    app.(selectedTopic := Some(topic), status := Setup)
  }

  /** The synchronous part of starting a session: without a selected topic
      nothing happens; otherwise the view turns to loading, the error is
      cleared and a fetch is issued for the selected topic and `count`. */
  function StartSession(app: AppState, count: int): (r: (AppState, Option<FetchCall>))
    ensures app.selectedTopic.None? ==> r.0 == app && r.1 == None
    ensures app.selectedTopic.Some? ==>
              && r.0.status == Loading
              && r.0.error == None
              && r.0.selectedTopic == app.selectedTopic
              && r.0.session == app.session
              && r.1 == Some(FetchCall(app.selectedTopic.value, count))
  {
    if app.selectedTopic.None? then (app, None)
    else (app.(status := Loading, error := None), Some(FetchCall(app.selectedTopic.value, count)))
  }

  /** The session a successful fetch creates: first question, nothing answered. */
  function NewSession(topic: Topic, count: int, questions: seq<Question>): (s: QuizSession)
    ensures s.topic == topic && s.count == count && s.questions == questions
    ensures s.currentQuestionIndex == 0 && s.correctCount == 0 && s.wrongCount == 0
    ensures !s.isAnswered && s.selectedOption == None
    ensures 0 < count <==> WellFormed(s)
  {
    QuizSession(topic, count, 0, 0, 0, questions, false, None)
  }

  /** Completion of a fetch with a list of questions. The session is built
      from the values the request captured, whatever the state is now. */
  function FetchSucceeded(app: AppState, call: FetchCall, questions: seq<Question>): (r: AppState)
    ensures r.status == Active
    ensures r.session == Some(NewSession(call.topic, call.count, questions))
    ensures r.selectedTopic == app.selectedTopic && r.error == app.error
  {
    app.(session := Some(NewSession(call.topic, call.count, questions)), status := Active)
  }

  /** Completion of a fetch with an error: back to setup with a message; the
      selected topic and any session stay as they are. */
  function FetchFailed(app: AppState): (r: AppState)
    ensures r.status == Setup && r.error == Some(FailureMessage)
    ensures r.selectedTopic == app.selectedTopic && r.session == app.session
  {
    app.(error := Some(FailureMessage), status := Setup)
  }

  /** Back to the topic list from anywhere; the error message is kept. */
  function HandleBackToHome(app: AppState): (r: AppState)
    ensures r.status == Idle && r.session == None && r.selectedTopic == None
    ensures r.error == app.error
  {
    app.(status := Idle, session := None, selectedTopic := None)
  }

  /** The end of a run; the session is not touched. */
  function HandleFinish(app: AppState): (r: AppState)
    ensures r.status == Finished
    ensures r.session == app.session && r.selectedTopic == app.selectedTopic && r.error == app.error
  {
    app.(status := Finished)
  }

  /** "Restart Quiz": the setup view for the finished session's topic. The
      count is asked again, nothing is fetched, and the old session is kept. */
  function Restart(app: AppState): (r: AppState)
    requires app.session.Some?
    ensures r.status == Setup && r.selectedTopic == Some(app.session.value.topic)
    ensures r.session == app.session && r.error == app.error
  {
    StartSetup(app, app.session.value.topic)
  }

  /** A fetch in flight: its identity and the values its completion will use. */
  datatype Request = Request(id: nat, call: FetchCall)

  /** The application state together with the fetches still in flight; `nextId`
      only tells concurrent requests apart. */
  datatype World = World(app: AppState, inFlight: set<Request>, nextId: nat)

  const Start := World(Initial, {}, 0)

  /** Everything that can happen: the user's actions and fetch completions. */
  datatype Event =
    | PickTopic(topic: Topic)
    | Begin(count: int)
    | Settle(req: Request, result: Provider.FetchResult)
    | GoHome
    | Choose(option: int)
    | Advance
    | RestartQuiz

  /** The session view is mounted and its current question exists. */
  predicate ShowsSession(app: AppState) {
    app.status == Active && app.session.Some? && HasCurrentQuestion(app.session.value)
  }

  /** The session view is mounted for a session whose current question does
      not exist: reading that question's text throws during render, and with
      no error boundary the whole page, header included, is unmounted. */
  predicate PageCrashed(app: AppState) {
    app.status == Active && app.session.Some? && !HasCurrentQuestion(app.session.value)
  }

  /** Which events the views offer in a world. Topic cards appear only on the
      topic list, the count buttons only in setup with a topic, the options
      and "Next" only on a rendered session ("Next" once answered), "Restart"
      only on the results view; the home link is always there. An option can
      arrive on an answered question: the handler's own guard absorbs it.
      After a crashed render nothing is offered, completions included: the
      state setters of an unmounted page have no effect. */
  predicate Offered(w: World, e: Event) {
    !PageCrashed(w.app) &&
    match e
    case PickTopic(_) => w.app.status == Idle
    case Begin(count) => w.app.status == Setup && w.app.selectedTopic.Some? && count in QuestionCountOptions
    case Settle(req, _) => req in w.inFlight
    case GoHome => true
    case Choose(i) =>
      ShowsSession(w.app) && 0 <= i < |CurrentQuestion(w.app.session.value).options|
    case Advance => ShowsSession(w.app) && w.app.session.value.isAnswered
    case RestartQuiz => w.app.status == Finished && w.app.session.Some?
  }

  /** What the source keeps invariant: a session is present whenever the
      session or results view is due, every session is well formed, a
      finished session has every question tallied, and every pending fetch
      asks for a positive count. */
  ghost predicate SourceInv(w: World) {
    && (w.app.status == Active || w.app.status == Finished ==> w.app.session.Some?)
    && (w.app.session.Some? ==> WellFormed(w.app.session.value))
    && (w.app.status == Finished ==> Completed(w.app.session.value))
    && (forall r :: r in w.inFlight ==> 0 < r.call.count)
  }

  /** One event, dispatched to the handler the view wires it to. */
  function Step(w: World, e: Event): (r: World)
    requires Offered(w, e)
    ensures SourceInv(w) ==> SourceInv(r)
  {
    match e
    case PickTopic(t) => w.(app := StartSetup(w.app, t))
    case Begin(count) =>
      var (app', call) := StartSession(w.app, count);
      if call.Some? then World(app', w.inFlight + {Request(w.nextId, call.value)}, w.nextId + 1)
      else w.(app := app')
    case Settle(req, result) =>
      var app' := if result.Fetched? then FetchSucceeded(w.app, req.call, result.questions)
                  else FetchFailed(w.app);
      w.(app := app', inFlight := w.inFlight - {req})
    case GoHome => w.(app := HandleBackToHome(w.app))
    case Choose(i) =>
      w.(app := w.app.(session := Some(SelectOption(w.app.session.value, i))))
    case Advance =>
      (match HandleNext(w.app.session.value)
       case Done => w.(app := HandleFinish(w.app))
       case Moved(s) => w.(app := w.app.(session := Some(s))))
    case RestartQuiz => w.(app := Restart(w.app))
  }

  /** Every event of the trace is offered in the world it reaches. */
  predicate Admissible(w: World, events: seq<Event>)
    decreases |events|
  {
    events == [] || (Offered(w, events[0]) && Admissible(Step(w, events[0]), events[1..]))
  }

  function Run(w: World, events: seq<Event>): World
    requires Admissible(w, events)
    decreases |events|
  {
    if events == [] then w else Run(Step(w, events[0]), events[1..])
  }

  /** The source invariant holds after any admissible trace. */
  lemma {:induction false} RunKeepsSourceInv(w: World, events: seq<Event>)
    requires SourceInv(w) && Admissible(w, events)
    ensures SourceInv(Run(w, events))
    decreases |events|
  {
    if events != [] {
      RunKeepsSourceInv(Step(w, events[0]), events[1..]);
    }
  }

  /** From start-up, every results view reports a tally for every question. */
  lemma FinishedRunTalliesEveryQuestion(events: seq<Event>)
    requires Admissible(Start, events)
    ensures var w := Run(Start, events);
            w.app.status == Finished ==>
              w.app.session.Some? && w.app.session.value.correctCount + w.app.session.value.wrongCount
                                       == w.app.session.value.count
  {
    RunKeepsSourceInv(Start, events);
  }

  /** The events of answering each question in turn: an option, then "Next". */
  function AnswerTrace(answers: seq<int>): (events: seq<Event>)
    ensures |events| == 2 * |answers|
  {
    if answers == [] then [] else [Choose(answers[0]), Advance] + AnswerTrace(answers[1..])
  }

  /** Playing a session to its end through the views: from an active,
      unanswered session whose remaining questions all exist and are well
      shaped, choosing an option and pressing "Next" for each remaining
      question is offered at every step and ends on the results view, with
      the session `Play` computes and every question tallied. Topic, error
      and pending fetches are untouched. */
  lemma {:induction false} AnsweringEveryQuestionFinishes(w: World, answers: seq<int>)
    requires w.app.status == Active && w.app.session.Some?
    requires WellFormed(w.app.session.value) && !w.app.session.value.isAnswered
    requires w.app.session.value.count <= |w.app.session.value.questions|
    requires forall k :: 0 <= k < |w.app.session.value.questions| ==> ValidQuestion(w.app.session.value.questions[k])
    requires |answers| == w.app.session.value.count - w.app.session.value.currentQuestionIndex
    requires forall k :: 0 <= k < |answers| ==> 0 <= answers[k] < OptionsPerQuestion
    ensures Admissible(w, AnswerTrace(answers))
    ensures Play(w.app.session.value, answers).Completes?
    ensures Run(w, AnswerTrace(answers)).app.status == Finished
    ensures Run(w, AnswerTrace(answers)).app.session == Some(Play(w.app.session.value, answers).last)
    ensures Completed(Run(w, AnswerTrace(answers)).app.session.value)
    ensures Run(w, AnswerTrace(answers)).app.selectedTopic == w.app.selectedTopic
    ensures Run(w, AnswerTrace(answers)).app.error == w.app.error
    ensures Run(w, AnswerTrace(answers)).inFlight == w.inFlight
    decreases |answers|
  {
    var s := w.app.session.value;
    PlayScoresEveryAnswer(s, answers);
    var events := AnswerTrace(answers);
    assert events[0] == Choose(answers[0]);
    assert ValidQuestion(CurrentQuestion(s));
    var w1 := Step(w, Choose(answers[0]));
    var s1 := SelectOption(s, answers[0]);
    assert w1.app.session == Some(s1);
    assert events[1..][0] == Advance;
    var w2 := Step(w1, Advance);
    assert events[1..][1..] == AnswerTrace(answers[1..]);
    match HandleNext(s1)
    case Done =>
      assert answers[1..] == [];
      assert w2.app.status == Finished && w2.app.session == Some(s1);
      assert Admissible(w2, events[1..][1..]);
      assert Run(w, events) == Run(w1, events[1..]) == Run(w2, events[1..][1..]) == w2;
    case Moved(s2) =>
      assert w2.app == w.app.(session := Some(s2));
      AnsweringEveryQuestionFinishes(w2, answers[1..]);
      assert Run(w, events) == Run(w1, events[1..]) == Run(w2, events[1..][1..]);
  }

  /** Every session holds as many questions as it asks for. */
  ghost predicate SessionsComplete(w: World) {
    w.app.session.Some? ==> |w.app.session.value.questions| == w.app.session.value.count
  }

  /** The fetch kept its promise of exactly `count` questions. */
  predicate DeliversInFull(e: Event) {
    e.Settle? && e.result.Fetched? ==> |e.result.questions| == e.req.call.count
  }

  /** A fetch with the length check produces only completions that deliver in full. */
  lemma CheckedFetchDeliversInFull(req: Request, outcomes: seq<Provider.Outcome>)
    requires 0 < req.call.count
    requires Provider.NumBatches(req.call.count) <= |outcomes|
    ensures DeliversInFull(Settle(req, Provider.FetchChecked(req.call.count, outcomes)))
  {
  }

  /** When every completion delivers in full, as the length-checked fetch
      guarantees, an active session always has a current question to show. */
  lemma {:induction false} FullDeliveryKeepsSessionShown(w: World, events: seq<Event>)
    requires SourceInv(w) && SessionsComplete(w) && Admissible(w, events)
    requires forall k :: 0 <= k < |events| ==> DeliversInFull(events[k])
    ensures SessionsComplete(Run(w, events))
    ensures Run(w, events).app.status == Active ==> ShowsSession(Run(w, events).app)
    decreases |events|
  {
    if events == [] {
    } else {
      var w' := Step(w, events[0]);
      assert SessionsComplete(w');
      FullDeliveryKeepsSessionShown(w', events[1..]);
    }
  }

  /** As written, an under-delivering provider produces an active session
      whose current question does not exist: two empty answers to a request
      for 20 questions open a session with no questions at all, the render
      crashes and the page offers nothing any more. */
  lemma UnderDeliveredSessionHasNoCurrentQuestion(t: Topic)
    ensures var w1 := Step(Start, PickTopic(t));
            var w2 := Step(w1, Begin(20));
            var req := Request(0, FetchCall(t, 20));
            var result := Provider.Fetch(20, [Provider.Empty, Provider.Empty]);
            && Offered(w2, Settle(req, result))
            && Step(w2, Settle(req, result)).app.status == Active
            && PageCrashed(Step(w2, Settle(req, result)).app)
            && forall e :: !Offered(Step(w2, Settle(req, result)), e)
  {
    Provider.EmptyAnswersFetchNothing(20, [Provider.Empty, Provider.Empty]);
  }
  /** As written, a fetch that completes after the user went back to the
      topic list still opens its session: the abandoned quiz comes back. */
  lemma StaleSuccessReopensAbandonedQuiz(t: Topic, qs: seq<Question>)
    ensures var w1 := Step(Start, PickTopic(t));
            var w2 := Step(w1, Begin(20));
            var w3 := Step(w2, GoHome);
            var req := Request(0, FetchCall(t, 20));
            && w3.app.status == Idle
            && Offered(w3, Settle(req, Provider.Fetched(qs, 2)))
            && Step(w3, Settle(req, Provider.Fetched(qs, 2))).app.status == Active
            && Step(w3, Settle(req, Provider.Fetched(qs, 2))).app.session == Some(NewSession(t, 20, qs))
  {
  }

  /** The reopened session is built from the values the request captured:
      after going home and picking another topic, a late success opens a
      quiz on the abandoned topic while the new topic stays selected, and the
      settled request is no longer in flight. */
  lemma StaleSuccessUsesCapturedTopic(t: Topic, u: Topic, qs: seq<Question>)
    requires t != u
    ensures var w1 := Step(Start, PickTopic(t));
            var w2 := Step(w1, Begin(20));
            var w3 := Step(w2, GoHome);
            var w4 := Step(w3, PickTopic(u));
            var req := Request(0, FetchCall(t, 20));
            var w5 := Step(w4, Settle(req, Provider.Fetched(qs, 2)));
            && Offered(w4, Settle(req, Provider.Fetched(qs, 2)))
            && w5.app.status == Active
            && w5.app.session == Some(NewSession(t, 20, qs))
            && w5.app.selectedTopic == Some(u)
            && req !in w5.inFlight
  {
  }

  /** "Restart Quiz" on the results view goes through `Restart`: setup for the
      finished session's topic, the old session kept, nothing fetched. */
  lemma RestartFromResults(w: World)
    requires Offered(w, RestartQuiz)
    ensures Step(w, RestartQuiz).app.status == Setup
    ensures Step(w, RestartQuiz).app.selectedTopic == Some(w.app.session.value.topic)
    ensures Step(w, RestartQuiz).app.session == w.app.session
    ensures Step(w, RestartQuiz).app.error == w.app.error
    ensures Step(w, RestartQuiz).inFlight == w.inFlight
  {
  }

  /** As written, a fetch that fails after the user went back to the topic
      list leaves the setup view due with no topic selected: the setup view
      needs a topic, so the main area is empty and only the header, with its
      home link, and the footer remain. */
  lemma StaleFailureLeavesSetupWithoutTopic(t: Topic)
    ensures var w1 := Step(Start, PickTopic(t));
            var w2 := Step(w1, Begin(20));
            var w3 := Step(w2, GoHome);
            var req := Request(0, FetchCall(t, 20));
            var failed := Provider.Failed(1, Provider.ProviderFailure);
            && Offered(w3, Settle(req, failed))
            && Step(w3, Settle(req, failed)).app.status == Setup
            && Step(w3, Settle(req, failed)).app.selectedTopic == None
  {
  }

  /** The error message of a failed fetch survives going home and is shown
      again on the next setup view, whatever topic is picked there. */
  lemma ErrorOutlivesGoingHome(t: Topic, u: Topic)
    ensures var w1 := Step(Start, PickTopic(t));
            var w2 := Step(w1, Begin(20));
            var req := Request(0, FetchCall(t, 20));
            var failed := Provider.Failed(1, Provider.ProviderFailure);
            var w3 := Step(w2, Settle(req, failed));
            var w4 := Step(w3, GoHome);
            && Offered(w4, PickTopic(u))
            && Step(w4, PickTopic(u)).app.status == Setup
            && Step(w4, PickTopic(u)).app.selectedTopic == Some(u)
            && Step(w4, PickTopic(u)).app.error == Some(FailureMessage)
  {
  }
}
