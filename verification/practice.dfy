/** Per-question scoring and progression of a running session: choosing an
    option and moving to the next question. */
module Practice {
  import opened Options
  import opened Types

  function CurrentQuestion(s: QuizSession): Question
    requires HasCurrentQuestion(s)
  {
    s.questions[s.currentQuestionIndex]
  }

  /** The parts of a session fixed at creation are the same in both. */
  predicate SameQuiz(a: QuizSession, b: QuizSession) {
    a.topic == b.topic && a.count == b.count && a.questions == b.questions
  }

  /** The verdict line shows "CORRECT!" (rather than "WRONG") for an answered question. */
  predicate ShowsCorrect(s: QuizSession)
    requires HasCurrentQuestion(s)
  {
    s.isAnswered && s.selectedOption == Some(CurrentQuestion(s).correctAnswerIndex)
  }

  /** Choosing option `i`. Ignored once the question is answered; otherwise
      records the choice and moves exactly one tally. The current question is
      read only on the unanswered path, so only there must it exist. */
  function SelectOption(s: QuizSession, i: int): (r: QuizSession)
    requires !s.isAnswered ==> HasCurrentQuestion(s)
    ensures SameQuiz(r, s) && r.currentQuestionIndex == s.currentQuestionIndex
    ensures s.isAnswered ==> r == s
    ensures !s.isAnswered ==> r.isAnswered && r.selectedOption == Some(i)
    ensures !s.isAnswered ==>
              if i == CurrentQuestion(s).correctAnswerIndex
              then r.correctCount == s.correctCount + 1 && r.wrongCount == s.wrongCount
              else r.wrongCount == s.wrongCount + 1 && r.correctCount == s.correctCount
    ensures !s.isAnswered ==> (ShowsCorrect(r) <==> r.correctCount == s.correctCount + 1)
    ensures WellFormed(s) ==> WellFormed(r)
  {
    if s.isAnswered then s
    else
      var isCorrect := i == CurrentQuestion(s).correctAnswerIndex;
      s.(isAnswered := true,
         selectedOption := Some(i),
         correctCount := if isCorrect then s.correctCount + 1 else s.correctCount,
         wrongCount := if !isCorrect then s.wrongCount + 1 else s.wrongCount)
  }

  /** What pressing "Next" does: a new session state, or the end of the run. */
  datatype Progress = Moved(session: QuizSession) | Done

  /** Pressing "Next": past the last question the run ends with the session
      untouched; otherwise the pointer moves on and the answer state resets. */
  function HandleNext(s: QuizSession): (p: Progress)
    ensures p.Done? <==> s.count <= s.currentQuestionIndex + 1
    ensures p.Moved? ==>
              && SameQuiz(p.session, s)
              && p.session.currentQuestionIndex == s.currentQuestionIndex + 1
              && !p.session.isAnswered
              && p.session.selectedOption == None
              && p.session.correctCount == s.correctCount
              && p.session.wrongCount == s.wrongCount
    ensures WellFormed(s) && s.isAnswered && p.Moved? ==> WellFormed(p.session)
    ensures WellFormed(s) && s.isAnswered && p.Done? ==> Completed(s)
  {
    if s.count <= s.currentQuestionIndex + 1 then Done
    else Moved(s.(currentQuestionIndex := s.currentQuestionIndex + 1,
                  isAnswered := false,
                  selectedOption := None))
  }

  /** How many of the answers pick the correct option of the matching question. */
  function Matches(qs: seq<Question>, answers: seq<int>): nat
    requires |qs| == |answers|
  {
    if |qs| == 0 then 0
    else (if answers[0] == qs[0].correctAnswerIndex then 1 else 0) + Matches(qs[1..], answers[1..])
  }

  /** Where playing a list of answers ends: the run finished, or answers ran out. */
  datatype PlayEnd = Completes(last: QuizSession) | Pauses(at: QuizSession)

  /** Answer the current question with each element of `answers` in turn,
      pressing "Next" after each one. */
  function Play(s: QuizSession, answers: seq<int>): PlayEnd
    requires WellFormed(s) && !s.isAnswered && s.count <= |s.questions|
    decreases |answers|
  {
    if answers == [] then Pauses(s)
    else
      var answered := SelectOption(s, answers[0]);
      match HandleNext(answered)
      case Done => Completes(answered)
      case Moved(next) => Play(next, answers[1..])
  }

  /** Answering every remaining question finishes the run with every question
      tallied, and the correct tally grows by exactly the number of answers
      that match the questions' correct options. */
  lemma {:induction false} PlayScoresEveryAnswer(s: QuizSession, answers: seq<int>)
    requires WellFormed(s) && !s.isAnswered && s.count <= |s.questions|
    requires |answers| == s.count - s.currentQuestionIndex
    ensures Play(s, answers).Completes?
    ensures Completed(Play(s, answers).last)
    ensures Play(s, answers).last.correctCount
              == s.correctCount + Matches(s.questions[s.currentQuestionIndex..s.count], answers)
    decreases |answers|
  {
    var qs := s.questions[s.currentQuestionIndex..s.count];
    var answered := SelectOption(s, answers[0]);
    match HandleNext(answered)
    case Done =>
      assert qs[1..] == [];
    case Moved(next) =>
      PlayScoresEveryAnswer(next, answers[1..]);
      assert qs[1..] == next.questions[next.currentQuestionIndex..next.count];
  }

  /** "Next" is shown only once the question is answered, and that guard is
      what makes the final tally complete: pressed on an unanswered last
      question, the run would end with that question never counted. */
  lemma UnansweredNextWouldMissATally(t: Topic, q: Question)
    ensures var s := QuizSession(t, 1, 0, 0, 0, [q], false, None);
            && WellFormed(s)
            && HandleNext(s).Done?
            && !Completed(s)
  {
  }
}
