/** The shapes shared by the whole application: questions, topics, the quiz
    session record and the application status, together with the
    well-formedness predicates the rest of the model keeps. */
module Types {
  import opened Options

  /** One multiple-choice question as the provider returns it. The type does
      not force four options or an answer index in range; `ValidQuestion`
      states that shape separately. */
  datatype Question = Question(
    question: string,
    options: seq<string>,
    correctAnswerIndex: int,
    explanation: string,
    hint: string
  )

  /** A catalog entry; the icon is an opaque display token. */
  datatype Topic = Topic(id: string, name: string, icon: string, description: string)

  /** Which view the application shows. */
  datatype SessionStatus = Idle | Setup | Loading | Active | Finished

  /** One practice run: fixed topic, requested count and questions, plus the
      pointer, the two tallies and the per-question answer state. */
  datatype QuizSession = QuizSession(
    topic: Topic,
    count: int,
    currentQuestionIndex: int,
    correctCount: int,
    wrongCount: int,
    questions: seq<Question>,
    isAnswered: bool,
    selectedOption: Option<int>
  )

  const OptionsPerQuestion := 4

  /** The shape the generation request asks for: exactly four options and an
      answer index among them. */
  predicate ValidQuestion(q: Question) {
    |q.options| == OptionsPerQuestion && 0 <= q.correctAnswerIndex < OptionsPerQuestion
  }

  /** A selected option is recorded exactly when the current question is answered. */
  predicate SelectionConsistent(s: QuizSession) {
    s.selectedOption.Some? <==> s.isAnswered
  }

  /** 1 when the current question has been answered, else 0. */
  function AnsweredCount(s: QuizSession): nat {
    if s.isAnswered then 1 else 0
  }

  /** The progression invariant of a running session: the pointer is inside
      the requested count and every answered question has been tallied once. */
  predicate WellFormed(s: QuizSession) {
    && 0 < s.count
    && 0 <= s.currentQuestionIndex < s.count
    && 0 <= s.correctCount
    && 0 <= s.wrongCount
    && s.correctCount + s.wrongCount == s.currentQuestionIndex + AnsweredCount(s)
    && SelectionConsistent(s)
  }

  /** The pointer designates a question that actually exists. */
  predicate HasCurrentQuestion(s: QuizSession) {
    0 <= s.currentQuestionIndex < |s.questions|
  }

  /** A finished run: the last question is answered and every question tallied. */
  predicate Completed(s: QuizSession) {
    s.isAnswered && s.correctCount + s.wrongCount == s.count
  }
}
