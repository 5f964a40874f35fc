/**
 * The quiz builder page: a list of questions with a current index, the quiz
 * settings, and the payload its submit sends to the quiz endpoint.
 */
module QuizBuilder {
  import opened Wrappers
  import opened JsText
  import opened QuizOptions
  import QuizEditor

  datatype Settings = Settings(
    title: string, description: string, level: string,
    passingScore: int, maxAttempts: int, timeLimit: int,
    randomizeQuestions: bool, showFeedback: bool, showResults: bool)

  datatype PayloadOption = PayloadOption(text: string, correct: bool)

  datatype PayloadQuestion = PayloadQuestion(
    question: string, explanation: string, point: int, isboolean: bool, options: seq<PayloadOption>)

  datatype Payload = Payload(
    title: string, description: string, instructor: string, scholarityConfigId: string,
    totalAttempts: int, totalTimeTaken: int, successRate: int, score: int,
    questions: seq<PayloadQuestion>)

  const KeepOneQuestion: string := "Vous devez avoir au moins une question"
  const UnknownInstructor: string := "UNKNOWN_INSTRUCTOR"

  function ProblemMessage(p: Problem): string {
    match p
    case BlankTitle => "Le titre du quiz est obligatoire"
    case BlankQuestionText => "Toutes les questions doivent avoir un texte"
    case BlankOptionText => "Toutes les options de réponse doivent avoir un texte"
  }

  /** `q.points || 1`: a zero score counts as one point. */
  function ScoreOf(q: Question): int {
    if q.points == 0 then 1 else q.points
  }

  /** The reduce over the questions: the sum of their scores. */
  function TotalScore(qs: seq<Question>): int {
    if qs == [] then 0 else TotalScore(qs[..|qs| - 1]) + ScoreOf(qs[|qs| - 1])
  }

  /** With no negative points every question adds at least one point. */
  lemma {:induction false} TotalScoreAtLeastCount(qs: seq<Question>)
    requires forall i :: 0 <= i < |qs| ==> qs[i].points >= 0
    ensures TotalScore(qs) >= |qs|
  {
    if qs != [] {
      TotalScoreAtLeastCount(qs[..|qs| - 1]);
    }
  }

  /** `Math.round(passingScore / 100 * total)`, the threshold sent as successRate. */
  function Threshold(passingScore: int, total: int): (r: int)
    ensures 100 * r - 50 <= passingScore * total < 100 * r + 50
  {
    (passingScore * total + 50) / 100
  }

  /** The payload form of a question; `isboolean` tests the type name "boolean". */
  function ToPayloadQuestion(q: Question): (p: PayloadQuestion)
    ensures p.question == q.text && p.explanation == q.explanation && p.point == q.points
    ensures p.isboolean <==> q.kind == "boolean"
    ensures |p.options| == |q.options|
    ensures forall j :: 0 <= j < |q.options| ==> p.options[j] == PayloadOption(q.options[j].text, q.options[j].isCorrect)
  {
    PayloadQuestion(q.text, q.explanation, q.points, q.kind == "boolean",
      seq(|q.options|, j requires 0 <= j < |q.options| => PayloadOption(q.options[j].text, q.options[j].isCorrect)))
  }

  /** `user?._id || "UNKNOWN_INSTRUCTOR"`. */
  function Instructor(userId: Option<string>): string {
    if userId.Some? && userId.value != "" then userId.value else UnknownInstructor
  }

  function BuildPayload(s: Settings, qs: seq<Question>, userId: Option<string>, scholarityConfigId: string): (p: Payload)
    ensures |p.questions| == |qs| && forall i :: 0 <= i < |qs| ==> p.questions[i] == ToPayloadQuestion(qs[i])
    ensures p.score == TotalScore(qs) && p.successRate == Threshold(s.passingScore, TotalScore(qs))
    ensures p.totalAttempts == s.maxAttempts && p.totalTimeTaken == s.timeLimit
    ensures p.instructor != ""
  {
    var total := TotalScore(qs);
    Payload(s.title, s.description, Instructor(userId), scholarityConfigId,
      s.maxAttempts, s.timeLimit, Threshold(s.passingScore, total), total,
      seq(|qs|, i requires 0 <= i < |qs| => ToPayloadQuestion(qs[i])))
  }

  /** The last '-'-separated piece of an option id (`id.split("-").pop()`). */
  function LastPiece(id: string): string {
    var parts := Split(id, '-');
    parts[|parts| - 1]
  }

  /** The copy duplicateQuestion inserts: new ids, text marked " (copie)", same option texts and flags. */
  function Duplicate(q: Question, stamp: string): (d: Question)
    ensures d.id == "q-" + stamp && d.text == q.text + " (copie)"
    ensures d.explanation == q.explanation && d.kind == q.kind && d.points == q.points
    ensures |d.options| == |q.options|
    ensures forall j :: 0 <= j < |q.options| ==>
      d.options[j].text == q.options[j].text && d.options[j].isCorrect == q.options[j].isCorrect &&
      d.options[j].id == "opt-" + stamp + "-" + LastPiece(q.options[j].id)
  {
    q.(id := "q-" + stamp, text := q.text + " (copie)",
       options := seq(|q.options|, j requires 0 <= j < |q.options| =>
         q.options[j].(id := "opt-" + stamp + "-" + LastPiece(q.options[j].id))))
  }

  /** The index after removing the current question from `n`: the last one steps back to `max(0, n - 2)`. */
  function IndexAfterRemoval(current: int, n: int): (r: int)
    ensures 0 <= current < n && n >= 2 ==> 0 <= r < n - 1
    ensures current < n - 1 ==> r == current
  {
    if current >= n - 1 then (if 0 > n - 2 then 0 else n - 2) else current
  }

  class Builder {
    var settings: Settings
    var questions: seq<Question>
    var current: int

    /** There is always a question, and the current index points at one. */
    predicate Valid()
      reads this
    {
      |questions| >= 1 && 0 <= current < |questions|
    }

    /** The builder starts with one blank single-choice question and the default settings. */
    constructor ()
      ensures Valid() && current == 0
      ensures questions == [Question("1", "", "", "choix-unique", 1, [Choice("opt-1-1", "", true)])]
      ensures settings == Settings("1", "", "débutant", 70, 3, 30, false, true, true)
    {
      settings := Settings("1", "", "débutant", 70, 3, 30, false, true, true);
      questions := [Question("1", "", "", "choix-unique", 1, [Choice("opt-1-1", "", true)])];
      current := 0;
    }

    /** addQuestion: appends a default question and selects it. */
    method AddQuestion(stamp: string)
      modifies this
      ensures questions == old(questions) + [DefaultQuestion(stamp)]
      ensures current == |old(questions)| && settings == old(settings)
      ensures Valid()
    {
      current := |questions|;
      questions := questions + [DefaultQuestion(stamp)];
    }

    /** duplicateQuestion: the copy goes right after the current question and becomes current. */
    method DuplicateQuestion(stamp: string)
      requires Valid()
      modifies this
      ensures questions == old(questions[..current + 1]) + [Duplicate(old(questions[current]), stamp)] + old(questions[current + 1..])
      ensures current == old(current) + 1 && settings == old(settings)
      ensures Valid()
    {
      var copy := Duplicate(questions[current], stamp);
      questions := questions[..current + 1] + [copy] + questions[current + 1..];
      current := current + 1;
    }

    /**
     * removeQuestion: refused with a single question; otherwise the current
     * question goes, and the index falls back when it pointed at the last one.
     */
    method RemoveQuestion() returns (toast: Option<string>)
      requires Valid()
      modifies this
      ensures toast.Some? <==> |old(questions)| <= 1
      ensures toast.Some? ==> toast.value == KeepOneQuestion && questions == old(questions) && current == old(current)
      ensures toast.None? ==> questions == old(questions[..current]) + old(questions[current + 1..])
      ensures toast.None? ==> current == IndexAfterRemoval(old(current), |old(questions)|)
      ensures settings == old(settings) && Valid()
    {
      if |questions| <= 1 {
        return Some(KeepOneQuestion);
      }
      var n := |questions|;
      questions := questions[..current] + questions[current + 1..];
      if current >= n - 1 {
        current := if 0 > n - 2 then 0 else n - 2;
      }
      toast := None;
    }

    /** updateQuestion: only the current question is replaced. */
    method UpdateQuestion(updated: Question)
      modifies this
      ensures questions == if 0 <= old(current) < |old(questions)| then old(questions)[old(current) := updated] else old(questions)
      ensures current == old(current) && settings == old(settings)
    {
      if 0 <= current < |questions| {
        questions := questions[current := updated];
      }
    }

    /** navigateToQuestion: only existing indices are accepted. */
    method NavigateToQuestion(index: int)
      modifies this
      ensures current == if 0 <= index < |old(questions)| then index else old(current)
      ensures questions == old(questions) && settings == old(settings)
    {
      if 0 <= index < |questions| {
        current := index;
      }
    }

    /** handleSubmit: the payload sent, or the toast shown instead; nothing changes. */
    method Submit(userId: Option<string>, scholarityConfigId: string) returns (sent: Result<Payload>)
      ensures sent.Err? <==> FirstProblem(settings.title, questions).Some?
      ensures sent.Err? ==> sent.msg == ProblemMessage(FirstProblem(settings.title, questions).value)
      ensures sent.Ok? ==> sent.value == BuildPayload(settings, questions, userId, scholarityConfigId)
    {
      var problem := FirstProblem(settings.title, questions);
      if problem.Some? {
        return Err(ProblemMessage(problem.value));
      }
      sent := Ok(BuildPayload(settings, questions, userId, scholarityConfigId));
    }
  }

  /** Removing the inserted copy gives back the questions as they were. */
  lemma DuplicateThenRemove(qs: seq<Question>, c: int, stamp: string)
    requires 0 <= c < |qs|
    ensures var dup := qs[..c + 1] + [Duplicate(qs[c], stamp)] + qs[c + 1..];
            dup[..c + 1] + dup[c + 2..] == qs
  {
    var dup := qs[..c + 1] + [Duplicate(qs[c], stamp)] + qs[c + 1..];
    assert dup[..c + 1] == qs[..c + 1];
    assert dup[c + 2..] == qs[c + 1..];
  }

  /** Adding a default question adds exactly one point to the score. */
  lemma AddQuestionScore(qs: seq<Question>, stamp: string)
    ensures TotalScore(qs + [DefaultQuestion(stamp)]) == TotalScore(qs) + 1
  {
    assert (qs + [DefaultQuestion(stamp)])[..|qs|] == qs;
  }

  /**
   * As written, a question the editor switched to true/false is sent with
   * isboolean false: the editor names that type "vrai-faux".
   */
  lemma TrueFalseNotFlagged(q: Question, stamp: string)
    ensures var tf := QuizEditor.TypeChange(q, "vrai-faux", stamp).value;
            tf.kind == "vrai-faux" && !ToPayloadQuestion(tf).isboolean
  {
  }

  /** The flag as intended: true exactly for the editor's true/false type. */
  function IntendedIsBoolean(q: Question): bool {
    q.kind == "vrai-faux"
  }

  /** With the intended flag every question the editor made true/false is sent as boolean. */
  lemma TrueFalseFlagged(q: Question, value: string, stamp: string)
    requires QuizEditor.TypeChange(q, value, stamp).Ok?
    ensures IntendedIsBoolean(QuizEditor.TypeChange(q, value, stamp).value) <==> value == "vrai-faux"
  {
  }
}
