/**
 * The QCM creation form: quiz settings, a question list edited one question
 * at a time, and the submit checks.
 */
module QuizParametre {
  import opened Wrappers
  import opened JsText
  import opened QuizOptions

  const KeepOneQuestion: string := "Vous devez avoir au moins une question"
  const Created: string := "Le QCM a été créé avec succès"

  function ProblemMessage(p: Problem): string {
    match p
    case BlankTitle => "Le titre du QCM est obligatoire"
    case BlankQuestionText => "Toutes les questions doivent avoir un texte"
    case BlankOptionText => "Toutes les options de réponse doivent avoir un texte"
  }

  /** The numeric inputs of the settings panel. */
  datatype NumberField = PassingScore | MaxAttempts | TimeLimit

  /** `questions.findIndex(q => q.id === id)`: the first index with that id, or -1. */
  function FindIndex(qs: seq<Question>, id: string): (k: int)
    ensures -1 <= k < |qs|
    ensures k == -1 <==> forall i :: 0 <= i < |qs| ==> qs[i].id != id
    ensures k >= 0 ==> qs[k].id == id && forall i :: 0 <= i < k ==> qs[i].id != id
  {
    if qs == [] then -1
    else if qs[0].id == id then 0
    else
      var k := FindIndex(qs[1..], id);
      if k == -1 then -1 else k + 1
  }

  /** `questions.filter(q => q.id !== id)`. */
  function WithoutQuestion(qs: seq<Question>, id: string): (r: seq<Question>)
    ensures |r| <= |qs|
    ensures forall q :: q in r <==> q in qs && q.id != id
  {
    if qs == [] then []
    else (if qs[0].id != id then [qs[0]] else []) + WithoutQuestion(qs[1..], id)
  }

  /** The filter works element by element, so it keeps the remaining questions in their order. */
  lemma {:induction false} WithoutQuestionAppend(a: seq<Question>, b: seq<Question>, id: string)
    ensures WithoutQuestion(a + b, id) == WithoutQuestion(a, id) + WithoutQuestion(b, id)
  {
    if a == [] {
      assert a + b == b;
    } else {
      assert (a + b)[1..] == a[1..] + b;
      WithoutQuestionAppend(a[1..], b, id);
    }
  }

  predicate DistinctQuestionIds(qs: seq<Question>) {
    forall i, j :: 0 <= i < j < |qs| ==> qs[i].id != qs[j].id
  }

  lemma {:induction false} WithoutAbsentQuestion(qs: seq<Question>, id: string)
    requires forall i :: 0 <= i < |qs| ==> qs[i].id != id
    ensures WithoutQuestion(qs, id) == qs
  {
    if qs != [] {
      WithoutAbsentQuestion(qs[1..], id);
    }
  }

  /** With distinct ids, removing by id removes exactly that position. */
  lemma {:induction false} WithoutQuestionAt(qs: seq<Question>, k: nat)
    requires DistinctQuestionIds(qs) && k < |qs|
    ensures WithoutQuestion(qs, qs[k].id) == qs[..k] + qs[k + 1..]
  {
    if k == 0 {
      FirstIdNotInTail(qs);
      WithoutAbsentQuestion(qs[1..], qs[0].id);
    } else {
      DistinctQuestionsTail(qs);
      assert qs[1..][k - 1] == qs[k];
      WithoutQuestionAt(qs[1..], k - 1);
      WithoutQuestionStep(qs, k);
    }
  }

  /** Removing a later question's id keeps the first question in front. */
  lemma WithoutQuestionStep(qs: seq<Question>, k: nat)
    requires 0 < k < |qs| && qs[0].id != qs[k].id
    requires WithoutQuestion(qs[1..], qs[k].id) == qs[1..][..k - 1] + qs[1..][k..]
    ensures WithoutQuestion(qs, qs[k].id) == qs[..k] + qs[k + 1..]
  {
    assert WithoutQuestion(qs, qs[k].id) == [qs[0]] + WithoutQuestion(qs[1..], qs[k].id);
    ConsSplice(qs, k);
  }

  lemma ConsSplice<T>(s: seq<T>, k: nat)
    requires 0 < k < |s|
    ensures [s[0]] + (s[1..][..k - 1] + s[1..][k..]) == s[..k] + s[k + 1..]
  {
    assert s[1..][..k - 1] == s[1..k];
    assert s[1..][k..] == s[k + 1..];
    assert s[..k] == [s[0]] + s[1..k];
  }

  lemma FirstIdNotInTail(qs: seq<Question>)
    requires DistinctQuestionIds(qs) && qs != []
    ensures forall i :: 0 <= i < |qs[1..]| ==> qs[1..][i].id != qs[0].id
  {
    forall i | 0 <= i < |qs[1..]| ensures qs[1..][i].id != qs[0].id {
      assert qs[1..][i] == qs[i + 1];
    }
  }

  lemma DistinctQuestionsTail(qs: seq<Question>)
    requires DistinctQuestionIds(qs) && qs != []
    ensures DistinctQuestionIds(qs[1..])
  {
    var tail := qs[1..];
    forall i, j | 0 <= i < j < |tail| ensures tail[i].id != tail[j].id {
      assert tail[i] == qs[i + 1] && tail[j] == qs[j + 1];
    }
  }

  /** The index removeQuestion selects afterwards. */
  function IndexAfterRemoval(current: int, n: int, removedAt: int): int {
    if current >= n - 1 then (if 0 > n - 2 then 0 else n - 2)
    else if removedAt < current then current - 1
    else current
  }

  class Form {
    var title: string
    var description: string
    var level: string
    var passingScore: int
    var maxAttempts: int
    var timeLimit: int
    var questions: seq<Question>
    var current: int

    /** The form starts blank with one default question and the default settings. */
    constructor ()
      ensures title == "" && description == "" && level == "débutant"
      ensures passingScore == 70 && maxAttempts == 3 && timeLimit == 30
      ensures questions == [Question("q-1", "", "", "choix-unique", 1, [Choice("opt-1-1", "", true)])]
      ensures current == 0
    {
      title, description, level := "", "", "débutant";
      passingScore, maxAttempts, timeLimit := 70, 3, 30;
      questions := [Question("q-1", "", "", "choix-unique", 1, [Choice("opt-1-1", "", true)])];
      current := 0;
    }

    /** handleNumberInputChange: the field changes only when the input parses as an integer. */
    method NumberInputChange(field: NumberField, value: string)
      modifies this
      ensures var n := ParseInt(value);
        passingScore == (if n.Some? && field == PassingScore then n.value else old(passingScore)) &&
        maxAttempts == (if n.Some? && field == MaxAttempts then n.value else old(maxAttempts)) &&
        timeLimit == (if n.Some? && field == TimeLimit then n.value else old(timeLimit))
      ensures questions == old(questions) && current == old(current) && title == old(title)
      ensures description == old(description) && level == old(level)
    {
      var n := ParseInt(value);
      if n.Some? {
        match field
        case PassingScore => passingScore := n.value;
        case MaxAttempts => maxAttempts := n.value;
        case TimeLimit => timeLimit := n.value;
      }
    }

    /** handleQuestionChange: every question with that id is replaced; the others stay. */
    method QuestionChange(id: string, updated: Question)
      modifies this
      ensures |questions| == |old(questions)|
      ensures forall i :: 0 <= i < |questions| ==>
        questions[i] == if old(questions)[i].id == id then updated else old(questions)[i]
      ensures current == old(current) && title == old(title)
      ensures description == old(description) && level == old(level)
      ensures passingScore == old(passingScore) && maxAttempts == old(maxAttempts) && timeLimit == old(timeLimit)
    {
      var qs := questions;
      questions := seq(|qs|, i requires 0 <= i < |qs| => if qs[i].id == id then updated else qs[i]);
    }

    /** addQuestion: appends a default question and selects it. */
    method AddQuestion(stamp: string)
      modifies this
      ensures questions == old(questions) + [DefaultQuestion(stamp)]
      ensures current == |old(questions)| && title == old(title)
      ensures description == old(description) && level == old(level)
      ensures passingScore == old(passingScore) && maxAttempts == old(maxAttempts) && timeLimit == old(timeLimit)
    {
      current := |questions|;
      questions := questions + [DefaultQuestion(stamp)];
    }

    /** removeQuestion: refused with one question; otherwise removes by id and moves the index. */
    method RemoveQuestion(id: string) returns (toast: Option<string>)
      modifies this
      ensures toast.Some? <==> |old(questions)| <= 1
      ensures toast.Some? ==> toast.value == KeepOneQuestion && questions == old(questions) && current == old(current)
      ensures toast.None? ==> questions == WithoutQuestion(old(questions), id)
      ensures toast.None? ==> current == IndexAfterRemoval(old(current), |old(questions)|, FindIndex(old(questions), id))
      ensures title == old(title)
      ensures description == old(description) && level == old(level)
      ensures passingScore == old(passingScore) && maxAttempts == old(maxAttempts) && timeLimit == old(timeLimit)
    {
      if |questions| <= 1 {
        return Some(KeepOneQuestion);
      }
      var questionIndex := FindIndex(questions, id);
      var n := |questions|;
      questions := WithoutQuestion(questions, id);
      if current >= n - 1 {
        current := if 0 > n - 2 then 0 else n - 2;
      } else if questionIndex < current {
        current := current - 1;
      }
      toast := None;
    }

    /** navigateToQuestion: only existing indices are accepted. */
    method NavigateToQuestion(index: int)
      modifies this
      ensures current == if 0 <= index < |old(questions)| then index else old(current)
      ensures questions == old(questions) && title == old(title)
      ensures description == old(description) && level == old(level)
      ensures passingScore == old(passingScore) && maxAttempts == old(maxAttempts) && timeLimit == old(timeLimit)
    {
      if 0 <= index < |questions| {
        current := index;
      }
    }

    /** handleSubmit: the success toast, or the first problem's toast; nothing changes. */
    method Submit() returns (r: Result<string>)
      ensures r.Err? <==> FirstProblem(title, questions).Some?
      ensures r.Err? ==> r.msg == ProblemMessage(FirstProblem(title, questions).value)
      ensures r.Ok? ==> r.value == Created
    {
      var problem := FirstProblem(title, questions);
      if problem.Some? {
        return Err(ProblemMessage(problem.value));
      }
      r := Ok(Created);
    }
  }

  /**
   * With distinct ids, removing a question other than the selected one keeps
   * the same question selected; removing the selected one selects its
   * successor, or the new last question. The index stays in range.
   */
  lemma RemoveKeepsSelection(qs: seq<Question>, current: int, k: nat)
    requires DistinctQuestionIds(qs) && |qs| >= 2 && 0 <= current < |qs| && k < |qs|
    ensures var rest := WithoutQuestion(qs, qs[k].id);
            var c := IndexAfterRemoval(current, |qs|, FindIndex(qs, qs[k].id));
            && rest == qs[..k] + qs[k + 1..]
            && 0 <= c < |rest|
            && (k != current ==> rest[c] == qs[current])
            && (k == current && current < |qs| - 1 ==> rest[c] == qs[current + 1])
  {
    WithoutQuestionAt(qs, k);
    assert FindIndex(qs, qs[k].id) == k;
    SelectionAfterSplice(qs, current, k);
  }

  /** Where the selection lands once position `k` is cut out. */
  lemma SelectionAfterSplice(qs: seq<Question>, current: int, k: nat)
    requires |qs| >= 2 && 0 <= current < |qs| && k < |qs|
    ensures var rest := qs[..k] + qs[k + 1..];
            var c := IndexAfterRemoval(current, |qs|, k);
            && 0 <= c < |rest|
            && (k != current ==> rest[c] == qs[current])
            && (k == current && current < |qs| - 1 ==> rest[c] == qs[current + 1])
  {
    var rest := qs[..k] + qs[k + 1..];
    assert forall j :: 0 <= j < k ==> rest[j] == qs[j];
    assert forall j :: k <= j < |rest| ==> rest[j] == qs[j + 1];
  }
}
