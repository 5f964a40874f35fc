/**
 * The QCM edit form: a question list managed by id (edit, add, remove, move)
 * and the submit checks.
 */
module QcmForm {
  import opened Wrappers
  import opened JsText
  import opened QuizOptions
  import QP = QuizParametre

  const TitleRequired: string := "Le titre du QCM est obligatoire"
  const QuestionRequired: string := "Vous devez ajouter au moins une question"
  const Updated: string := "Le QCM a été mis à jour avec succès"
  const Created: string := "Le QCM a été créé avec succès"

  datatype Direction = Up | Down

  /** Every question whose id is the original's id becomes the updated one. */
  function Edited(qs: seq<Question>, originalId: string, updated: Question): (r: seq<Question>)
    ensures |r| == |qs|
    ensures forall i :: 0 <= i < |qs| ==> r[i] == if qs[i].id == originalId then updated else qs[i]
  {
    seq(|qs|, i requires 0 <= i < |qs| => if qs[i].id == originalId then updated else qs[i])
  }

  /** `arr.splice(start, ...)` resolves a negative start from the end and clamps it to the length. */
  function SpliceStart(start: int, len: nat): (k: nat)
    ensures k <= len
  {
    if start < 0 then (if len + start < 0 then 0 else len + start) else if start > len then len else start
  }

  /**
   * handleMoveQuestion: first-up and last-down do nothing; otherwise the
   * question is spliced out and back in one place further. None stands for
   * the list holding `undefined` that an "up" on an empty list produces.
   */
  function Moved(qs: seq<Question>, id: string, dir: Direction): Option<seq<Question>> {
    var k := QP.FindIndex(qs, id);
    if (dir == Up && k == 0) || (dir == Down && k == |qs| - 1) then Some(qs)
    else if qs == [] then None
    else
      var from := SpliceStart(k, |qs|);
      var moved := qs[from];
      var rest := qs[..from] + qs[from + 1..];
      var to := SpliceStart(if dir == Up then k - 1 else k + 1, |rest|);
      Some(rest[..to] + [moved] + rest[to..])
  }

  /** The only move the model leaves out is "up" on an empty list. */
  lemma MovedUndefinedOnlyEmptyUp(qs: seq<Question>, id: string, dir: Direction)
    ensures Moved(qs, id, dir).None? <==> qs == [] && dir == Up
  {
  }

  /** Takes the element at `k` out and puts it back at `n` of what is left. */
  function Reinsert(qs: seq<Question>, k: nat, n: nat): seq<Question>
    requires k < |qs| && n < |qs|
  {
    var rest := qs[..k] + qs[k + 1..];
    rest[..n] + [qs[k]] + rest[n..]
  }

  /** The list with the neighbours at `i` and `i + 1` exchanged. */
  function Swapped(qs: seq<Question>, i: nat): seq<Question>
    requires i + 1 < |qs|
  {
    qs[..i] + [qs[i + 1], qs[i]] + qs[i + 2..]
  }

  lemma SwappedSpec(qs: seq<Question>, i: nat)
    requires i + 1 < |qs|
    ensures var r := Swapped(qs, i);
            && |r| == |qs| && r[i] == qs[i + 1] && r[i + 1] == qs[i]
            && (forall j :: 0 <= j < |qs| && j != i && j != i + 1 ==> r[j] == qs[j])
            && multiset(r) == multiset(qs)
  {
    assert qs == qs[..i] + [qs[i], qs[i + 1]] + qs[i + 2..];
  }

  /** Reinserting one place away swaps two neighbours and keeps the multiset. */
  lemma ReinsertNeighbour(qs: seq<Question>, k: nat, n: nat)
    requires k < |qs| && n < |qs| && (n == k + 1 || n + 1 == k)
    ensures var r := Reinsert(qs, k, n);
            && |r| == |qs| && r[n] == qs[k] && r[k] == qs[n]
            && (forall i :: 0 <= i < |qs| && i != k && i != n ==> r[i] == qs[i])
            && multiset(r) == multiset(qs)
  {
    var rest := qs[..k] + qs[k + 1..];
    if n == k + 1 {
      assert rest[..n] == qs[..k] + [qs[k + 1]];
      assert rest[n..] == qs[k + 2..];
      assert Reinsert(qs, k, n) == Swapped(qs, k);
      SwappedSpec(qs, k);
    } else {
      assert rest[..n] == qs[..n];
      assert rest[n..] == [qs[n]] + qs[k + 1..];
      assert Reinsert(qs, k, n) == Swapped(qs, n);
      SwappedSpec(qs, n);
    }
  }

  /**
   * For a present id that can move, moving swaps the question with its
   * neighbour in that direction; every other position is unchanged and the
   * questions are the same multiset.
   */
  lemma MovedSwaps(qs: seq<Question>, id: string, dir: Direction)
    requires QP.FindIndex(qs, id) >= 0
    requires dir == Up ==> QP.FindIndex(qs, id) > 0
    requires dir == Down ==> QP.FindIndex(qs, id) < |qs| - 1
    ensures var k := QP.FindIndex(qs, id);
            var n := if dir == Up then k - 1 else k + 1;
            var r := Moved(qs, id, dir);
            && r.Some? && |r.value| == |qs|
            && r.value[n] == qs[k] && r.value[k] == qs[n]
            && (forall i :: 0 <= i < |qs| && i != k && i != n ==> r.value[i] == qs[i])
            && multiset(r.value) == multiset(qs)
  {
    var k := QP.FindIndex(qs, id);
    var n := if dir == Up then k - 1 else k + 1;
    assert Moved(qs, id, dir) == Some(Reinsert(qs, k, n));
    ReinsertNeighbour(qs, k, n);
  }

  /** Moving the first question up or the last question down leaves the list as it is. */
  lemma MovedAtEndsIsNoop(qs: seq<Question>)
    requires qs != []
    ensures Moved(qs, qs[0].id, Up) == Some(qs)
    ensures QP.DistinctQuestionIds(qs) ==> Moved(qs, qs[|qs| - 1].id, Down) == Some(qs)
  {
    if QP.DistinctQuestionIds(qs) {
      assert QP.FindIndex(qs, qs[|qs| - 1].id) == |qs| - 1;
    }
  }

  class Form {
    var title: string
    var questions: seq<Question>
    var showQuestionForm: bool
    var activeTab: string

    constructor ()
      ensures title == "" && !showQuestionForm && activeTab == "details"
      ensures questions == [Question("q-1", "", "", "choix-unique", 1, [Choice("opt-1-1", "", true)])]
    {
      title := "";
      questions := [Question("q-1", "", "", "choix-unique", 1, [Choice("opt-1-1", "", true)])];
      showQuestionForm := false;
      activeTab := "details";
    }

    /** handleEditQuestion: replaces the questions that share the original's id, and nothing else. */
    method EditQuestion(original: Question, updated: Question)
      modifies this
      ensures questions == Edited(old(questions), original.id, updated)
      ensures title == old(title) && showQuestionForm == old(showQuestionForm) && activeTab == old(activeTab)
    {
      questions := Edited(questions, original.id, updated);
    }

    /** handleAddQuestion: appends the question with its id set to "1" and keeps the form open. */
    method AddQuestion(q: Question)
      modifies this
      ensures questions == old(questions) + [q.(id := "1")]
      ensures showQuestionForm && title == old(title) && activeTab == old(activeTab)
    {
      questions := questions + [q.(id := "1")];
      showQuestionForm := true;
    }

    /** handleRemoveQuestion: drops every question with that id, keeping the rest in order. */
    method RemoveQuestion(id: string)
      modifies this
      ensures questions == QP.WithoutQuestion(old(questions), id)
      ensures title == old(title) && showQuestionForm == old(showQuestionForm) && activeTab == old(activeTab)
    {
      questions := QP.WithoutQuestion(questions, id);
    }

    /** handleMoveQuestion, where the list stays a list of questions. */
    method MoveQuestion(id: string, dir: Direction)
      requires Moved(questions, id, dir).Some?
      modifies this
      ensures questions == Moved(old(questions), id, dir).value
      ensures title == old(title) && showQuestionForm == old(showQuestionForm) && activeTab == old(activeTab)
    {
      questions := Moved(questions, id, dir).value;
    }

    /**
     * handleSubmit: a blank title first, then an empty list (which also
     * switches to the questions tab); otherwise the success toast.
     */
    method Submit(existing: bool) returns (r: Result<string>)
      modifies this
      ensures IsBlank(title) ==> r == Err(TitleRequired)
      ensures !IsBlank(title) && questions == [] ==> r == Err(QuestionRequired) && activeTab == "questions"
      ensures !IsBlank(title) && questions != [] ==> r == Ok(if existing then Updated else Created)
      ensures !(!IsBlank(title) && questions == []) ==> activeTab == old(activeTab)
      ensures questions == old(questions) && title == old(title)
    {
      if IsBlank(title) {
        return Err(TitleRequired);
      }
      if questions == [] {
        activeTab := "questions";
        return Err(QuestionRequired);
      }
      r := Ok(if existing then Updated else Created);
    }
  }

  /**
   * As written, two added questions share the id "1", so removing the first
   * one removes the second as well.
   */
  lemma RemovingOneRemovesBoth(qs: seq<Question>, a: Question, b: Question)
    requires forall i :: 0 <= i < |qs| ==> qs[i].id != "1"
    ensures QP.WithoutQuestion(qs + [a.(id := "1")] + [b.(id := "1")], "1") == qs
  {
    RemoveAppended(qs + [a.(id := "1")], b.(id := "1"), "1");
    RemoveAppended(qs, a.(id := "1"), "1");
    QP.WithoutAbsentQuestion(qs, "1");
  }

  /** Appending a question with the removed id adds nothing to the result. */
  lemma {:induction false} RemoveAppended(qs: seq<Question>, x: Question, id: string)
    requires x.id == id
    ensures QP.WithoutQuestion(qs + [x], id) == QP.WithoutQuestion(qs, id)
  {
    if qs == [] {
      assert qs + [x] == [x];
    } else {
      assert (qs + [x])[1..] == qs[1..] + [x];
      RemoveAppended(qs[1..], x, id);
    }
  }

  /** The intended add: the question keeps a fresh id of its own. */
  function AddedWithFreshId(qs: seq<Question>, q: Question, freshId: string): seq<Question> {
    qs + [q.(id := freshId)]
  }

  /** With fresh ids, removing an added question removes that one only. */
  lemma FreshIdRemovesOnlyIt(qs: seq<Question>, q: Question, freshId: string)
    requires forall i :: 0 <= i < |qs| ==> qs[i].id != freshId
    ensures QP.WithoutQuestion(AddedWithFreshId(qs, q, freshId), freshId) == qs
    ensures QP.FindIndex(AddedWithFreshId(qs, q, freshId), freshId) == |qs|
  {
    var all := AddedWithFreshId(qs, q, freshId);
    RemoveAppended(qs, q.(id := freshId), freshId);
    QP.WithoutAbsentQuestion(qs, freshId);
    assert all[|qs|].id == freshId;
    assert forall i :: 0 <= i < |qs| ==> all[i] == qs[i];
  }
}
