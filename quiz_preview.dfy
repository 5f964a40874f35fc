/** The preview of one question: pick an option, verify it, try again. */
module QuizPreview {
  import opened Wrappers
  import opened QuizOptions

  class Preview {
    const question: Question
    var selectedOption: string
    var showFeedback: bool

    constructor (question: Question)
      ensures this.question == question && selectedOption == "" && !showFeedback
    {
      this.question := question;
      selectedOption := "";
      showFeedback := false;
    }

    /** The answer is right when an option is selected and the first option with its id is correct. */
    predicate IsCorrect()
      reads this
    {
      selectedOption != "" && FindCorrect(question.options, selectedOption) == Some(true)
    }

    /** The verify button is disabled while nothing is selected. */
    predicate VerifyDisabled()
      reads this
    {
      selectedOption == ""
    }

    /** handleOptionSelect: ignored once the feedback is shown. */
    method OptionSelect(id: string)
      modifies this
      ensures selectedOption == if old(showFeedback) then old(selectedOption) else id
      ensures showFeedback == old(showFeedback)
    {
      if !showFeedback {
        selectedOption := id;
      }
    }

    method Verify()
      modifies this
      ensures showFeedback && selectedOption == old(selectedOption)
    {
      showFeedback := true;
    }

    method Reset()
      modifies this
      ensures selectedOption == "" && !showFeedback
    {
      selectedOption := "";
      showFeedback := false;
    }
  }

  /** Choosing a correct option of a question with distinct ids is judged correct, and an incorrect one is not. */
  lemma CorrectIffChosenCorrect(opts: seq<Choice>, k: nat)
    requires DistinctIds(opts) && k < |opts| && opts[k].id != ""
    ensures FindCorrect(opts, opts[k].id) == Some(opts[k].isCorrect)
  {
    var r := FindCorrect(opts, opts[k].id);
    var i :| 0 <= i < |opts| && opts[i].id == opts[k].id && r.value == opts[i].isCorrect &&
             forall j :: 0 <= j < i ==> opts[j].id != opts[k].id;
    assert i == k;
  }
}
