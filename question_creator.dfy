/**
 * The inline question creator: each handler computes the next question for
 * `onChange` (Ok) or stops with a toast (Err).
 */
module QuestionCreator {
  import opened Wrappers
  import opened QuizOptions

  const KeepOneOption: string := "Vous ne pouvez pas supprimer toutes les options"

  /** handleTypeChange: only the type changes; the options are not repaired. */
  function TypeChange(q: Question, value: string): (r: Question)
    ensures r.kind == value
    ensures r.(kind := q.kind) == q
  {
    q.(kind := value)
  }

  /** handlePointsChange: only a parsed integer above 0 is taken. */
  function PointsChange(q: Question, input: string): (r: Option<Question>)
    ensures r.Some? <==> PointsInput(input).Some?
    ensures r.Some? ==> r.value.(points := q.points) == q && r.value.points > 0
  {
    var p := PointsInput(input);
    if p.Some? then Some(q.(points := p.value)) else None
  }

  /** handleOptionTextChange: only options with that id change, and only their text. */
  function OptionTextChange(q: Question, id: string, text: string): (r: Question)
    ensures r.(options := q.options) == q
    ensures |r.options| == |q.options|
    ensures forall i :: 0 <= i < |q.options| && q.options[i].id != id ==> r.options[i] == q.options[i]
    ensures forall i :: 0 <= i < |q.options| && q.options[i].id == id ==> r.options[i] == q.options[i].(text := text)
  {
    q.(options := WithText(q.options, id, text))
  }

  /** handleCorrectOptionChange: exactly the options with that id are correct. */
  function CorrectOptionChange(q: Question, id: string): (r: Question)
    ensures r.(options := q.options) == q
    ensures |r.options| == |q.options|
    ensures forall i :: 0 <= i < |q.options| ==> (r.options[i].isCorrect <==> q.options[i].id == id)
    ensures forall i :: 0 <= i < |q.options| ==> r.options[i].(isCorrect := q.options[i].isCorrect) == q.options[i]
  {
    q.(options := OnlyCorrect(q.options, id))
  }

  /** addOption: refused at six options; otherwise one empty, incorrect option is appended. */
  function AddOption(q: Question, stamp: string): (r: Result<Question>)
    ensures r.Err? <==> |q.options| >= MaxOptions
    ensures r.Err? ==> r.msg == TooManyOptions
    ensures r.Ok? ==> r.value == q.(options := q.options + [NewChoice(stamp)])
  {
    if |q.options| >= MaxOptions then Err(TooManyOptions)
    else Ok(q.(options := q.options + [NewChoice(stamp)]))
  }

  /** Only the first option correct. */
  function FirstOnly(opts: seq<Choice>): (r: seq<Choice>)
    ensures |r| == |opts|
    ensures forall i :: 0 <= i < |r| ==> r[i] == opts[i].(isCorrect := i == 0)
  {
    seq(|opts|, i requires 0 <= i < |opts| => opts[i].(isCorrect := i == 0))
  }

  /**
   * removeOption: refused at one option. Removing a correct option makes the
   * first remaining option the only correct one; removing an incorrect one
   * keeps every other flag.
   */
  function RemoveOption(q: Question, id: string): (r: Result<Question>)
    ensures r.Err? <==> |q.options| <= 1
    ensures r.Err? ==> r.msg == KeepOneOption
    ensures r.Ok? ==> r.value == q.(options := r.value.options)
    ensures r.Ok? && FindCorrect(q.options, id) == Some(true) ==> r.value.options == FirstOnly(WithoutId(q.options, id))
    ensures r.Ok? && FindCorrect(q.options, id) != Some(true) ==> r.value.options == WithoutId(q.options, id)
  {
    if |q.options| <= 1 then Err(KeepOneOption)
    else
      var rest := WithoutId(q.options, id);
      if FindCorrect(q.options, id) == Some(true) && |rest| > 0 then Ok(q.(options := FirstOnly(rest)))
      else Ok(q.(options := rest))
  }

  /** After removing the correct option the question has exactly one correct option, the first. */
  lemma RemoveCorrectLeavesOne(q: Question, id: string)
    requires |q.options| > 1 && FindCorrect(q.options, id) == Some(true)
    requires WithoutId(q.options, id) != []
    ensures var r := RemoveOption(q, id).value.options;
            r[0].isCorrect && forall i :: 1 <= i < |r| ==> !r[i].isCorrect
  {
  }

  /** Adding an option and removing it again restores the question. */
  lemma AddThenRemove(q: Question, stamp: string)
    requires 1 <= |q.options| < MaxOptions
    requires forall i :: 0 <= i < |q.options| ==> q.options[i].id != NewChoice(stamp).id
    ensures AddOption(q, stamp).Ok?
    ensures RemoveOption(AddOption(q, stamp).value, NewChoice(stamp).id) == Ok(q)
  {
    var added := AddOption(q, stamp).value;
    WithoutAppended(q.options, NewChoice(stamp));
    assert FindCorrect(added.options, NewChoice(stamp).id) == Some(false) by {
      var k :| 0 <= k < |added.options| && added.options[k].id == NewChoice(stamp).id &&
               FindCorrect(added.options, NewChoice(stamp).id).value == added.options[k].isCorrect;
      assert k == |q.options|;
    }
  }
}
