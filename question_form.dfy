/**
 * The stand-alone question form: it keeps its own copy of the question and
 * hands it to `onSave` when it passes the submit checks.
 */
module QuestionForm {
  import opened Wrappers
  import opened JsText
  import opened QuizOptions

  const AtLeastTwoOptions: string := "Vous devez avoir au moins 2 options"
  const TextRequired: string := "Le texte de la question est obligatoire"
  const OptionTextRequired: string := "Toutes les options doivent avoir un texte"

  /** `a || b` on strings: the empty string is falsy. */
  function OrElse(s: Option<string>, fallback: string): string {
    if s.Some? && s.value != "" then s.value else fallback
  }

  /** The question the form starts with: the given one, field by field, else the defaults. */
  function Initial(existing: Option<Question>): (q: Question)
    ensures existing.None? ==> q == Question("", "", "", "choix-unique", 1, [])
    ensures existing.Some? ==> q.options == existing.value.options
    ensures existing.Some? && existing.value.points != 0 ==> q.points == existing.value.points
    ensures q.points != 0 && q.kind != ""
  {
    var e := existing;
    Question(
      OrElse(if e.Some? then Some(e.value.id) else None, ""),
      OrElse(if e.Some? then Some(e.value.text) else None, ""),
      OrElse(if e.Some? then Some(e.value.explanation) else None, ""),
      OrElse(if e.Some? then Some(e.value.kind) else None, "choix-unique"),
      if e.Some? && e.value.points != 0 then e.value.points else 1,
      if e.Some? then e.value.options else [])
  }

  /**
   * An option whose text is empty once trimmed (`!opt.text.trim()`; by
   * JsText.TrimEmptyIffBlank this is IsBlank).
   */
  predicate Blank(c: Choice) { IsBlank(c.text) }

  /** handleSubmit's checks: the question text, then every option text, must be non-blank. */
  function Validate(q: Question): (r: Result<Question>)
    ensures r.Ok? <==> !IsBlank(q.text) && forall i :: 0 <= i < |q.options| ==> !Blank(q.options[i])
    ensures r.Ok? ==> r.value == q
    ensures IsBlank(q.text) ==> r == Err(TextRequired)
  {
    if IsBlank(q.text) then Err(TextRequired)
    else if exists i :: 0 <= i < |q.options| && Blank(q.options[i]) then Err(OptionTextRequired)
    else Ok(q)
  }

  class Form {
    var question: Question

    constructor (existing: Option<Question>)
      ensures question == Initial(existing)
    {
      question := Initial(existing);
    }

    /** handleOptionTextChange: only the options with that id get the new text. */
    method OptionTextChange(id: string, text: string)
      modifies this
      ensures question == old(question).(options := WithText(old(question).options, id, text))
    {
      question := question.(options := WithText(question.options, id, text));
    }

    /** handleCorrectOptionChange: exactly the options with that id become correct. */
    method CorrectOptionChange(id: string)
      modifies this
      ensures question == old(question).(options := OnlyCorrect(old(question).options, id))
    {
      question := question.(options := OnlyCorrect(question.options, id));
    }

    /** addOption: refused at six options; `stamp` stands for Date.now(). */
    method AddOption(stamp: string) returns (toast: Option<string>)
      modifies this
      ensures toast.Some? <==> |old(question).options| >= MaxOptions
      ensures toast.Some? ==> question == old(question) && toast.value == TooManyOptions
      ensures toast.None? ==> question == old(question).(options := old(question).options + [NewChoice(stamp)])
    {
      if |question.options| >= MaxOptions {
        return Some(TooManyOptions);
      }
      question := question.(options := question.options + [NewChoice(stamp)]);
      toast := None;
    }

    /**
     * removeOption: refused at two options or fewer. If the removed option
     * was correct, the first remaining option is marked correct.
     */
    method RemoveOption(id: string) returns (toast: Option<string>)
      modifies this
      ensures toast.Some? <==> |old(question).options| <= 2
      ensures toast.Some? ==> question == old(question) && toast.value == AtLeastTwoOptions
      ensures toast.None? ==> question == old(question).(options := AfterRemoval(old(question).options, id))
    {
      if |question.options| <= 2 {
        return Some(AtLeastTwoOptions);
      }
      var isCorrectOption := FindCorrect(question.options, id);
      var rest := WithoutId(question.options, id);
      if isCorrectOption == Some(true) && |rest| > 0 {
        rest := [rest[0].(isCorrect := true)] + rest[1..];
      }
      question := question.(options := rest);
      toast := None;
    }

    /** handleSubmit: what onSave receives, or the toast shown instead; the form is unchanged. */
    method Submit() returns (saved: Result<Question>)
      ensures saved == Validate(question)
    {
      var q := question;
      if IsBlank(q.text) {
        return Err(TextRequired);
      }
      var i := 0;
      while i < |q.options|
        invariant 0 <= i <= |q.options|
        invariant forall j :: 0 <= j < i ==> !Blank(q.options[j])
      {
        if Blank(q.options[i]) {
            return Err(OptionTextRequired);
        }
        i := i + 1;
      }
      saved := Ok(q);
    }
  }

  /** The options a removal leaves: the others in order, the first made correct if a correct one went. */
  function AfterRemoval(opts: seq<Choice>, id: string): (r: seq<Choice>)
    ensures |r| == |WithoutId(opts, id)|
    ensures FindCorrect(opts, id) == Some(true) && WithoutId(opts, id) != [] ==> r[0].isCorrect
    ensures forall i :: 0 <= i < |r| ==> r[i].id == WithoutId(opts, id)[i].id && r[i].text == WithoutId(opts, id)[i].text
    ensures forall i :: 0 < i < |r| ==> r[i] == WithoutId(opts, id)[i]
    ensures FindCorrect(opts, id) != Some(true) ==> r == WithoutId(opts, id)
  {
    var rest := WithoutId(opts, id);
    if FindCorrect(opts, id) == Some(true) && |rest| > 0 then
      var r := [rest[0].(isCorrect := true)] + rest[1..];
      assert forall i :: 0 < i < |r| ==> r[i] == rest[i];
      r
    else rest
  }

  /** A question is savable exactly when its trimmed text and every trimmed option text are non-empty. */
  lemma ValidateTrimmed(q: Question)
    ensures Validate(q).Ok? <==> Trim(q.text) != "" && forall i :: 0 <= i < |q.options| ==> Trim(q.options[i].text) != ""
  {
    var r := Validate(q);
    TrimEmptyIffBlank(q.text);
    forall i | 0 <= i < |q.options| ensures Trim(q.options[i].text) != "" <==> !Blank(q.options[i]) {
      TrimEmptyIffBlank(q.options[i].text);
    }
    assert r.Ok? <==> !IsBlank(q.text) && forall i :: 0 <= i < |q.options| ==> !Blank(q.options[i]);
  }
}
