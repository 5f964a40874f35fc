/**
 * The tabbed question editor: type, points and option handlers. Each handler
 * computes the next question from the current one and either hands it to
 * `onChange` (Ok) or stops with a toast or an exception (Err).
 */
module QuizEditor {
  import opened Wrappers
  import opened QuizOptions

  const AtLeastOneCorrect: string := "Au moins une option doit être correcte"
  const NoOptionsForTrueFalse: string := "Vous ne pouvez pas ajouter d'options aux questions Vrai/Faux"
  const NoRemovalForTrueFalse: string := "Vous ne pouvez pas supprimer d'options des questions Vrai/Faux"
  const KeepTwoOptions: string := "Vous devez avoir au moins deux options"

  /** The first option marked correct. */
  function FirstCorrect(opts: seq<Choice>): (r: seq<Choice>)
    requires opts != []
    ensures |r| == |opts| && r[0] == opts[0].(isCorrect := true) && r[1..] == opts[1..]
  {
    [opts[0].(isCorrect := true)] + opts[1..]
  }

  /**
   * The "choix-unique" repair as written: with no correct option the first
   * becomes correct; otherwise every flag is kept.
   */
  function UniqueRepair(opts: seq<Choice>): (r: seq<Choice>)
    ensures |r| == |opts|
    ensures forall i :: 0 <= i < |r| ==> r[i].id == opts[i].id && r[i].text == opts[i].text
    ensures AnyCorrect(opts) ==> forall i :: 0 <= i < |r| ==> r[i].isCorrect == opts[i].isCorrect
    ensures !AnyCorrect(opts) ==> forall i :: 0 <= i < |r| ==> (r[i].isCorrect <==> i == 0)
  {
    var hasCorrect := AnyCorrect(opts);
    seq(|opts|, i requires 0 <= i < |opts| =>
      opts[i].(isCorrect := (!hasCorrect && i == 0) || (hasCorrect && opts[i].isCorrect)))
  }

  /** handleTypeChange; `stamp` stands for Date.now() in the true/false option ids. */
  function TypeChange(q: Question, value: string, stamp: string): (r: Result<Question>)
    ensures r.Err? <==> value != "vrai-faux" && value == "choix-multiple" && q.options == []
    ensures r.Ok? ==> r.value == q.(kind := value, options := r.value.options)
    ensures value == "vrai-faux" ==> r.Ok?
    ensures value == "vrai-faux" && r.Ok? ==>
      r.value.options == [Choice("opt-" + stamp + "-1", "Vrai", true), Choice("opt-" + stamp + "-2", "Faux", false)]
    ensures value == "choix-multiple" && r.Ok? ==>
      r.value.options == if AnyCorrect(q.options) then q.options else FirstCorrect(q.options)
    ensures value != "vrai-faux" && value != "choix-multiple" ==> r.Ok? && r.value.options == UniqueRepair(q.options)
  {
    if value == "vrai-faux" then
      Ok(q.(kind := value, options := [Choice("opt-" + stamp + "-1", "Vrai", true),
                                       Choice("opt-" + stamp + "-2", "Faux", false)]))
    else if value == "choix-multiple" then
      if AnyCorrect(q.options) then Ok(q.(kind := value))
      else if q.options == [] then Err(TypeError)
      else Ok(q.(kind := value, options := FirstCorrect(q.options)))
    else Ok(q.(kind := value, options := UniqueRepair(q.options)))
  }

  /** After any accepted type change a question with options has a correct option. */
  lemma TypeChangeHasCorrect(q: Question, value: string, stamp: string)
    requires q.options != [] || value == "vrai-faux"
    ensures TypeChange(q, value, stamp).Ok?
    ensures AnyCorrect(TypeChange(q, value, stamp).value.options)
  {
    var r := TypeChange(q, value, stamp).value;
    if value != "vrai-faux" && !AnyCorrect(q.options) {
      assert r.options[0].isCorrect;
    } else if value != "vrai-faux" {
      var i :| 0 <= i < |q.options| && q.options[i].isCorrect;
      assert r.options[i].isCorrect;
    } else {
      assert r.options[0].isCorrect;
    }
  }

  /** handlePointsChange: no onChange unless the input parses to an integer above 0. */
  function PointsChange(q: Question, input: string): (r: Option<Question>)
    ensures r.Some? <==> PointsInput(input).Some?
    ensures r.Some? ==> r.value == q.(points := PointsInput(input).value) && r.value.points > 0
  {
    var p := PointsInput(input);
    if p.Some? then Some(q.(points := p.value)) else None
  }

  /** handleOptionTextChange. */
  function OptionTextChange(q: Question, id: string, text: string): (r: Question)
    ensures r == q.(options := WithText(q.options, id, text))
  {
    q.(options := WithText(q.options, id, text))
  }

  /** The toggle of a "choix-multiple" choice: flips that option only. */
  function Toggled(opts: seq<Choice>, id: string): (r: seq<Choice>)
    ensures |r| == |opts|
    ensures forall i :: 0 <= i < |r| ==> r[i].id == opts[i].id && r[i].text == opts[i].text
    ensures forall i :: 0 <= i < |r| ==> r[i].isCorrect == if opts[i].id == id then !opts[i].isCorrect else opts[i].isCorrect
  {
    seq(|opts|, i requires 0 <= i < |opts| =>
      opts[i].(isCorrect := if opts[i].id == id then !opts[i].isCorrect else opts[i].isCorrect))
  }

  lemma ToggledTwice(opts: seq<Choice>, id: string)
    ensures Toggled(Toggled(opts, id), id) == opts
  {
    var r := Toggled(Toggled(opts, id), id);
    assert forall i :: 0 <= i < |opts| ==> r[i] == opts[i];
  }

  /**
   * handleCorrectOptionChange: single-answer types keep exactly the chosen
   * id correct; "choix-multiple" toggles it, refusing to leave no correct option.
   */
  function CorrectOptionChange(q: Question, id: string): (r: Result<Question>)
    ensures q.kind != "choix-multiple" ==> r == Ok(q.(options := OnlyCorrect(q.options, id)))
    ensures q.kind == "choix-multiple" ==>
      r == if AnyCorrect(Toggled(q.options, id)) then Ok(q.(options := Toggled(q.options, id)))
           else Err(AtLeastOneCorrect)
  {
    if q.kind != "choix-multiple" then Ok(q.(options := OnlyCorrect(q.options, id)))
    else
      var updated := Toggled(q.options, id);
      if !AnyCorrect(updated) then Err(AtLeastOneCorrect) else Ok(q.(options := updated))
  }

  /** A "choix-multiple" question never loses its last correct option, and a second toggle undoes the first. */
  lemma CorrectOptionChangeMultiple(q: Question, id: string)
    requires q.kind == "choix-multiple" && AnyCorrect(q.options)
    ensures CorrectOptionChange(q, id).Ok? ==> AnyCorrect(CorrectOptionChange(q, id).value.options)
    ensures CorrectOptionChange(q, id).Ok? ==> CorrectOptionChange(CorrectOptionChange(q, id).value, id) == Ok(q)
  {
    ToggledTwice(q.options, id);
  }

  /** addOption: at most six options, none added to a true/false question. */
  function AddOption(q: Question, stamp: string): (r: Result<Question>)
    ensures r.Err? <==> |q.options| >= MaxOptions || q.kind == "vrai-faux"
    ensures |q.options| >= MaxOptions ==> r == Err(TooManyOptions)
    ensures r.Ok? ==> r.value == q.(options := q.options + [NewChoice(stamp)]) && |r.value.options| <= MaxOptions
  {
    if |q.options| >= MaxOptions then Err(TooManyOptions)
    else if q.kind == "vrai-faux" then Err(NoOptionsForTrueFalse)
    else Ok(q.(options := q.options + [NewChoice(stamp)]))
  }

  /** The options left by a removal, with the first made correct when the only correct one went. */
  function RepairedRemoval(opts: seq<Choice>, id: string): seq<Choice> {
    var rest := WithoutId(opts, id);
    if FindCorrect(opts, id) == Some(true) && !AnyCorrect(rest) && rest != [] then FirstCorrect(rest) else rest
  }

  /**
   * removeOption: refused for true/false questions and at two options or
   * fewer. When the removed option was correct and no correct option is left,
   * the new first option becomes correct (an exception when none is left).
   */
  function RemoveOption(q: Question, id: string): (r: Result<Question>)
    ensures q.kind == "vrai-faux" ==> r == Err(NoRemovalForTrueFalse)
    ensures q.kind != "vrai-faux" && |q.options| <= 2 ==> r == Err(KeepTwoOptions)
    ensures r.Err? <==> q.kind == "vrai-faux" || |q.options| <= 2 ||
                        (FindCorrect(q.options, id) == Some(true) && WithoutId(q.options, id) == [])
    ensures r.Ok? ==> r.value.options == RepairedRemoval(q.options, id)
    ensures r.Ok? ==> r.value == q.(options := r.value.options)
  {
    if q.kind == "vrai-faux" then Err(NoRemovalForTrueFalse)
    else if |q.options| <= 2 then Err(KeepTwoOptions)
    else
      var rest := WithoutId(q.options, id);
      if FindCorrect(q.options, id) == Some(true) && !AnyCorrect(rest) then
        if rest == [] then Err(TypeError) else Ok(q.(options := FirstCorrect(rest)))
      else Ok(q.(options := rest))
  }

  /** A question with distinct option ids that has a correct option keeps one through an accepted removal. */
  lemma RemoveOptionKeepsCorrect(q: Question, id: string)
    requires AnyCorrect(q.options) && DistinctIds(q.options)
    ensures RemoveOption(q, id).Ok? ==> AnyCorrect(RemoveOption(q, id).value.options)
  {
    var rest := WithoutId(q.options, id);
    if RemoveOption(q, id).Ok? && !(FindCorrect(q.options, id) == Some(true) && !AnyCorrect(rest)) {
      var i :| 0 <= i < |q.options| && q.options[i].isCorrect;
      if q.options[i].id != id {
        assert q.options[i] in rest;
      } else {
        var k :| 0 <= k < |q.options| && q.options[k].id == id && FindCorrect(q.options, id).value == q.options[k].isCorrect &&
                 forall j :: 0 <= j < k ==> q.options[j].id != id;
        assert k <= i;
      }
    }
  }

  /** Adding an option and removing it again restores the question. */
  lemma AddThenRemove(q: Question, stamp: string)
    requires 2 <= |q.options| < MaxOptions && q.kind != "vrai-faux"
    requires forall i :: 0 <= i < |q.options| ==> q.options[i].id != NewChoice(stamp).id
    ensures AddOption(q, stamp).Ok?
    ensures RemoveOption(AddOption(q, stamp).value, NewChoice(stamp).id) == Ok(q)
  {
    var added := AddOption(q, stamp).value;
    WithoutAppended(q.options, NewChoice(stamp));
    assert FindCorrect(added.options, NewChoice(stamp).id) == Some(false) by {
      var k :| 0 <= k < |added.options| && added.options[k].id == NewChoice(stamp).id &&
               FindCorrect(added.options, NewChoice(stamp).id).value == added.options[k].isCorrect;
      assert k == |q.options|;
    }
  }

  /**
   * As written, switching to "choix-unique" keeps every correct flag, so a
   * multiple-answer question with two correct options stays with two.
   */
  lemma UniqueKeepsSeveral()
    ensures var q := Question("q", "", "", "choix-multiple", 1,
                              [Choice("a", "A", true), Choice("b", "B", true)]);
            var r := TypeChange(q, "choix-unique", "0");
            r.Ok? && r.value.options[0].isCorrect && r.value.options[1].isCorrect
  {
    var opts := [Choice("a", "A", true), Choice("b", "B", true)];
    assert opts[0].isCorrect;
  }

  /** The number of correct options. */
  function CountCorrect(opts: seq<Choice>): nat {
    if opts == [] then 0 else (if opts[0].isCorrect then 1 else 0) + CountCorrect(opts[1..])
  }

  /**
   * The single-answer repair the code's own comment describes: only the first
   * correct option stays correct, or the first option when none was.
   */
  function SingleRepair(opts: seq<Choice>, seen: bool): (r: seq<Choice>)
    ensures |r| == |opts|
    ensures forall i :: 0 <= i < |r| ==> r[i].id == opts[i].id && r[i].text == opts[i].text
  {
    if opts == [] then []
    else
      var keep := !seen && opts[0].isCorrect;
      [opts[0].(isCorrect := keep)] + SingleRepair(opts[1..], seen || keep)
  }

  lemma {:induction false} SingleRepairCount(opts: seq<Choice>, seen: bool)
    ensures CountCorrect(SingleRepair(opts, seen)) == if !seen && AnyCorrect(opts) then 1 else 0
  {
    if opts != [] {
      var keep := !seen && opts[0].isCorrect;
      var r := SingleRepair(opts, seen);
      SingleRepairCount(opts[1..], seen || keep);
      AnyCorrectCons(opts);
      assert r[1..] == SingleRepair(opts[1..], seen || keep);
      assert r[0].isCorrect == keep;
    }
  }

  /** Some option is correct exactly when the first one is or one of the rest is. */
  lemma AnyCorrectCons(opts: seq<Choice>)
    requires opts != []
    ensures AnyCorrect(opts) <==> opts[0].isCorrect || AnyCorrect(opts[1..])
  {
    if AnyCorrect(opts[1..]) {
      var i :| 0 <= i < |opts[1..]| && opts[1..][i].isCorrect;
      assert opts[i + 1].isCorrect;
    }
    if AnyCorrect(opts) && !opts[0].isCorrect {
      var i :| 0 <= i < |opts| && opts[i].isCorrect;
      assert opts[1..][i - 1].isCorrect;
    }
  }

  /** The intended "choix-unique" change: exactly one option is correct afterwards. */
  function ToSingleCorrect(opts: seq<Choice>): (r: seq<Choice>)
    requires opts != []
    ensures CountCorrect(r) == 1
  {
    SingleRepairCount(opts, false);
    if AnyCorrect(opts) then SingleRepair(opts, false)
    else
      SingleRepairCount(opts[1..], true);
      assert SingleRepair(opts, false) == [opts[0]] + SingleRepair(opts[1..], false);
      FirstCorrectCount(opts);
      FirstCorrect(opts)
  }

  lemma FirstCorrectCount(opts: seq<Choice>)
    requires opts != [] && !AnyCorrect(opts)
    ensures CountCorrect(FirstCorrect(opts)) == 1
  {
    NoneCorrectCount(opts[1..]);
    assert FirstCorrect(opts)[1..] == opts[1..];
  }

  lemma {:induction false} NoneCorrectCount(opts: seq<Choice>)
    requires forall i :: 0 <= i < |opts| ==> !opts[i].isCorrect
    ensures CountCorrect(opts) == 0
  {
    if opts != [] {
      NoneCorrectCount(opts[1..]);
    }
  }
}
