/**
 * The question and option records shared by the quiz editors, and the
 * option-list operations they all perform.
 */
module QuizOptions {
  import opened Wrappers
  import opened JsText

  /** One answer option of a question (the editors' `Option` record). */
  datatype Choice = Choice(id: string, text: string, isCorrect: bool)

  /** A question as the editors hold it; `kind` is the `type` field. */
  datatype Question = Question(
    id: string, text: string, explanation: string, kind: string, points: int, options: seq<Choice>)

  const MaxOptions: int := 6
  const TooManyOptions: string := "Vous ne pouvez pas ajouter plus de 6 options"
  /** The error a handler raises when it writes through `options[0]` of an empty list. */
  const TypeError: string := "TypeError: Cannot set properties of undefined"

  predicate AnyCorrect(opts: seq<Choice>) {
    exists i :: 0 <= i < |opts| && opts[i].isCorrect
  }

  /** The fresh option an add appends; `stamp` stands for Date.now(). */
  function NewChoice(stamp: string): Choice {
    Choice("opt-" + stamp, "", false)
  }

  /** Marks exactly the options with the given id correct; text and ids stay. */
  function OnlyCorrect(opts: seq<Choice>, id: string): (r: seq<Choice>)
    ensures |r| == |opts|
    ensures forall i :: 0 <= i < |r| ==> r[i].id == opts[i].id && r[i].text == opts[i].text
    ensures forall i :: 0 <= i < |r| ==> (r[i].isCorrect <==> opts[i].id == id)
  {
    seq(|opts|, i requires 0 <= i < |opts| => opts[i].(isCorrect := opts[i].id == id))
  }

  /** Choosing a present option leaves at least one correct; choosing an absent id leaves none. */
  lemma OnlyCorrectAny(opts: seq<Choice>, id: string)
    ensures AnyCorrect(OnlyCorrect(opts, id)) <==> exists i :: 0 <= i < |opts| && opts[i].id == id
  {
    var r := OnlyCorrect(opts, id);
    if exists i :: 0 <= i < |opts| && opts[i].id == id {
      var i :| 0 <= i < |opts| && opts[i].id == id;
      assert r[i].isCorrect;
    }
  }

  /** Replaces the text of the options with the given id; nothing else changes. */
  function WithText(opts: seq<Choice>, id: string, text: string): (r: seq<Choice>)
    ensures |r| == |opts|
    ensures forall i :: 0 <= i < |r| ==> r[i] == if opts[i].id == id then opts[i].(text := text) else opts[i]
  {
    seq(|opts|, i requires 0 <= i < |opts| => if opts[i].id == id then opts[i].(text := text) else opts[i])
  }

  /** `options.filter(opt => opt.id !== id)`. */
  function WithoutId(opts: seq<Choice>, id: string): (r: seq<Choice>)
    ensures |r| <= |opts|
    ensures forall c :: c in r <==> c in opts && c.id != id
  {
    if opts == [] then []
    else (if opts[0].id != id then [opts[0]] else []) + WithoutId(opts[1..], id)
  }

  /** Removing an id that is not there gives back the same list. */
  lemma {:induction false} WithoutAbsentId(opts: seq<Choice>, id: string)
    requires forall i :: 0 <= i < |opts| ==> opts[i].id != id
    ensures WithoutId(opts, id) == opts
  {
    if opts != [] {
      WithoutAbsentId(opts[1..], id);
    }
  }

  /** Removing a fresh option appended at the end gives back the list before it. */
  lemma {:induction false} WithoutAppended(opts: seq<Choice>, c: Choice)
    requires forall i :: 0 <= i < |opts| ==> opts[i].id != c.id
    ensures WithoutId(opts + [c], c.id) == opts
  {
    if opts == [] {
      assert WithoutId([c], c.id) == [] + WithoutId([], c.id);
    } else {
      assert (opts + [c])[1..] == opts[1..] + [c];
      WithoutAppended(opts[1..], c);
    }
  }

  /** With distinct ids, removing a present id drops exactly one option. */
  predicate DistinctIds(opts: seq<Choice>) {
    forall i, j :: 0 <= i < j < |opts| ==> opts[i].id != opts[j].id
  }

  lemma {:induction false} WithoutPresentId(opts: seq<Choice>, id: string, k: nat)
    requires DistinctIds(opts) && k < |opts| && opts[k].id == id
    ensures |WithoutId(opts, id)| == |opts| - 1
  {
    if k == 0 {
      WithoutAbsentId(opts[1..], id);
    } else {
      WithoutPresentId(opts[1..], id, k - 1);
    }
  }

  /** `options.find(opt => opt.id === id)?.isCorrect`: the flag of the first option with that id. */
  function FindCorrect(opts: seq<Choice>, id: string): (r: Option<bool>)
    ensures r.None? <==> forall i :: 0 <= i < |opts| ==> opts[i].id != id
    ensures r.Some? ==> exists i :: 0 <= i < |opts| && opts[i].id == id && r.value == opts[i].isCorrect &&
                                    forall j :: 0 <= j < i ==> opts[j].id != id
  {
    if opts == [] then None
    else if opts[0].id == id then Some(opts[0].isCorrect)
    else
      var r := FindCorrect(opts[1..], id);
      assert r.Some? ==> exists i :: 1 <= i < |opts| && opts[i].id == id && r.value == opts[i].isCorrect &&
                                     forall j :: 0 <= j < i ==> opts[j].id != id by {
        if r.Some? {
          var i :| 0 <= i < |opts[1..]| && opts[1..][i].id == id && r.value == opts[1..][i].isCorrect &&
                   forall j :: 0 <= j < i ==> opts[1..][j].id != id;
          assert opts[i + 1].id == id;
        }
      }
      r
  }

  /** The points field accepts a parseInt result only when it is a number above 0. */
  function PointsInput(input: string): (r: Option<int>)
    ensures r.Some? <==> ParseInt(input).Some? && ParseInt(input).value > 0
    ensures r.Some? ==> r.value == ParseInt(input).value && r.value >= 1
  {
    var p := ParseInt(input);
    if p.Some? && p.value > 0 then p else None
  }

  /** Every positive count typed as decimal digits is accepted as it is. */
  lemma PointsInputAccepts(n: int)
    requires n > 0
    ensures PointsInput(IntToString(n)) == Some(n)
  {
    IntToStringRoundTrip(n);
  }

  /** The question an "add question" appends; `stamp` stands for Date.now(). */
  function DefaultQuestion(stamp: string): Question {
    Question("q-" + stamp, "", "", "choix-unique", 1, [Choice("opt-" + stamp + "-1", "", true)])
  }

  /** What a quiz submit refuses, in the order it checks. */
  datatype Problem = BlankTitle | BlankQuestionText | BlankOptionText

  predicate HasBlankQuestion(qs: seq<Question>) {
    exists i :: 0 <= i < |qs| && IsBlank(qs[i].text)
  }

  predicate HasBlankOption(qs: seq<Question>) {
    exists i, j :: 0 <= i < |qs| && 0 <= j < |qs[i].options| && IsBlank(qs[i].options[j].text)
  }

  /**
   * The quiz submit checks: the title, then every question text, then every
   * option text must be non-blank (`!x.trim()` is IsBlank by TrimEmptyIffBlank).
   */
  function FirstProblem(title: string, qs: seq<Question>): Option<Problem> {
    if IsBlank(title) then Some(BlankTitle)
    else if HasBlankQuestion(qs) then Some(BlankQuestionText)
    else if HasBlankOption(qs) then Some(BlankOptionText)
    else None
  }

  /** A quiz passes exactly when its trimmed title, question texts and option texts are all non-empty. */
  lemma FirstProblemTrimmed(title: string, qs: seq<Question>)
    ensures FirstProblem(title, qs).None? <==>
      Trim(title) != "" &&
      (forall i :: 0 <= i < |qs| ==> Trim(qs[i].text) != "") &&
      (forall i, j :: 0 <= i < |qs| && 0 <= j < |qs[i].options| ==> Trim(qs[i].options[j].text) != "")
  {
    TrimEmptyIffBlank(title);
    forall i | 0 <= i < |qs| {
      TrimEmptyIffBlank(qs[i].text);
    }
    forall i, j | 0 <= i < |qs| && 0 <= j < |qs[i].options| {
      TrimEmptyIffBlank(qs[i].options[j].text);
    }
  }

  /** A freshly added question is always refused for its blank text. */
  lemma DefaultQuestionBlocksSubmit(title: string, qs: seq<Question>, stamp: string)
    requires !IsBlank(title)
    ensures FirstProblem(title, qs + [DefaultQuestion(stamp)]) == Some(BlankQuestionText)
  {
    var all := qs + [DefaultQuestion(stamp)];
    assert IsBlank(all[|qs|].text);
  }
}
