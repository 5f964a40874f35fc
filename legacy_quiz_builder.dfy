/**
 * The course form's quiz builder: questions whose options are plain strings
 * and whose correct answers are a list of option indices.
 */
module LegacyQuizBuilder {
  import opened Wrappers
  import opened JsText

  datatype QuestionType = Single | Multiple

  datatype LQuestion = LQuestion(
    id: int, questionText: string, explanation: string, kind: QuestionType,
    options: seq<string>, correctAnswers: seq<int>, score: int)

  predicate NoDuplicates(cs: seq<int>) {
    forall i, j :: 0 <= i < j < |cs| ==> cs[i] != cs[j]
  }

  /** First position of `x` in `cs` (`indexOf`). */
  function IndexIn(cs: seq<int>, x: int): (k: nat)
    requires x in cs
    ensures k < |cs| && cs[k] == x && x !in cs[..k]
  {
    if cs[0] == x then 0 else 1 + IndexIn(cs[1..], x)
  }

  /** The multiple-choice toggle: remove the first occurrence, or push at the end. */
  function Toggled(cs: seq<int>, o: int): seq<int> {
    if o in cs then var k := IndexIn(cs, o); cs[..k] + cs[k + 1..] else cs + [o]
  }

  /** Dropping position `k` drops the value there and keeps every other value. */
  lemma RemovedAtMembers(cs: seq<int>, k: nat)
    requires NoDuplicates(cs) && k < |cs|
    ensures forall x :: x in cs[..k] + cs[k + 1..] <==> x in cs && x != cs[k]
  {
    var r := cs[..k] + cs[k + 1..];
    assert cs == cs[..k] + [cs[k]] + cs[k + 1..];
    forall x | x in r ensures x in cs && x != cs[k] {
      var i :| 0 <= i < |r| && r[i] == x;
      if i < k { assert r[i] == cs[i]; } else { assert r[i] == cs[i + 1]; }
    }
  }

  /** Dropping a position keeps a list free of duplicates. */
  lemma RemovedAtDistinct(cs: seq<int>, k: nat)
    requires NoDuplicates(cs) && k < |cs|
    ensures NoDuplicates(cs[..k] + cs[k + 1..])
  {
    var r := cs[..k] + cs[k + 1..];
    forall i, j | 0 <= i < j < |r| ensures r[i] != r[j] {
      var i' := if i < k then i else i + 1;
      var j' := if j < k then j else j + 1;
      assert r[i] == cs[i'] && r[j] == cs[j'];
    }
  }

  /** On a list without duplicates the toggle flips `o` alone and keeps the list free of duplicates. */
  lemma ToggledSpec(cs: seq<int>, o: int)
    requires NoDuplicates(cs)
    ensures (o in Toggled(cs, o)) <==> o !in cs
    ensures forall x :: x != o ==> (x in Toggled(cs, o) <==> x in cs)
    ensures NoDuplicates(Toggled(cs, o))
  {
    if o in cs {
      var k := IndexIn(cs, o);
      RemovedAtMembers(cs, k);
      RemovedAtDistinct(cs, k);
    }
  }

  /** Toggling twice gives back the same set of correct indices. */
  lemma ToggledTwice(cs: seq<int>, o: int)
    requires NoDuplicates(cs)
    ensures forall x :: x in Toggled(Toggled(cs, o), o) <==> x in cs
  {
    ToggledSpec(cs, o);
    ToggledSpec(Toggled(cs, o), o);
  }

  /** An index after option `o` is deleted. */
  function Shift(c: int, o: int): int {
    if c > o then c - 1 else c
  }

  /** `cs.filter(i => i !== o).map(i => i > o ? i - 1 : i)`. */
  function Reindexed(cs: seq<int>, o: int): (r: seq<int>)
    ensures forall y :: y in r <==> exists c :: c in cs && c != o && y == Shift(c, o)
  {
    if cs == [] then []
    else
      var rest := Reindexed(cs[1..], o);
      assert forall c :: c in cs <==> c == cs[0] || c in cs[1..];
      (if cs[0] != o then [Shift(cs[0], o)] else []) + rest
  }

  /** `options.splice(o, 1)` for an index inside the list. */
  function RemoveAt(s: seq<string>, o: int): (r: seq<string>)
    requires 0 <= o < |s|
    ensures |r| == |s| - 1
  {
    s[..o] + s[o + 1..]
  }

  /**
   * Deleting option `o` keeps every other correct answer pointing at the same
   * option text, and drops `o` itself.
   */
  lemma DeleteOptionKeepsAnswers(q: LQuestion, o: int)
    requires 0 <= o < |q.options|
    requires forall c :: c in q.correctAnswers ==> 0 <= c < |q.options|
    ensures var opts := RemoveAt(q.options, o);
            var cs := Reindexed(q.correctAnswers, o);
            (forall y :: y in cs ==> 0 <= y < |opts|) &&
            (forall c :: c in q.correctAnswers && c != o ==> Shift(c, o) in cs && opts[Shift(c, o)] == q.options[c])
  {
    var opts := RemoveAt(q.options, o);
    forall c | c in q.correctAnswers && c != o ensures opts[Shift(c, o)] == q.options[c] {
      if c > o { assert opts[c - 1] == q.options[c]; } else { assert opts[c] == q.options[c]; }
    }
  }

  /** `parseInt(value, 10) || 1`: NaN and 0 both become 1. */
  function ScoreEntry(input: string): (r: int)
    ensures r != 0
    ensures ParseInt(input).Some? && ParseInt(input).value != 0 ==> r == ParseInt(input).value
    ensures ParseInt(input).None? ==> r == 1
  {
    var p := ParseInt(input);
    if p.Some? && p.value != 0 then p.value else 1
  }

  /** The question an "add question" appends; `stamp` stands for Date.now(). */
  function NewQuestion(stamp: int): LQuestion {
    LQuestion(stamp, "", "", Single, [""], [], 0)
  }

  class Builder {
    var questions: seq<LQuestion>

    constructor ()
      ensures questions == []
    {
      questions := [];
    }

    /** handleCorrectAnswerChange: single sets [o]; multiple toggles o. */
    method CorrectAnswerChange(qIndex: int, o: int)
      requires 0 <= qIndex < |questions|
      modifies this
      ensures |questions| == |old(questions)|
      ensures forall i :: 0 <= i < |questions| && i != qIndex ==> questions[i] == old(questions)[i]
      ensures questions[qIndex] == old(questions)[qIndex].(correctAnswers :=
        if old(questions)[qIndex].kind == Single then [o] else Toggled(old(questions)[qIndex].correctAnswers, o))
    {
      var q := questions[qIndex];
      var cs := q.correctAnswers;
      if q.kind == Single {
        cs := [o];
      } else if o in cs {
        var idx := IndexIn(cs, o);
        cs := cs[..idx] + cs[idx + 1..];
      } else {
        cs := cs + [o];
      }
      questions := questions[qIndex := q.(correctAnswers := cs)];
    }

    /** handleDeleteOption: removes the option and re-bases the correct indices. */
    method DeleteOption(qIndex: int, o: int)
      requires 0 <= qIndex < |questions| && 0 <= o < |questions[qIndex].options|
      modifies this
      ensures |questions| == |old(questions)|
      ensures forall i :: 0 <= i < |questions| && i != qIndex ==> questions[i] == old(questions)[i]
      ensures questions[qIndex] == old(questions)[qIndex].(
        options := RemoveAt(old(questions)[qIndex].options, o),
        correctAnswers := Reindexed(old(questions)[qIndex].correctAnswers, o))
    {
      var q := questions[qIndex];
      questions := questions[qIndex := q.(options := RemoveAt(q.options, o),
                                          correctAnswers := Reindexed(q.correctAnswers, o))];
    }

    /** handleAddOption: appends an empty option to that question only. */
    method AddOption(qIndex: int)
      requires 0 <= qIndex < |questions|
      modifies this
      ensures questions == old(questions)[qIndex := old(questions)[qIndex].(options := old(questions)[qIndex].options + [""])]
    {
      var q := questions[qIndex];
      questions := questions[qIndex := q.(options := q.options + [""])];
    }

    /** handleDeleteQuestion: removes exactly the question at that index. */
    method DeleteQuestion(index: int)
      requires 0 <= index < |questions|
      modifies this
      ensures questions == old(questions)[..index] + old(questions)[index + 1..]
    {
      questions := questions[..index] + questions[index + 1..];
    }

    /** handleAddQuestion. */
    method AddQuestion(stamp: int)
      modifies this
      ensures questions == old(questions) + [NewQuestion(stamp)]
    {
      questions := questions + [NewQuestion(stamp)];
    }

    /** handleTypeChange: only the type changes; the correct answers are kept as they are. */
    method TypeChange(qIndex: int, kind: QuestionType)
      requires 0 <= qIndex < |questions|
      modifies this
      ensures questions == old(questions)[qIndex := old(questions)[qIndex].(kind := kind)]
    {
      questions := questions[qIndex := questions[qIndex].(kind := kind)];
    }

    /** The points input: stores `parseInt(value) || 1` as the score. */
    method ScoreChange(qIndex: int, input: string)
      requires 0 <= qIndex < |questions|
      modifies this
      ensures questions == old(questions)[qIndex := old(questions)[qIndex].(score := ScoreEntry(input))]
      ensures questions[qIndex].score != 0
    {
      questions := questions[qIndex := questions[qIndex].(score := ScoreEntry(input))];
    }
  }
}
