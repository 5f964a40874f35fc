/**
 * The "new conference" dialog: the class picker's options and how the picked
 * classes become the form's list of invited users.
 */
module AddConference {
  import opened Wrappers
  import opened JsValue
  import MeetSchema

  /** A class as the classes query returns it; `students` is whatever the server sent. */
  datatype ClassItem = ClassItem(id: string, name: string, students: Json)

  /** An entry of the multiple selector: its label, its value and the students it carries. */
  datatype Choice = Choice(caption: string, value: string, students: Json)

  /** The selector's options: one per class, in order. */
  function Choices(classes: seq<ClassItem>): (r: seq<Choice>)
    ensures |r| == |classes|
    ensures forall i :: 0 <= i < |classes| ==>
              r[i].caption == classes[i].name && r[i].value == classes[i].id && r[i].students == classes[i].students
  {
    seq(|classes|, i requires 0 <= i < |classes| => Choice(classes[i].name, classes[i].id, classes[i].students))
  }

  /** A student's `_id` when it is a string; anything else is dropped. */
  function StudentId(s: Json): (r: Option<string>)
    ensures r.Some? <==> Get(s, "_id").JStr?
  {
    if Get(s, "_id").JStr? then Some(Get(s, "_id").s) else None
  }

  /** The first student's id, if a string, in front of the ids collected from the others. */
  function ConsIds(students: seq<Json>, rest: seq<string>): seq<string>
    requires students != []
  {
    (if StudentId(students[0]).Some? then [StudentId(students[0]).value] else []) + rest
  }

  /** Every collected id is the string `_id` of some student. */
  predicate IdsSound(students: seq<Json>, r: seq<string>) {
    forall x :: x in r ==> exists k :: 0 <= k < |students| && Get(students[k], "_id") == JStr(x)
  }

  /** Every string `_id` is collected. */
  predicate IdsComplete(students: seq<Json>, r: seq<string>) {
    forall k {:trigger Get(students[k], "_id")} :: 0 <= k < |students| && Get(students[k], "_id").JStr? ==> Get(students[k], "_id").s in r
  }

  /** When every `_id` is a string, the ids are collected one per student, in order. */
  predicate IdsExact(students: seq<Json>, r: seq<string>) {
    (forall k {:trigger Get(students[k], "_id")} :: 0 <= k < |students| ==> Get(students[k], "_id").JStr?) ==>
      |r| == |students| && forall i {:trigger Get(students[i], "_id")} :: 0 <= i < |r| ==> Get(students[i], "_id") == JStr(r[i])
  }

  lemma IdsSoundCons(students: seq<Json>, rest: seq<string>)
    requires students != [] && IdsSound(students[1..], rest)
    ensures IdsSound(students, ConsIds(students, rest))
  {
    var tail := students[1..];
    forall x | x in ConsIds(students, rest) ensures exists k :: 0 <= k < |students| && Get(students[k], "_id") == JStr(x) {
      if x in rest {
        var k :| 0 <= k < |tail| && Get(tail[k], "_id") == JStr(x);
        assert Get(students[k + 1], "_id") == JStr(x);
      } else {
        assert Get(students[0], "_id") == JStr(x);
      }
    }
  }

  lemma IdsCompleteCons(students: seq<Json>, rest: seq<string>)
    requires students != [] && IdsComplete(students[1..], rest)
    ensures IdsComplete(students, ConsIds(students, rest))
  {
    var tail := students[1..];
    forall k | 0 <= k < |students| && Get(students[k], "_id").JStr?
      ensures Get(students[k], "_id").s in ConsIds(students, rest)
    {
      if k > 0 {
        assert students[k] == tail[k - 1];
      }
    }
  }

  lemma IdsExactCons(students: seq<Json>, rest: seq<string>)
    requires students != [] && IdsExact(students[1..], rest)
    ensures IdsExact(students, ConsIds(students, rest))
  {
    var tail := students[1..];
    var r := ConsIds(students, rest);
    if forall k :: 0 <= k < |students| ==> Get(students[k], "_id").JStr? {
      assert Get(students[0], "_id").JStr?;
      forall k | 0 <= k < |tail| ensures Get(tail[k], "_id").JStr? {
        assert tail[k] == students[k + 1];
      }
      forall i | 0 <= i < |r| ensures Get(students[i], "_id") == JStr(r[i]) {
        if i > 0 {
          assert r[i] == rest[i - 1] && students[i] == tail[i - 1];
        }
      }
    }
  }

  /**
   * The ids a class contributes: each is the string `_id` of one of its
   * students, every string `_id` is among them, and when every student has a
   * string `_id` they are all kept, in order.
   */
  function IdsOf(students: seq<Json>): (r: seq<string>)
    ensures |r| <= |students|
    ensures forall x :: x in r ==> exists k :: 0 <= k < |students| && Get(students[k], "_id") == JStr(x)
    ensures forall k {:trigger Get(students[k], "_id")} :: 0 <= k < |students| && Get(students[k], "_id").JStr? ==> Get(students[k], "_id").s in r
    ensures (forall k {:trigger Get(students[k], "_id")} :: 0 <= k < |students| ==> Get(students[k], "_id").JStr?) ==>
              |r| == |students| && forall i {:trigger Get(students[i], "_id")} :: 0 <= i < |r| ==> Get(students[i], "_id") == JStr(r[i])
  {
    if students == [] then []
    else
      var rest := IdsOf(students[1..]);
      assert IdsSound(students[1..], rest) && IdsComplete(students[1..], rest) && IdsExact(students[1..], rest);
      IdsSoundCons(students, rest);
      IdsCompleteCons(students, rest);
      IdsExactCons(students, rest);
      ConsIds(students, rest)
  }

  /** The string ids a picked entry contributes: none unless it carries a students array. */
  function ChoiceIds(c: Choice): seq<string> {
    if c.students.JArr? then IdsOf(c.students.items) else []
  }

  /** selectedStudentIds: the picked entries' contributions, concatenated in pick order. */
  function SelectedStudentIds(picked: seq<Choice>): (r: seq<string>)
  {
    if picked == [] then [] else ChoiceIds(picked[0]) + SelectedStudentIds(picked[1..])
  }

  /** Picking entries one after another collects their ids in that order. */
  lemma {:induction false} SelectedIdsAppend(a: seq<Choice>, b: seq<Choice>)
    ensures SelectedStudentIds(a + b) == SelectedStudentIds(a) + SelectedStudentIds(b)
  {
    if a == [] {
      assert a + b == b;
    } else {
      assert (a + b)[0] == a[0];
      assert (a + b)[1..] == a[1..] + b;
      SelectedIdsAppend(a[1..], b);
    }
  }

  /** Every collected id is the string `_id` of a student of a picked entry. */
  lemma {:induction false} IdsComeFromStudents(students: seq<Json>)
    ensures forall x :: x in IdsOf(students) ==>
              exists k :: 0 <= k < |students| && Get(students[k], "_id") == JStr(x)
  {
    if students != [] {
      IdsComeFromStudents(students[1..]);
      forall x | x in IdsOf(students)
        ensures exists k :: 0 <= k < |students| && Get(students[k], "_id") == JStr(x)
      {
        if StudentId(students[0]).Some? && x == StudentId(students[0]).value {
          assert Get(students[0], "_id") == JStr(x);
        } else {
          var k :| 0 <= k < |students[1..]| && Get(students[1..][k], "_id") == JStr(x);
          assert Get(students[k + 1], "_id") == JStr(x);
        }
      }
    }
  }

  /** The filter works student by student, so the kept ids stay in list order. */
  lemma {:induction false} IdsOfAppend(a: seq<Json>, b: seq<Json>)
    ensures IdsOf(a + b) == IdsOf(a) + IdsOf(b)
  {
    if a == [] {
      assert a + b == b;
    } else {
      var ab := a + b;
      assert ab[0] == a[0];
      assert ab[1..] == a[1..] + b;
      IdsOfAppend(a[1..], b);
      calc {
        IdsOf(ab);
        ConsIds(ab, IdsOf(a[1..] + b));
        ConsIds(a, IdsOf(a[1..]) + IdsOf(b));
        ConsIds(a, IdsOf(a[1..])) + IdsOf(b);
        IdsOf(a) + IdsOf(b);
      }
    }
  }

  /**
   * Whatever surrounds it, a student with a string `_id` contributes exactly
   * that id, at its place in the list, and any other student contributes nothing.
   */
  lemma StringIdsAllKept(before: seq<Json>, s: Json, after: seq<Json>)
    ensures IdsOf(before + [s] + after) ==
      IdsOf(before) + (if Get(s, "_id").JStr? then [Get(s, "_id").s] else []) + IdsOf(after)
  {
    var own := if Get(s, "_id").JStr? then [Get(s, "_id").s] else [];
    assert IdsOf([s]) == own by {
      assert [s][0] == s && [s][1..] == [];
    }
    IdsOfAppend(before, [s]);
    IdsOfAppend(before + [s], after);
  }

  class Dialog {
    var selectedClasses: seq<Choice>
    var form: Json

    /** The form starts with an empty name and no users. */
    constructor ()
      ensures selectedClasses == []
      ensures form == JObj(map["name" := JStr(""), "users" := JArr([])])
    {
      selectedClasses := [];
      form := JObj(map["name" := JStr(""), "users" := JArr([])]);
    }

    /** The selector's onChange: the UI selection and the form's users field follow the new value. */
    method SelectorChange(value: seq<Choice>)
      requires form.JObj?
      modifies this
      ensures selectedClasses == value
      ensures form == JObj(old(form).fields["users" := StrArrayJson(SelectedStudentIds(value))])
    {
      selectedClasses := value;
      form := JObj(form.fields["users" := StrArrayJson(SelectedStudentIds(value))]);
    }
  }

  /** The dialog's default values do not pass the meeting schema. */
  lemma DefaultsRejected()
    ensures MeetSchema.Parse(JObj(map["name" := JStr(""), "users" := JArr([])])) == None
  {
    var v := JObj(map["name" := JStr(""), "users" := JArr([])]);
    assert Get(v, "name") == JStr("");
  }

  /** After picking, the users field reads back, through z.array(z.string()), as the collected ids. */
  lemma UsersFieldReadsBack(fields: map<string, Json>, value: seq<Choice>)
    ensures Array(Get(JObj(fields["users" := StrArrayJson(SelectedStudentIds(value))]), "users"), Str)
            == Some(SelectedStudentIds(value))
  {
    StringArrayRoundTrip(SelectedStudentIds(value));
  }
}
