/**
 * The zod schema of the stand-alone quiz form: options, questions with an
 * optional point value, and a quiz whose four totals default to zero.
 */
module QuizSchema {
  import opened Wrappers
  import opened JsValue

  function StrJson(s: string): Json { JStr(s) }
  function BoolJson(b: bool): Json { JBool(b) }
  function NumJson(n: real): Json { JNum(n) }

  datatype Choice = Choice(text: string, correct: Option<bool>)

  predicate ChoiceOk(o: Choice) { MinLength(o.text, 1) }

  function ParseChoice(v: Json): (r: Option<Choice>)
    ensures r.Some? ==> ChoiceOk(r.value)
  {
    if !v.JObj? then None
    else
      var text := Str(Get(v, "text"));
      var correct := Optional(Get(v, "correct"), Bool);
      if text.Some? && MinLength(text.value, 1) && correct.Some? then Some(Choice(text.value, correct.value)) else None
  }

  function ChoiceJson(o: Choice): Json {
    JObj(PutOpt(map["text" := JStr(o.text)], "correct", EncodeOpt(o.correct, BoolJson)))
  }

  lemma ChoiceRoundTrip(o: Choice)
    ensures ParseChoice(ChoiceJson(o)) == if ChoiceOk(o) then Some(o) else None
  {
    var v := ChoiceJson(o);
    assert Get(v, "text") == JStr(o.text);
    assert Get(v, "correct") == EncodeOpt(o.correct, BoolJson);
  }

  datatype Question = Question(
    question: string,
    options: seq<Choice>,
    isboolean: Option<bool>,
    explanation: Option<string>,
    point: Option<real>)

  predicate QuestionOk(q: Question) {
    MinLength(q.question, 1) && |q.options| >= 1 && forall i :: 0 <= i < |q.options| ==> ChoiceOk(q.options[i])
  }

  function ParseQuestion(v: Json): (r: Option<Question>)
    ensures r.Some? ==> QuestionOk(r.value)
  {
    if !v.JObj? then None
    else
      var text := Str(Get(v, "question"));
      var options := Array(Get(v, "options"), ParseChoice);
      var isboolean := Optional(Get(v, "isboolean"), Bool);
      var explanation := Optional(Get(v, "explanation"), Str);
      var point := Optional(Get(v, "point"), Num);
      if text.Some? && MinLength(text.value, 1) && options.Some? && |options.value| >= 1 &&
         isboolean.Some? && explanation.Some? && point.Some?
      then Some(Question(text.value, options.value, isboolean.value, explanation.value, point.value))
      else None
  }

  function QuestionJson(q: Question): Json {
    var m := map["question" := JStr(q.question), "options" := Encode(q.options, ChoiceJson)];
    var m1 := PutOpt(m, "isboolean", EncodeOpt(q.isboolean, BoolJson));
    var m2 := PutOpt(m1, "explanation", EncodeOpt(q.explanation, StrJson));
    JObj(PutOpt(m2, "point", EncodeOpt(q.point, NumJson)))
  }

  /** The fields of an encoded question read back as written. */
  lemma QuestionFields(q: Question)
    ensures var v := QuestionJson(q);
            Get(v, "question") == JStr(q.question) && Get(v, "options") == Encode(q.options, ChoiceJson) &&
            Get(v, "isboolean") == EncodeOpt(q.isboolean, BoolJson) &&
            Get(v, "explanation") == EncodeOpt(q.explanation, StrJson) &&
            Get(v, "point") == EncodeOpt(q.point, NumJson)
  {
    var m := map["question" := JStr(q.question), "options" := Encode(q.options, ChoiceJson)];
    var m1 := PutOpt(m, "isboolean", EncodeOpt(q.isboolean, BoolJson));
    var m2 := PutOpt(m1, "explanation", EncodeOpt(q.explanation, StrJson));
    assert Get(JObj(m2), "question") == JStr(q.question);
    assert Get(JObj(m2), "options") == Encode(q.options, ChoiceJson);
  }

  lemma QuestionRoundTrip(q: Question)
    ensures ParseQuestion(QuestionJson(q)) == if QuestionOk(q) then Some(q) else None
  {
    QuestionFields(q);
    forall i | 0 <= i < |q.options|
      ensures ParseChoice(ChoiceJson(q.options[i])) == if ChoiceOk(q.options[i]) then Some(q.options[i]) else None
    {
      ChoiceRoundTrip(q.options[i]);
    }
    ArrayRoundTrip(q.options, ChoiceJson, ParseChoice, ChoiceOk);
  }

  datatype QuizType = ChoixUnique | ChoixMultiple | Boolean | Texte

  function TypeName(t: QuizType): string {
    match t
    case ChoixUnique => "choix-unique"
    case ChoixMultiple => "choix-multiple"
    case Boolean => "boolean"
    case Texte => "texte"
  }

  function TypeJson(t: QuizType): Json { JStr(TypeName(t)) }

  function ParseType(v: Json): (r: Option<QuizType>)
    ensures r.Some? <==> v.JStr? && v.s in {"choix-unique", "choix-multiple", "boolean", "texte"}
    ensures r.Some? ==> v == TypeJson(r.value)
  {
    if v == JStr("choix-unique") then Some(ChoixUnique)
    else if v == JStr("choix-multiple") then Some(ChoixMultiple)
    else if v == JStr("boolean") then Some(Boolean)
    else if v == JStr("texte") then Some(Texte)
    else None
  }

  /** Every quiz type written out parses back to itself. */
  lemma TypeRoundTrip(t: QuizType)
    ensures ParseType(TypeJson(t)) == Some(t)
  {
    match t
    case ChoixUnique =>
    case ChoixMultiple => assert "choix-multiple" != "choix-unique";
    case Boolean => assert "boolean" != "choix-unique" && "boolean" != "choix-multiple";
    case Texte => assert "texte" != "choix-unique" && "texte" != "choix-multiple" && "texte" != "boolean";
  }

  /** `z.number().optional().default(0)`: undefined becomes 0, a number is kept, anything else fails. */
  function DefaultZero(v: Json): (r: Option<real>)
    ensures v.JUndefined? ==> r == Some(0.0)
    ensures v.JNum? ==> r == Some(v.n)
    ensures r.Some? <==> v.JUndefined? || v.JNum?
  {
    if v.JUndefined? then Some(0.0) else Num(v)
  }

  /** The parsed quiz: the totals are always present once the defaults are applied. */
  datatype Quiz = Quiz(
    title: string,
    description: string,
    kind: Option<QuizType>,
    instructor: string,
    subject: Option<string>,
    sharedSubject: Option<string>,
    lesson: Option<string>,
    questions: seq<Question>,
    scholarityConfigId: Option<string>,
    totalAttempts: real,
    totalTimeTaken: real,
    successRate: real,
    score: real)

  predicate QuizOk(z: Quiz) {
    MinLength(z.title, 1) && MinLength(z.description, 1) && MinLength(z.instructor, 1) &&
    |z.questions| >= 1 && forall i :: 0 <= i < |z.questions| ==> QuestionOk(z.questions[i])
  }

  /** The four totals of a quiz object, each defaulted to zero. */
  function Totals(v: Json): (r: Option<(real, real, real, real)>)
    ensures r.Some? ==> Get(v, "totalAttempts").JUndefined? ==> r.value.0 == 0.0
    ensures r.Some? ==> Get(v, "score").JUndefined? ==> r.value.3 == 0.0
  {
    var a := DefaultZero(Get(v, "totalAttempts"));
    var t := DefaultZero(Get(v, "totalTimeTaken"));
    var s := DefaultZero(Get(v, "successRate"));
    var p := DefaultZero(Get(v, "score"));
    if a.Some? && t.Some? && s.Some? && p.Some? then Some((a.value, t.value, s.value, p.value)) else None
  }

  /** The optional text fields of a quiz object. */
  function Links(v: Json): Option<(Option<string>, Option<string>, Option<string>, Option<string>)> {
    var subject := Optional(Get(v, "subject"), Str);
    var shared := Optional(Get(v, "sharedSubject"), Str);
    var lesson := Optional(Get(v, "lesson"), Str);
    var config := Optional(Get(v, "scholarityConfigId"), Str);
    if subject.Some? && shared.Some? && lesson.Some? && config.Some?
    then Some((subject.value, shared.value, lesson.value, config.value))
    else None
  }

  /** QuizSchema.safeParse */
  function ParseQuiz(v: Json): (r: Option<Quiz>)
    ensures r.Some? ==> QuizOk(r.value)
    ensures r.Some? ==> v.JObj? && Get(v, "instructor").JStr?
    ensures r.Some? && Get(v, "totalAttempts").JUndefined? ==> r.value.totalAttempts == 0.0
    ensures r.Some? && Get(v, "score").JUndefined? ==> r.value.score == 0.0
  {
    if !v.JObj? then None
    else
      var title := Str(Get(v, "title"));
      var description := Str(Get(v, "description"));
      var kind := Optional(Get(v, "type"), ParseType);
      var instructor := Str(Get(v, "instructor"));
      var links := Links(v);
      var questions := Array(Get(v, "questions"), ParseQuestion);
      var totals := Totals(v);
      if title.Some? && MinLength(title.value, 1) && description.Some? && MinLength(description.value, 1) &&
         kind.Some? && instructor.Some? && MinLength(instructor.value, 1) && links.Some? &&
         questions.Some? && |questions.value| >= 1 && totals.Some?
      then
        var (subject, shared, lesson, config) := links.value;
        var (a, t, s, p) := totals.value;
        Some(Quiz(title.value, description.value, kind.value, instructor.value, subject, shared, lesson,
                  questions.value, config, a, t, s, p))
      else None
  }

  function QuizBase(z: Quiz): map<string, Json> {
    map["title" := JStr(z.title), "description" := JStr(z.description), "instructor" := JStr(z.instructor),
        "questions" := Encode(z.questions, QuestionJson),
        "totalAttempts" := JNum(z.totalAttempts), "totalTimeTaken" := JNum(z.totalTimeTaken),
        "successRate" := JNum(z.successRate), "score" := JNum(z.score)]
  }

  /** The optional fields, each left out when absent. */
  function QuizOpts(z: Quiz): seq<(string, Json)> {
    [("type", EncodeOpt(z.kind, TypeJson)),
     ("subject", EncodeOpt(z.subject, StrJson)),
     ("sharedSubject", EncodeOpt(z.sharedSubject, StrJson)),
     ("lesson", EncodeOpt(z.lesson, StrJson)),
     ("scholarityConfigId", EncodeOpt(z.scholarityConfigId, StrJson))]
  }

  /** The quiz as the form holds it once parsed. */
  function QuizJson(z: Quiz): Json { JObj(PutAll(QuizBase(z), QuizOpts(z))) }

  /** A base field survives the optional ones. */
  lemma QuizBaseField(z: Quiz, k: string)
    requires k in QuizBase(z)
    ensures Get(QuizJson(z), k) == QuizBase(z)[k]
  {
    var puts := QuizOpts(z);
    forall i | 0 <= i < |puts| ensures puts[i].0 != k {
      assert puts[i].0[0] in {'t', 's', 'l'};
      assert puts[i].0 == "type" || puts[i].0[0] != 't';
    }
    GetPastPuts(QuizBase(z), puts, k);
  }

  /** Each optional field of an encoded quiz reads back as written. */
  lemma QuizOptFields(z: Quiz)
    ensures var v := QuizJson(z);
            Get(v, "type") == EncodeOpt(z.kind, TypeJson) &&
            Get(v, "subject") == EncodeOpt(z.subject, StrJson) &&
            Get(v, "sharedSubject") == EncodeOpt(z.sharedSubject, StrJson) &&
            Get(v, "lesson") == EncodeOpt(z.lesson, StrJson) &&
            Get(v, "scholarityConfigId") == EncodeOpt(z.scholarityConfigId, StrJson)
  {
    var m, puts := QuizBase(z), QuizOpts(z);
    assert |puts[0].0| == 4 && |puts[1].0| == 7 && |puts[2].0| == 13 && |puts[3].0| == 6 && |puts[4].0| == 18;
    GetPut(m, puts, 0);
    GetPut(m, puts, 1);
    GetPut(m, puts, 2);
    GetPut(m, puts, 3);
    GetPut(m, puts, 4);
  }

  /** The required text fields of an encoded quiz parse back to themselves. */
  lemma QuizTextsRead(z: Quiz)
    ensures var v := QuizJson(z);
            Str(Get(v, "title")) == Some(z.title) && Str(Get(v, "description")) == Some(z.description) &&
            Str(Get(v, "instructor")) == Some(z.instructor)
  {
    var v := QuizJson(z);
    assert Get(v, "title") == JStr(z.title) by { QuizBaseField(z, "title"); }
    assert Get(v, "description") == JStr(z.description) by { QuizBaseField(z, "description"); }
    assert Get(v, "instructor") == JStr(z.instructor) by { QuizBaseField(z, "instructor"); }
  }

  /** The totals of an encoded quiz parse back to themselves. */
  lemma QuizTotalsRead(z: Quiz)
    ensures Totals(QuizJson(z)) == Some((z.totalAttempts, z.totalTimeTaken, z.successRate, z.score))
  {
    QuizBaseField(z, "totalAttempts");
    QuizBaseField(z, "totalTimeTaken");
    QuizBaseField(z, "successRate");
    QuizBaseField(z, "score");
  }

  /** The optional type of an encoded quiz parses back to itself. */
  lemma QuizTypeRead(z: Quiz)
    ensures Optional(Get(QuizJson(z), "type"), ParseType) == Some(z.kind)
  {
    var v := Get(QuizJson(z), "type");
    assert v == EncodeOpt(z.kind, TypeJson) by { QuizOptFields(z); }
    if z.kind.Some? {
      TypeRoundTrip(z.kind.value);
    }
  }

  /** The optional text fields of an encoded quiz parse back to themselves. */
  lemma QuizLinksRead(z: Quiz)
    ensures Links(QuizJson(z)) == Some((z.subject, z.sharedSubject, z.lesson, z.scholarityConfigId))
  {
    QuizOptFields(z);
  }

  lemma QuestionsField(z: Quiz)
    ensures Get(QuizJson(z), "questions") == Encode(z.questions, QuestionJson)
  {
    QuizBaseField(z, "questions");
  }

  /** The questions of an encoded quiz parse back exactly when each is valid. */
  lemma QuizQuestionsRead(z: Quiz)
    ensures Array(Get(QuizJson(z), "questions"), ParseQuestion) ==
            if forall i :: 0 <= i < |z.questions| ==> QuestionOk(z.questions[i]) then Some(z.questions) else None
  {
    QuestionsField(z);
    QuestionsRoundTrip(z.questions);
  }

  /** A list of questions parses back exactly when each question is valid. */
  lemma QuestionsRoundTrip(qs: seq<Question>)
    ensures Array(Encode(qs, QuestionJson), ParseQuestion) ==
            if forall i :: 0 <= i < |qs| ==> QuestionOk(qs[i]) then Some(qs) else None
  {
    forall i | 0 <= i < |qs|
      ensures ParseQuestion(QuestionJson(qs[i])) == if QuestionOk(qs[i]) then Some(qs[i]) else None
    {
      QuestionRoundTrip(qs[i]);
    }
    ArrayRoundTrip(qs, QuestionJson, ParseQuestion, QuestionOk);
  }

  /** A parsed quiz written back as a form value parses to itself exactly when its rules hold. */
  lemma QuizRoundTrip(z: Quiz)
    ensures ParseQuiz(QuizJson(z)) == if QuizOk(z) then Some(z) else None
  {
    QuizTextsRead(z);
    QuizTotalsRead(z);
    QuizTypeRead(z);
    QuizLinksRead(z);
    QuizQuestionsRead(z);
  }

  /** A quiz sent without any of the totals comes back with all four at zero. */
  lemma MissingTotalsDefaultToZero(v: Json)
    requires ParseQuiz(v).Some?
    requires Get(v, "totalAttempts") == JUndefined && Get(v, "totalTimeTaken") == JUndefined
    requires Get(v, "successRate") == JUndefined && Get(v, "score") == JUndefined
    ensures var z := ParseQuiz(v).value;
            z.totalAttempts == 0.0 && z.totalTimeTaken == 0.0 && z.successRate == 0.0 && z.score == 0.0
  {
    assert Totals(v) == Some((0.0, 0.0, 0.0, 0.0));
  }

  /** A total that is present but not a number makes the whole quiz fail. */
  lemma NonNumericTotalRejected(v: Json, field: string)
    requires field in {"totalAttempts", "totalTimeTaken", "successRate", "score"}
    requires !Get(v, field).JUndefined? && !Get(v, field).JNum?
    ensures ParseQuiz(v) == None
  {
    assert Totals(v) == None;
  }
}
