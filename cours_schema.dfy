/**
 * The zod schemas of the course form: a course, its chapters (with study
 * materials, a document kind and embedded quizzes), and the quizzes'
 * questions and options.
 */
module CoursSchema {
  import opened Wrappers
  import opened JsValue

  function StrJson(s: string): Json { JStr(s) }
  function BoolJson(b: bool): Json { JBool(b) }
  function NumJson(n: real): Json { JNum(n) }

  // ---- options and questions

  datatype Choice = Choice(text: string, correct: Option<bool>)

  predicate ChoiceOk(o: Choice) { MinLength(o.text, 1) }

  function ParseChoice(v: Json): (r: Option<Choice>)
    ensures r.Some? ==> ChoiceOk(r.value)
  {
    if !v.JObj? then None
    else
      var text := Str(Get(v, "text"));
      var correct := Optional(Get(v, "correct"), Bool);
      if text.Some? && MinLength(text.value, 1) && correct.Some? then Some(Choice(text.value, correct.value)) else None
  }

  function ChoiceJson(o: Choice): Json {
    JObj(PutOpt(map["text" := JStr(o.text)], "correct", EncodeOpt(o.correct, BoolJson)))
  }

  lemma ChoiceRoundTrip(o: Choice)
    ensures ParseChoice(ChoiceJson(o)) == if ChoiceOk(o) then Some(o) else None
  {
    var v := ChoiceJson(o);
    assert Get(v, "text") == JStr(o.text);
    assert Get(v, "correct") == EncodeOpt(o.correct, BoolJson);
  }

  datatype Question = Question(question: string, options: seq<Choice>, isboolean: Option<bool>, explanation: Option<string>)

  predicate QuestionOk(q: Question) {
    MinLength(q.question, 1) && |q.options| >= 1 && forall i :: 0 <= i < |q.options| ==> ChoiceOk(q.options[i])
  }

  function ParseQuestion(v: Json): (r: Option<Question>)
    ensures r.Some? ==> QuestionOk(r.value)
  {
    if !v.JObj? then None
    else
      var text := Str(Get(v, "question"));
      var options := Array(Get(v, "options"), ParseChoice);
      var isboolean := Optional(Get(v, "isboolean"), Bool);
      var explanation := Optional(Get(v, "explanation"), Str);
      if text.Some? && MinLength(text.value, 1) && options.Some? && |options.value| >= 1 &&
         isboolean.Some? && explanation.Some?
      then Some(Question(text.value, options.value, isboolean.value, explanation.value))
      else None
  }

  function QuestionJson(q: Question): Json {
    var m := map["question" := JStr(q.question), "options" := Encode(q.options, ChoiceJson)];
    JObj(PutOpt(PutOpt(m, "isboolean", EncodeOpt(q.isboolean, BoolJson)), "explanation", EncodeOpt(q.explanation, StrJson)))
  }

  lemma QuestionRoundTrip(q: Question)
    ensures ParseQuestion(QuestionJson(q)) == if QuestionOk(q) then Some(q) else None
  {
    var v := QuestionJson(q);
    assert Get(v, "question") == JStr(q.question);
    assert Get(v, "options") == Encode(q.options, ChoiceJson);
    assert Get(v, "isboolean") == EncodeOpt(q.isboolean, BoolJson);
    assert Get(v, "explanation") == EncodeOpt(q.explanation, StrJson);
    forall i | 0 <= i < |q.options|
      ensures ParseChoice(ChoiceJson(q.options[i])) == if ChoiceOk(q.options[i]) then Some(q.options[i]) else None
    {
      ChoiceRoundTrip(q.options[i]);
    }
    ArrayRoundTrip(q.options, ChoiceJson, ParseChoice, ChoiceOk);
  }

  // ---- embedded quizzes

  datatype Quiz = Quiz(
    title: string,
    scholarityConfigId: Option<string>,
    questions: seq<Question>,
    totalAttempts: Option<real>,
    totalTimeTaken: Option<real>,
    successRate: Option<real>)

  predicate QuizOk(z: Quiz) {
    MinLength(z.title, 1) && |z.questions| >= 1 &&
    (forall i :: 0 <= i < |z.questions| ==> QuestionOk(z.questions[i])) &&
    (z.totalAttempts.Some? ==> z.totalAttempts.value >= 0.0) &&
    (z.totalTimeTaken.Some? ==> z.totalTimeTaken.value >= 0.0) &&
    (z.successRate.Some? ==> 0.0 <= z.successRate.value <= 100.0)
  }

  /** An optional number bounded below (and above when `hi` is given). */
  function InRange(n: Option<Option<real>>, lo: real, hi: Option<real>): bool {
    n.Some? && (n.value.Some? ==> lo <= n.value.value && (hi.Some? ==> n.value.value <= hi.value))
  }

  function ParseQuiz(v: Json): (r: Option<Quiz>)
    ensures r.Some? ==> QuizOk(r.value)
  {
    if !v.JObj? then None
    else
      var title := Str(Get(v, "title"));
      var config := Optional(Get(v, "scholarityConfigId"), Str);
      var questions := Array(Get(v, "questions"), ParseQuestion);
      var attempts := Optional(Get(v, "totalAttempts"), Num);
      var time := Optional(Get(v, "totalTimeTaken"), Num);
      var rate := Optional(Get(v, "successRate"), Num);
      if title.Some? && MinLength(title.value, 1) && config.Some? && questions.Some? && |questions.value| >= 1 &&
         InRange(attempts, 0.0, None) && InRange(time, 0.0, None) && InRange(rate, 0.0, Some(100.0))
      then Some(Quiz(title.value, config.value, questions.value, attempts.value, time.value, rate.value))
      else None
  }

  function QuizJson(z: Quiz): Json { JObj(PutAll(QuizBase(z), QuizOpts(z))) }

  function QuizBase(z: Quiz): map<string, Json> {
    map["title" := JStr(z.title), "questions" := Encode(z.questions, QuestionJson)]
  }

  /** The optional fields, each left out when absent. */
  function QuizOpts(z: Quiz): seq<(string, Json)> {
    [("scholarityConfigId", EncodeOpt(z.scholarityConfigId, StrJson)),
     ("totalAttempts", EncodeOpt(z.totalAttempts, NumJson)),
     ("totalTimeTaken", EncodeOpt(z.totalTimeTaken, NumJson)),
     ("successRate", EncodeOpt(z.successRate, NumJson))]
  }

  /** A base field survives the optional ones. */
  lemma QuizBaseField(z: Quiz, k: string)
    requires k in QuizBase(z)
    ensures Get(QuizJson(z), k) == QuizBase(z)[k]
  {
    var puts := QuizOpts(z);
    assert k == "title" || k == "questions";
    forall i | 0 <= i < |puts| ensures puts[i].0 != k {
      assert |puts[i].0| > 9;
    }
    GetPastPuts(QuizBase(z), puts, k);
  }

  /** Each optional field of an encoded quiz reads back as written. */
  lemma QuizOptFields(z: Quiz)
    ensures var v := QuizJson(z);
            Get(v, "scholarityConfigId") == EncodeOpt(z.scholarityConfigId, StrJson) &&
            Get(v, "totalAttempts") == EncodeOpt(z.totalAttempts, NumJson) &&
            Get(v, "totalTimeTaken") == EncodeOpt(z.totalTimeTaken, NumJson) &&
            Get(v, "successRate") == EncodeOpt(z.successRate, NumJson)
  {
    var m, puts := QuizBase(z), QuizOpts(z);
    assert puts[0].0[0] == 's' && puts[1].0[0] == 't' && puts[2].0[0] == 't' && puts[3].0[0] == 's';
    assert |puts[0].0| != |puts[3].0| && |puts[1].0| != |puts[2].0|;
    GetPut(m, puts, 0);
    GetPut(m, puts, 1);
    GetPut(m, puts, 2);
    GetPut(m, puts, 3);
  }

  /** The questions of an encoded quiz parse back exactly when each is valid. */
  lemma QuizQuestionsRead(z: Quiz)
    ensures Array(Get(QuizJson(z), "questions"), ParseQuestion) ==
            if forall i :: 0 <= i < |z.questions| ==> QuestionOk(z.questions[i]) then Some(z.questions) else None
  {
    QuizBaseField(z, "questions");
    QuestionsRoundTrip(z.questions);
  }

  /** A list of questions parses back exactly when each question is valid. */
  lemma QuestionsRoundTrip(qs: seq<Question>)
    ensures Array(Encode(qs, QuestionJson), ParseQuestion) ==
            if forall i :: 0 <= i < |qs| ==> QuestionOk(qs[i]) then Some(qs) else None
  {
    forall i | 0 <= i < |qs|
      ensures ParseQuestion(QuestionJson(qs[i])) == if QuestionOk(qs[i]) then Some(qs[i]) else None
    {
      QuestionRoundTrip(qs[i]);
    }
    ArrayRoundTrip(qs, QuestionJson, ParseQuestion, QuestionOk);
  }

  /** A quiz passes the schema unchanged exactly when its rules and those of its questions hold. */
  lemma QuizRoundTrip(z: Quiz)
    ensures ParseQuiz(QuizJson(z)) == if QuizOk(z) then Some(z) else None
  {
    QuizScalarsRead(z);
    QuizQuestionsRead(z);
  }

  /** The title, the class id and the totals of an encoded quiz parse back to themselves. */
  lemma QuizScalarsRead(z: Quiz)
    ensures var v := QuizJson(z);
            Str(Get(v, "title")) == Some(z.title) &&
            Optional(Get(v, "scholarityConfigId"), Str) == Some(z.scholarityConfigId) &&
            Optional(Get(v, "totalAttempts"), Num) == Some(z.totalAttempts) &&
            Optional(Get(v, "totalTimeTaken"), Num) == Some(z.totalTimeTaken) &&
            Optional(Get(v, "successRate"), Num) == Some(z.successRate)
  {
    QuizBaseField(z, "title");
    QuizOptFields(z);
  }

  // ---- chapters and the course

  datatype ChapterKind = Video | Document | QuizChapter

  function KindName(k: ChapterKind): string {
    match k
    case Video => "Video"
    case Document => "Document"
    case QuizChapter => "Quiz"
  }

  function ParseKind(v: Json): (r: Option<ChapterKind>)
    ensures r.Some? <==> v.JStr? && v.s in {"Video", "Document", "Quiz"}
    ensures r.Some? ==> v == JStr(KindName(r.value))
  {
    if v == JStr("Video") then Some(Video)
    else if v == JStr("Document") then Some(Document)
    else if v == JStr("Quiz") then Some(QuizChapter)
    else None
  }

  datatype DocumentKind = Word | Excel | Upload

  function DocumentName(k: DocumentKind): string {
    match k
    case Word => "word"
    case Excel => "excel"
    case Upload => "upload"
  }

  function DocumentJson(k: DocumentKind): Json { JStr(DocumentName(k)) }

  function ParseDocument(v: Json): (r: Option<DocumentKind>)
    ensures r.Some? <==> v.JStr? && v.s in {"word", "excel", "upload"}
    ensures r.Some? ==> v == DocumentJson(r.value)
  {
    if v == JStr("word") then Some(Word)
    else if v == JStr("excel") then Some(Excel)
    else if v == JStr("upload") then Some(Upload)
    else None
  }

  /** Every document kind written out parses back to itself. */
  lemma DocumentRoundTrip(k: DocumentKind)
    ensures ParseDocument(DocumentJson(k)) == Some(k)
  {
    match k
    case Word =>
    case Excel => assert "excel" != "word";
    case Upload => assert "upload" != "word" && "upload" != "excel";
  }

  datatype Material = Material(fileName: string, displayName: string)

  function ParseMaterial(v: Json): (r: Option<Material>)
    ensures r.Some? <==> v.JObj? && Get(v, "fileName").JStr? && Get(v, "displayName").JStr?
  {
    if v.JObj? && Get(v, "fileName").JStr? && Get(v, "displayName").JStr?
    then Some(Material(Get(v, "fileName").s, Get(v, "displayName").s))
    else None
  }

  function MaterialJson(m: Material): Json {
    JObj(map["fileName" := JStr(m.fileName), "displayName" := JStr(m.displayName)])
  }

  predicate AnyMaterial(m: Material) { true }

  function MaterialsJson(ms: seq<Material>): Json { Encode(ms, MaterialJson) }
  function ParseMaterials(v: Json): Option<seq<Material>> { Array(v, ParseMaterial) }
  function QuizzesJson(zs: seq<Quiz>): Json { Encode(zs, QuizJson) }
  function ParseQuizzes(v: Json): Option<seq<Quiz>> { Array(v, ParseQuiz) }

  /** `files: z.any().optional()` keeps whatever the form holds; undefined when absent. */
  datatype Chapter = Chapter(
    isCreatedBefore: Option<bool>,
    title: string,
    description: string,
    kind: ChapterKind,
    position: real,
    studyMaterials: Option<seq<Material>>,
    typeDocument: Option<DocumentKind>,
    jsonFiles: Option<string>,
    files: Json,
    quizzes: Option<seq<Quiz>>)

  predicate ChapterOk(c: Chapter) {
    MinLength(c.title, 5) && MinLength(c.description, 20) && c.position >= 1.0 &&
    (c.quizzes.Some? ==> forall i :: 0 <= i < |c.quizzes.value| ==> QuizOk(c.quizzes.value[i]))
  }

  function ParseChapter(v: Json): (r: Option<Chapter>)
    ensures r.Some? ==> ChapterOk(r.value)
  {
    if !v.JObj? then None
    else
      var before := Optional(Get(v, "isCreatedBefore"), Bool);
      var title := Str(Get(v, "title"));
      var description := Str(Get(v, "description"));
      var kind := ParseKind(Get(v, "type"));
      var position := Num(Get(v, "position"));
      var materials := Optional(Get(v, "studyMaterials"), ParseMaterials);
      var document := Optional(Get(v, "typeDocument"), ParseDocument);
      var jsonFiles := Optional(Get(v, "jsonFiles"), Str);
      var quizzes := Optional(Get(v, "quizzes"), ParseQuizzes);
      if before.Some? && title.Some? && MinLength(title.value, 5) && description.Some? &&
         MinLength(description.value, 20) && kind.Some? && position.Some? && position.value >= 1.0 &&
         materials.Some? && document.Some? && jsonFiles.Some? && quizzes.Some?
      then Some(Chapter(before.value, title.value, description.value, kind.value, position.value,
                        materials.value, document.value, jsonFiles.value, Get(v, "files"), quizzes.value))
      else None
  }

  function ChapterJson(c: Chapter): Json { JObj(PutAll(ChapterBase(c), ChapterOpts(c))) }

  lemma MaterialsRoundTrip(ms: seq<Material>)
    ensures ParseMaterials(MaterialsJson(ms)) == Some(ms)
  {
    forall i | 0 <= i < |ms|
      ensures ParseMaterial(MaterialJson(ms[i])) == Some(ms[i])
    {
      assert Get(MaterialJson(ms[i]), "fileName") == JStr(ms[i].fileName);
    }
    ArrayRoundTrip(ms, MaterialJson, ParseMaterial, AnyMaterial);
  }

  lemma QuizzesRoundTrip(zs: seq<Quiz>)
    ensures ParseQuizzes(QuizzesJson(zs)) == if forall i :: 0 <= i < |zs| ==> QuizOk(zs[i]) then Some(zs) else None
  {
    forall i | 0 <= i < |zs| ensures ParseQuiz(QuizJson(zs[i])) == if QuizOk(zs[i]) then Some(zs[i]) else None {
      QuizRoundTrip(zs[i]);
    }
    ArrayRoundTrip(zs, QuizJson, ParseQuiz, QuizOk);
  }

  function ChapterBase(c: Chapter): map<string, Json> {
    map["title" := JStr(c.title), "description" := JStr(c.description),
        "type" := JStr(KindName(c.kind)), "position" := JNum(c.position)]
  }

  /** The optional fields, each left out when absent; `files` is put as the form holds it. */
  function ChapterOpts(c: Chapter): seq<(string, Json)> {
    [("isCreatedBefore", EncodeOpt(c.isCreatedBefore, BoolJson)),
     ("studyMaterials", EncodeOpt(c.studyMaterials, MaterialsJson)),
     ("typeDocument", EncodeOpt(c.typeDocument, DocumentJson)),
     ("jsonFiles", EncodeOpt(c.jsonFiles, StrJson)),
     ("files", c.files),
     ("quizzes", EncodeOpt(c.quizzes, QuizzesJson))]
  }

  /** A base field survives the optional ones. */
  lemma ChapterBaseField(c: Chapter, k: string)
    requires k in ChapterBase(c)
    ensures Get(ChapterJson(c), k) == ChapterBase(c)[k]
  {
    var puts := ChapterOpts(c);
    assert k == "title" || k == "description" || k == "type" || k == "position";
    forall i | 0 <= i < |puts| ensures puts[i].0 != k {
      assert puts[i].0[0] in {'i', 's', 'j', 'f', 'q'} || puts[i].0 == "typeDocument";
    }
    GetPastPuts(ChapterBase(c), puts, k);
  }

  lemma ChapterBaseFields(c: Chapter)
    ensures var v := ChapterJson(c);
            Get(v, "title") == JStr(c.title) && Get(v, "description") == JStr(c.description) &&
            Get(v, "type") == JStr(KindName(c.kind)) && Get(v, "position") == JNum(c.position)
  {
    ChapterBaseField(c, "title");
    ChapterBaseField(c, "description");
    ChapterBaseField(c, "type");
    ChapterBaseField(c, "position");
  }

  /** The optional fields have distinct names. */
  lemma ChapterOptKeysDistinct(c: Chapter)
    ensures var puts := ChapterOpts(c);
            forall i, j :: 0 <= i < j < |puts| ==> puts[i].0 != puts[j].0
  {
    var puts := ChapterOpts(c);
    assert puts[0].0[0] == 'i' && puts[1].0[0] == 's' && puts[2].0[0] == 't';
    assert puts[3].0[0] == 'j' && puts[4].0[0] == 'f' && puts[5].0[0] == 'q';
  }

  /** Each optional field reads back as written: absent stays absent. */
  lemma ChapterOptFields(c: Chapter)
    ensures var v := ChapterJson(c);
            Get(v, "isCreatedBefore") == EncodeOpt(c.isCreatedBefore, BoolJson) &&
            Get(v, "studyMaterials") == EncodeOpt(c.studyMaterials, MaterialsJson) &&
            Get(v, "typeDocument") == EncodeOpt(c.typeDocument, DocumentJson)
  {
    var m, puts := ChapterBase(c), ChapterOpts(c);
    ChapterOptKeysDistinct(c);
    GetPut(m, puts, 0);
    GetPut(m, puts, 1);
    GetPut(m, puts, 2);
  }

  lemma ChapterTailFields(c: Chapter)
    ensures var v := ChapterJson(c);
            Get(v, "jsonFiles") == EncodeOpt(c.jsonFiles, StrJson) &&
            Get(v, "files") == c.files &&
            Get(v, "quizzes") == EncodeOpt(c.quizzes, QuizzesJson)
  {
    var m, puts := ChapterBase(c), ChapterOpts(c);
    ChapterOptKeysDistinct(c);
    GetPut(m, puts, 3);
    GetPut(m, puts, 4);
    GetPut(m, puts, 5);
  }

  /** Every required field of an encoded chapter parses back to the field. */
  lemma ChapterRequiredRead(c: Chapter)
    ensures var v := ChapterJson(c);
            Str(Get(v, "title")) == Some(c.title) && Str(Get(v, "description")) == Some(c.description) &&
            ParseKind(Get(v, "type")) == Some(c.kind) && Num(Get(v, "position")) == Some(c.position)
  {
    ChapterBaseFields(c);
  }

  /** The optional scalar fields of an encoded chapter parse back to the fields. */
  lemma ChapterOptionalRead(c: Chapter)
    ensures var v := ChapterJson(c);
            Optional(Get(v, "isCreatedBefore"), Bool) == Some(c.isCreatedBefore) &&
            Optional(Get(v, "jsonFiles"), Str) == Some(c.jsonFiles)
  {
    ChapterOptFields(c);
    ChapterTailFields(c);
  }

  /** The document kind of an encoded chapter parses back to itself. */
  lemma ChapterDocumentRead(c: Chapter)
    ensures Optional(Get(ChapterJson(c), "typeDocument"), ParseDocument) == Some(c.typeDocument)
  {
    assert Get(ChapterJson(c), "typeDocument") == EncodeOpt(c.typeDocument, DocumentJson) by { ChapterOptFields(c); }
    if c.typeDocument.Some? {
      DocumentRoundTrip(c.typeDocument.value);
    }
  }

  /** The study materials of an encoded chapter parse back to themselves. */
  lemma ChapterMaterialsRead(c: Chapter)
    ensures Optional(Get(ChapterJson(c), "studyMaterials"), ParseMaterials) == Some(c.studyMaterials)
  {
    ChapterOptFields(c);
    if c.studyMaterials.Some? {
      MaterialsRoundTrip(c.studyMaterials.value);
    }
  }

  /** The embedded quizzes of an encoded chapter parse back exactly when each is valid. */
  lemma ChapterQuizzesRead(c: Chapter)
    ensures var q := Optional(Get(ChapterJson(c), "quizzes"), ParseQuizzes);
            (q.Some? ==> q.value == c.quizzes) &&
            (q.Some? <==> (c.quizzes.Some? ==> forall i :: 0 <= i < |c.quizzes.value| ==> QuizOk(c.quizzes.value[i])))
  {
    ChapterTailFields(c);
    if c.quizzes.Some? {
      QuizzesRoundTrip(c.quizzes.value);
    }
  }

  /** A chapter passes the schema unchanged exactly when its rules and those of its quizzes hold. */
  lemma ChapterRoundTrip(c: Chapter)
    ensures ParseChapter(ChapterJson(c)) == if ChapterOk(c) then Some(c) else None
  {
    ChapterRequiredRead(c);
    ChapterOptionalRead(c);
    ChapterDocumentRead(c);
    ChapterMaterialsRead(c);
    ChapterQuizzesRead(c);
    assert Get(ChapterJson(c), "files") == c.files by { ChapterTailFields(c); }
  }

  datatype Course = Course(title: string, description: string, chapters: seq<Chapter>)

  predicate CourseOk(c: Course) {
    MinLength(c.title, 5) && MinLength(c.description, 20) && |c.chapters| >= 1 &&
    forall i :: 0 <= i < |c.chapters| ==> ChapterOk(c.chapters[i])
  }

  /** AddCoursSchema.safeParse */
  function ParseCourse(v: Json): (r: Option<Course>)
    ensures r.Some? ==> CourseOk(r.value)
  {
    if !v.JObj? then None
    else
      var title := Str(Get(v, "title"));
      var description := Str(Get(v, "description"));
      var chapters := Array(Get(v, "chapters"), ParseChapter);
      if title.Some? && MinLength(title.value, 5) && description.Some? && MinLength(description.value, 20) &&
         chapters.Some? && |chapters.value| >= 1
      then Some(Course(title.value, description.value, chapters.value))
      else None
  }

  function CourseJson(c: Course): Json {
    JObj(map["title" := JStr(c.title), "description" := JStr(c.description),
             "chapters" := Encode(c.chapters, ChapterJson)])
  }

  /** A course passes the schema unchanged exactly when it and all its parts keep the rules. */
  lemma CourseRoundTrip(c: Course)
    ensures ParseCourse(CourseJson(c)) == if CourseOk(c) then Some(c) else None
  {
    var v := CourseJson(c);
    assert Get(v, "title") == JStr(c.title);
    assert Get(v, "description") == JStr(c.description);
    assert Get(v, "chapters") == Encode(c.chapters, ChapterJson);
    forall i | 0 <= i < |c.chapters|
      ensures ParseChapter(ChapterJson(c.chapters[i])) == if ChapterOk(c.chapters[i]) then Some(c.chapters[i]) else None
    {
      ChapterRoundTrip(c.chapters[i]);
    }
    ArrayRoundTrip(c.chapters, ChapterJson, ParseChapter, ChapterOk);
  }

  /** A document kind outside word, excel and upload makes the chapter fail. */
  lemma UnknownDocumentKindRejected(c: Chapter)
    requires ChapterOk(c)
    ensures ParseChapter(JObj(ChapterJson(c).fields["typeDocument" := JStr("pdf")])) == None
  {
    var v := JObj(ChapterJson(c).fields["typeDocument" := JStr("pdf")]);
    assert Get(v, "typeDocument") == JStr("pdf");
    assert ParseDocument(JStr("pdf")) == None;
  }
}
