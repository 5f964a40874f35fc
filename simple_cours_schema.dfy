/**
 * The zod schemas of the first course form: a course with its chapters,
 * where a chapter refers to its materials and quizzes by id.
 */
module SimpleCoursSchema {
  import opened Wrappers
  import opened JsValue

  datatype ChapterKind = Lesson | QuizChapter | Mixed

  function KindName(k: ChapterKind): string {
    match k
    case Lesson => "lesson"
    case QuizChapter => "quiz"
    case Mixed => "mixed"
  }

  /** z.enum(['lesson', 'quiz', 'mixed']) */
  function ParseKind(v: Json): (r: Option<ChapterKind>)
    ensures r.Some? <==> v.JStr? && v.s in {"lesson", "quiz", "mixed"}
    ensures r.Some? ==> v == JStr(KindName(r.value))
  {
    if v == JStr("lesson") then Some(Lesson)
    else if v == JStr("quiz") then Some(QuizChapter)
    else if v == JStr("mixed") then Some(Mixed)
    else None
  }

  function StrArray(v: Json): Option<seq<string>> { Array(v, Str) }

  function StrJson(s: string): Json { JStr(s) }

  datatype Chapter = Chapter(
    title: string,
    description: Option<string>,
    kind: ChapterKind,
    position: real,
    studyMaterials: Option<seq<string>>,
    quizzes: Option<seq<string>>)

  datatype Course = Course(title: string, description: string, sharedSubjectId: Option<string>, chapters: seq<Chapter>)

  predicate ChapterOk(c: Chapter) {
    MinLength(c.title, 1) && c.position >= 1.0
  }

  predicate CourseOk(c: Course) {
    MinLength(c.title, 1) && MinLength(c.description, 1) && |c.chapters| >= 1 &&
    forall i :: 0 <= i < |c.chapters| ==> ChapterOk(c.chapters[i])
  }

  /** ChapterSchema.safeParse */
  function ParseChapter(v: Json): (r: Option<Chapter>)
    ensures r.Some? ==> ChapterOk(r.value)
  {
    if !v.JObj? then None
    else
      var title := Str(Get(v, "title"));
      var description := Optional(Get(v, "description"), Str);
      var kind := ParseKind(Get(v, "type"));
      var position := Num(Get(v, "position"));
      var materials := Optional(Get(v, "studyMaterials"), StrArray);
      var quizzes := Optional(Get(v, "quizzes"), StrArray);
      if title.Some? && MinLength(title.value, 1) && description.Some? && kind.Some? &&
         position.Some? && position.value >= 1.0 && materials.Some? && quizzes.Some?
      then Some(Chapter(title.value, description.value, kind.value, position.value, materials.value, quizzes.value))
      else None
  }

  /** AddCoursSchema.safeParse */
  function ParseCourse(v: Json): (r: Option<Course>)
    ensures r.Some? ==> CourseOk(r.value)
  {
    if !v.JObj? then None
    else
      var title := Str(Get(v, "title"));
      var description := Str(Get(v, "description"));
      var shared := Optional(Get(v, "sharedSubjectId"), Str);
      var chapters := Array(Get(v, "chapters"), ParseChapter);
      if title.Some? && MinLength(title.value, 1) && description.Some? && MinLength(description.value, 1) &&
         shared.Some? && chapters.Some? && |chapters.value| >= 1
      then Some(Course(title.value, description.value, shared.value, chapters.value))
      else None
  }

  function ChapterJson(c: Chapter): Json {
    var m := map["title" := JStr(c.title), "type" := JStr(KindName(c.kind)), "position" := JNum(c.position)];
    JObj(PutOpt(PutOpt(PutOpt(m, "description", EncodeOpt(c.description, StrJson)),
                       "studyMaterials", EncodeOpt(c.studyMaterials, StrArrayJson)),
                "quizzes", EncodeOpt(c.quizzes, StrArrayJson)))
  }

  function CourseJson(c: Course): Json {
    var m := map["title" := JStr(c.title), "description" := JStr(c.description),
                 "chapters" := Encode(c.chapters, ChapterJson)];
    JObj(PutOpt(m, "sharedSubjectId", EncodeOpt(c.sharedSubjectId, StrJson)))
  }

  lemma StrArrayRoundTrip(o: Option<seq<string>>)
    ensures Optional(EncodeOpt(o, StrArrayJson), StrArray) == Some(o)
  {
    if o.Some? {
      StringArrayRoundTrip(o.value);
    }
  }

  /** Every field of an encoded chapter reads back as written; absent optional fields stay absent. */
  lemma ChapterFields(c: Chapter)
    ensures var v := ChapterJson(c);
            Get(v, "title") == JStr(c.title) && Get(v, "type") == JStr(KindName(c.kind)) &&
            Get(v, "position") == JNum(c.position) && Get(v, "description") == EncodeOpt(c.description, StrJson) &&
            Get(v, "studyMaterials") == EncodeOpt(c.studyMaterials, StrArrayJson) &&
            Get(v, "quizzes") == EncodeOpt(c.quizzes, StrArrayJson)
  {
    var m := map["title" := JStr(c.title), "type" := JStr(KindName(c.kind)), "position" := JNum(c.position)];
    var m1 := PutOpt(m, "description", EncodeOpt(c.description, StrJson));
    var m2 := PutOpt(m1, "studyMaterials", EncodeOpt(c.studyMaterials, StrArrayJson));
    assert Get(JObj(m2), "description") == EncodeOpt(c.description, StrJson);
    assert Get(JObj(m1), "title") == JStr(c.title);
    assert Get(JObj(m1), "type") == JStr(KindName(c.kind));
    assert Get(JObj(m1), "position") == JNum(c.position);
  }

  /** Each chapter type is read back as itself. */
  lemma KindRoundTrip(k: ChapterKind)
    ensures ParseKind(JStr(KindName(k))) == Some(k)
  {
    match k
    case Lesson =>
    case QuizChapter => assert "quiz" != "lesson";
    case Mixed => assert "mixed" != "lesson" && "mixed" != "quiz";
  }

  /** Every field of an encoded chapter parses back to the field. */
  lemma ChapterFieldsRead(c: Chapter)
    ensures var v := ChapterJson(c);
            Str(Get(v, "title")) == Some(c.title) && Optional(Get(v, "description"), Str) == Some(c.description) &&
            ParseKind(Get(v, "type")) == Some(c.kind) && Num(Get(v, "position")) == Some(c.position) &&
            Optional(Get(v, "studyMaterials"), StrArray) == Some(c.studyMaterials) &&
            Optional(Get(v, "quizzes"), StrArray) == Some(c.quizzes)
  {
    ChapterFields(c);
    KindRoundTrip(c.kind);
    StrArrayRoundTrip(c.studyMaterials);
    StrArrayRoundTrip(c.quizzes);
  }

  /** A chapter written as a form value passes the schema unchanged exactly when its rules hold. */
  lemma ChapterRoundTrip(c: Chapter)
    ensures ParseChapter(ChapterJson(c)) == if ChapterOk(c) then Some(c) else None
  {
    ChapterFieldsRead(c);
  }

  /** The same for a whole course: it passes exactly when it and every chapter keep the rules. */
  lemma CourseRoundTrip(c: Course)
    ensures ParseCourse(CourseJson(c)) == if CourseOk(c) then Some(c) else None
  {
    var v := CourseJson(c);
    assert Get(v, "title") == JStr(c.title);
    assert Get(v, "description") == JStr(c.description);
    assert Get(v, "chapters") == Encode(c.chapters, ChapterJson);
    assert Get(v, "sharedSubjectId") == EncodeOpt(c.sharedSubjectId, StrJson);
    forall i | 0 <= i < |c.chapters|
      ensures ParseChapter(ChapterJson(c.chapters[i])) == if ChapterOk(c.chapters[i]) then Some(c.chapters[i]) else None
    {
      ChapterRoundTrip(c.chapters[i]);
    }
    ArrayRoundTrip(c.chapters, ChapterJson, ParseChapter, ChapterOk);
  }
}
