/**
 * The lesson service: the paged lesson search of one course, the lesson
 * document id, and the conditional insert and delete of a lesson row.
 */
module LessonService {
  import opened JsValues
  import opened Requests
  import opened JsonText

  const LessonIndex := "lms.lesson"
  const LessonType := "lesson"
  const PageSize := 10

  /** The page after its default (`page = 1` when omitted) and the clamp
      `page < 1 ? 1 : page`. The argument is an integer here; `_.toInteger`
      coercion of other values is not part of this model. */
  function ClampPage(page: Option<int>): (p: int)
    ensures p >= 1
    ensures page.None? ==> p == 1
    ensures page.Some? ==> p == if page.value < 1 then 1 else page.value
  {
    var p := if page.None? then 1 else page.value;
    if p < 1 then 1 else p
  }

  /** `getLessonsByTeacherAndCourse(teacherId, courseId, page)`. */
  function LessonSearch(teacherId: JsValue, courseId: JsValue, page: Option<int>): SearchRequest
  {
    var p := ClampPage(page);
    SearchRequest(LessonIndex, LessonType, Some(PageSize * (p - 1)), Some(PageSize), Undefined, Undefined,
                  Must([Match("teacher_id", ToJsString(teacherId)), Match("course_id", ToJsString(courseId))]))
  }

  /** The document id of a lesson: `JSON.stringify` of the three id
      strings, teacher first. */
  function LessonDocId(teacher: string, course: string, lesson: string): string
  {
    StringifyStrings([teacher, course, lesson])
  }

  /** `getLessonById(teacherId, courseId, lessonId)`: each id goes through
      `String()` first. */
  function GetLessonById(teacherId: JsValue, courseId: JsValue, lessonId: JsValue): GetRequest
  {
    GetRequest(LessonIndex, LessonType, LessonDocId(ToJsString(teacherId), ToJsString(courseId), ToJsString(lessonId)))
  }

  /** The camel-case lesson record callers pass. */
  datatype LessonData = LessonData(teacherId: JsValue, courseId: JsValue, id: JsValue,
                                   title: JsValue, content: JsValue)

  /** `upsertLesson(lessonData, insert, ttl)`: `insert` defaults to true and
      becomes the `ifNotExists` flag. */
  function UpsertLesson(data: LessonData, insert: Option<bool>, ttl: JsValue): MapperWrite
  {
    var ifNotExists := if insert.None? then true else insert.value;
    Insert("lesson",
           [Prop("teacher_id", data.teacherId), Prop("course_id", data.courseId), Prop("id", data.id),
            Prop("title", data.title), Prop("content", data.content)],
           WriteOptions(if ifNotExists then IfNotExists else Unconditional, ttl))
  }

  /** `removeLesson(teacherId, courseId, id, ttl)`. */
  function RemoveLesson(teacherId: JsValue, courseId: JsValue, id: JsValue, ttl: JsValue): MapperWrite
  {
    Delete("lesson", [Prop("teacher_id", teacherId), Prop("course_id", courseId), Prop("id", id)],
           WriteOptions(IfExists, ttl))
  }

  // ---------------------------------------------------------------------
  // Paging
  // ---------------------------------------------------------------------

  /** The search window: the offset is never negative and a multiple of the
      page size, the size is always 10, every page up to 1 starts at 0 and a
      page p >= 1 starts at 10(p - 1). */
  lemma LessonPaging(teacherId: JsValue, courseId: JsValue, page: Option<int>)
    ensures var r := LessonSearch(teacherId, courseId, page);
            && r.from.Some? && r.size == Some(10)
            && r.from.value >= 0 && r.from.value % 10 == 0
            && (page.None? || page.value <= 1 ==> r.from.value == 0)
            && (page.Some? && page.value >= 1 ==> r.from.value == 10 * (page.value - 1))
  {
  }

  /** Consecutive pages are adjacent windows, and distinct pages (after the
      clamp) start at distinct offsets, so no lesson is served on two pages. */
  lemma PagesTile(teacherId: JsValue, courseId: JsValue, p: int, q: int)
    requires p >= 1 && q >= 1
    ensures LessonSearch(teacherId, courseId, Some(p + 1)).from.value
         == LessonSearch(teacherId, courseId, Some(p)).from.value + PageSize
    ensures p != q ==> LessonSearch(teacherId, courseId, Some(p)).from != LessonSearch(teacherId, courseId, Some(q)).from
  {
  }

  /** The filter selects exactly the lessons of that teacher's course. */
  lemma LessonFilter(teacherId: JsValue, courseId: JsValue, page: Option<int>, doc: Document)
    ensures Satisfies(doc, LessonSearch(teacherId, courseId, page).query)
        <==> Get(doc.source, "teacher_id") == Str(ToJsString(teacherId))
             && Get(doc.source, "course_id") == Str(ToJsString(courseId))
  {
    var q := LessonSearch(teacherId, courseId, page).query;
    assert q.clauses[0] == Match("teacher_id", ToJsString(teacherId));
    assert q.clauses[1] == Match("course_id", ToJsString(courseId));
  }

  // ---------------------------------------------------------------------
  // The document id
  // ---------------------------------------------------------------------

  /** Reading the id back gives the three ids in the order teacher,
      course, lesson. */
  lemma LessonDocIdReadsBack(teacher: string, course: string, lesson: string)
    ensures ParseStrings(LessonDocId(teacher, course, lesson)) == Some([teacher, course, lesson])
  {
    StringifyRoundTrip([teacher, course, lesson]);
  }

  /** Two lessons share a document id only when all three ids agree. */
  lemma LessonDocIdInjective(t1: string, c1: string, l1: string, t2: string, c2: string, l2: string)
    requires LessonDocId(t1, c1, l1) == LessonDocId(t2, c2, l2)
    ensures t1 == t2 && c1 == c2 && l1 == l2
  {
    StringifyInjective([t1, c1, l1], [t2, c2, l2]);
    assert [t1, c1, l1][0] == [t2, c2, l2][0];
    assert [t1, c1, l1][1] == [t2, c2, l2][1];
  }

  /** The lookup by id fetches, from the lesson index, the document whose id
      reads back as the stringified teacher, course and lesson ids. */
  lemma GetLessonByIdShape(teacherId: JsValue, courseId: JsValue, lessonId: JsValue)
    ensures var r := GetLessonById(teacherId, courseId, lessonId);
            && r.index == LessonIndex && r.docType == LessonType
            && ParseStrings(r.id) == Some([ToJsString(teacherId), ToJsString(courseId), ToJsString(lessonId)])
  {
    LessonDocIdReadsBack(ToJsString(teacherId), ToJsString(courseId), ToJsString(lessonId));
  }

  // ---------------------------------------------------------------------
  // The writes
  // ---------------------------------------------------------------------

  /** The row `upsertLesson` writes: the camel-case fields under their
      snake-case columns. */
  lemma UpsertLessonRow(data: LessonData, insert: Option<bool>, ttl: JsValue)
    ensures var row := UpsertLesson(data, insert, ttl).row;
            && Keys(row) == ["teacher_id", "course_id", "id", "title", "content"]
            && Get(row, "teacher_id") == data.teacherId
            && Get(row, "course_id") == data.courseId
            && Get(row, "id") == data.id
            && Get(row, "title") == data.title
            && Get(row, "content") == data.content
  {
    var row := UpsertLesson(data, insert, ttl).row;
    assert Keys(row) == [row[0].key] + Keys(row[1..]);
    assert Keys(row[1..]) == [row[1].key] + Keys(row[2..]);
    assert Keys(row[2..]) == [row[2].key] + Keys(row[3..]);
    assert Keys(row[3..]) == [row[3].key] + Keys(row[4..]);
    assert Get(row, "course_id") == Get(row[1..], "course_id");
    assert Get(row, "id") == Get(row[1..], "id") == Get(row[2..], "id");
    assert Get(row, "title") == Get(row[1..], "title") == Get(row[2..], "title") == Get(row[3..], "title");
    assert Get(row, "content") == Get(row[1..], "content") == Get(row[2..], "content")
        == Get(row[3..], "content") == Get(row[4..], "content");
  }

  /** `upsertLesson` inserts into the lesson table, only if absent unless
      the caller passes `insert = false`, and forwards the ttl. */
  lemma UpsertLessonCondition(data: LessonData, insert: Option<bool>, ttl: JsValue)
    ensures var w := UpsertLesson(data, insert, ttl);
            && w.Insert? && w.table == "lesson" && w.options.ttl == ttl
            && (w.options.condition == IfNotExists <==> insert != Some(false))
            && (w.options.condition == Unconditional <==> insert == Some(false))
  {
  }

  /** The key columns of an upserted row name the same search document as
      the lesson data. */
  lemma UpsertLessonDocument(data: LessonData, insert: Option<bool>, ttl: JsValue)
    ensures var row := UpsertLesson(data, insert, ttl).row;
            LessonDocId(ToJsString(Get(row, "teacher_id")), ToJsString(Get(row, "course_id")), ToJsString(Get(row, "id")))
            == GetLessonById(data.teacherId, data.courseId, data.id).id
  {
    UpsertLessonRow(data, insert, ttl);
  }

  /** `removeLesson` deletes by the three key columns and only if the row
      exists, whatever the ttl. */
  lemma RemoveLessonShape(teacherId: JsValue, courseId: JsValue, id: JsValue, ttl: JsValue)
    ensures var w := RemoveLesson(teacherId, courseId, id, ttl);
            && w.Delete? && w.table == "lesson"
            && w.options == WriteOptions(IfExists, ttl)
            && Keys(w.row) == ["teacher_id", "course_id", "id"]
            && Get(w.row, "teacher_id") == teacherId
            && Get(w.row, "course_id") == courseId
            && Get(w.row, "id") == id
  {
    var row := RemoveLesson(teacherId, courseId, id, ttl).row;
    assert Keys(row) == [row[0].key] + Keys(row[1..]);
    assert Keys(row[1..]) == [row[1].key] + Keys(row[2..]);
    assert Get(row, "course_id") == Get(row[1..], "course_id");
    assert Get(row, "id") == Get(row[1..], "id") == Get(row[2..], "id");
  }
}
