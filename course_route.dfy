/**
 * The course routes of a user: the course list (`GET /`), one course
 * (`GET /:courseId`) and the course update (`PUT /:courseId`). The user,
 * course and search lookups and the upsert are inputs: their outcomes are
 * given, and the model records which request the handler issued.
 */
module CourseRoute {
  import opened JsValues
  import opened Requests
  import opened Http

  const UnexpectedError := "Unexpected error occured"
  const UserNotFound := "Can not find user"
  const CourseNotFound := "Can not find this course"
  const UpdateSucceeded := "update course successfully"

  /** The columns the update writes, in the order the handler lists them. */
  const UpdatedColumns := ["teacher_id", "id", "course_name", "description", "archive"]

  /** A 500 reply with the route's fixed message. */
  function Unexpected(): Reply
  {
    ErrorReply(500, Str(UnexpectedError))
  }

  // ---------------------------------------------------------------------
  // GET /
  // ---------------------------------------------------------------------

  /** The course search the list issues: the courses a teacher created, or
      the courses a student belongs to. */
  datatype CourseQuery = ByTeacher(userId: JsValue) | ByStudent(userId: JsValue)

  /** The hits of a search: the documents of the current window and the
      total number of matches. */
  datatype Hits = Hits(hits: seq<Document>, total: JsValue)

  /** `hits.map((current) => current._source)`. */
  function Sources(docs: seq<Document>): (courses: seq<JsValue>)
    ensures |courses| == |docs|
    ensures forall i :: 0 <= i < |docs| ==> courses[i] == Obj(docs[i].source)
  {
    if docs == [] then [] else [Obj(docs[0].source)] + Sources(docs[1..])
  }

  /** The reply, the id the user lookup used, and the course search
      issued. */
  datatype ListOutcome = ListOutcome(reply: Reply, lookupId: Option<JsValue>, query: Option<CourseQuery>)

  /** `localsUser` is `res.locals.user`, `user` the outcome of the lookup by
      its id (the stored document when found), `hits` the outcome of the
      course search the handler picks. */
  function ListCourses(localsUser: JsValue, user: Completion<Option<seq<Prop>>>, hits: Completion<Hits>): ListOutcome
  {
    var id := Field(localsUser, "id");
    if id.Throw? then ListOutcome(Unexpected(), None, None)
    else match user
      case Throw(_) => ListOutcome(Unexpected(), Some(id.value), None)
      case Normal(None) => ListOutcome(ErrorReply(404, Str(UserNotFound)), Some(id.value), None)
      case Normal(Some(source)) =>
        var query := if StrictEquals(Get(source, "type"), Str("teacher")) then ByTeacher(id.value) else ByStudent(id.value);
        match hits
        case Throw(_) => ListOutcome(Unexpected(), Some(id.value), Some(query))
        case Normal(h) =>
          ListOutcome(Reply(200, Obj([Prop("courses", Arr(Sources(h.hits))), Prop("total", h.total)])),
                      Some(id.value), Some(query))
  }

  // ---------------------------------------------------------------------
  // GET /:courseId
  // ---------------------------------------------------------------------

  /** The course lookup `getCourseById(teacherId, courseId)`, keyed by the
      route parameters. */
  datatype CourseKey = CourseKey(teacherId: string, courseId: string)

  /** `course` is the outcome of the lookup by `CourseKey(userId,
      courseId)`: the stored document when found. */
  function GetCourse(course: Completion<Option<seq<Prop>>>): Reply
  {
    match course
    case Throw(_) => Unexpected()
    case Normal(None) => ErrorReply(404, Str(CourseNotFound))
    case Normal(Some(source)) => Reply(200, Obj([Prop("course", Obj(source))]))
  }

  // ---------------------------------------------------------------------
  // PUT /:courseId
  // ---------------------------------------------------------------------

  /** `changeCourse`: the record handed to the course upsert. */
  datatype CourseChange = CourseChange(courseId: JsValue, teacherId: JsValue, courseName: JsValue,
                                       description: JsValue, archive: JsValue)

  /** `b === undefined ? stored.k : b`: the stored field is read only when
      the body's value is `undefined`, so only then can reading it throw. */
  function Fallback(b: JsValue, stored: JsValue, k: string): (r: Completion<JsValue>)
  {
    if b.Undefined? then Field(stored, k) else Normal(b)
  }

  /** The field merge: `stored` is `course.body._source` (undefined when
      the course was not found), `body` is `req.body`. `archive` keeps the
      stored value only when the body carries no `description`; otherwise it
      takes `body.archive`, whatever that is. */
  function MergeCourse(teacherId: string, courseId: string, body: JsValue, stored: JsValue): Completion<CourseChange>
  {
    var bodyName := Field(body, "courseName");
    if bodyName.Throw? then Throw(bodyName.message)
    else
      var name := Fallback(bodyName.value, stored, "course_name");
      if name.Throw? then Throw(name.message)
      else
        var bodyDescription := Field(body, "description").value;
        var description := Fallback(bodyDescription, stored, "description");
        if description.Throw? then Throw(description.message)
        else
          // reading `stored.description` succeeded, so reading `stored.archive` cannot throw
          var archive := if bodyDescription.Undefined? then Field(stored, "archive").value
                         else Field(body, "archive").value;
          Normal(CourseChange(Str(courseId), Str(teacherId), name.value, description.value, archive))
  }

  /** `upsertCourse(changeCourse, columns, false)`: an unconditional write
      of the listed columns. */
  datatype CourseUpsert = CourseUpsert(change: CourseChange, columns: seq<string>, ifNotExists: bool)

  datatype UpdateOutcome = UpdateOutcome(reply: Reply, lookup: CourseKey, write: Option<CourseUpsert>)

  /** The update handler: `course` is the outcome of the lookup by the route
      parameters, `applied` that of the upsert. */
  function UpdateCourse(teacherId: string, courseId: string, body: JsValue,
                        course: Completion<Option<seq<Prop>>>, applied: Completion<bool>): UpdateOutcome
  {
    var key := CourseKey(teacherId, courseId);
    match course
    case Throw(_) => UpdateOutcome(Unexpected(), key, None)
    case Normal(found) =>
      var stored := if found.Some? then Obj(found.value) else Undefined;
      match MergeCourse(teacherId, courseId, body, stored)
      case Throw(_) => UpdateOutcome(Unexpected(), key, None)
      case Normal(change) =>
        var write := CourseUpsert(change, UpdatedColumns, false);
        if applied == Normal(true) then UpdateOutcome(Reply(200, Obj([Prop("success", Str(UpdateSucceeded))])), key, Some(write))
        else UpdateOutcome(Unexpected(), key, Some(write))
  }

  // ---------------------------------------------------------------------
  // Properties of the course list
  // ---------------------------------------------------------------------

  /** A missing user gives 404, a failed lookup or search (or no
      `res.locals.user`) gives 500, and otherwise the list answers 200. The
      search is by teacher exactly when the stored type is `=== 'teacher'`;
      any other type, including a missing one, searches by student. Both
      the lookup and the search use the id of `res.locals.user`. */
  lemma ListCoursesOutcomes(localsUser: JsValue, user: Completion<Option<seq<Prop>>>, hits: Completion<Hits>)
    ensures var o := ListCourses(localsUser, user, hits);
            && o.reply.status in {200, 404, 500}
            && (o.reply.status == 404 <==> Field(localsUser, "id").Normal? && user == Normal(None))
            && (o.reply.status == 404 ==> o.reply == ErrorReply(404, Str(UserNotFound)) && o.query.None?)
            && (o.reply.status == 500 ==> o.reply == Unexpected())
            && (o.reply.status == 200 <==> Field(localsUser, "id").Normal? && user.Normal? && user.value.Some? && hits.Normal?)
            && (o.lookupId.Some? <==> Field(localsUser, "id").Normal?)
            && (o.lookupId.Some? ==> o.lookupId.value == Field(localsUser, "id").value)
            && (o.query.Some? <==> Field(localsUser, "id").Normal? && user.Normal? && user.value.Some?)
            && (o.query.Some? ==>
                  && o.query.value.userId == Field(localsUser, "id").value
                  && (o.query.value.ByTeacher? <==> StrictEquals(Get(user.value.value, "type"), Str("teacher"))))
  {
  }

  /** The 200 body lists the sources of the returned hits in order, and its
      `total` is the search's total, which need not be the number of
      courses listed. */
  lemma ListedCourses(localsUser: JsValue, user: Completion<Option<seq<Prop>>>, hits: Completion<Hits>)
    ensures var o := ListCourses(localsUser, user, hits);
            o.reply.status == 200 ==>
              && o.reply.body.Obj?
              && Keys(o.reply.body.props) == ["courses", "total"]
              && Get(o.reply.body.props, "total") == hits.value.total
              && Get(o.reply.body.props, "courses").Arr?
              && |Get(o.reply.body.props, "courses").items| == |hits.value.hits|
              && forall i :: 0 <= i < |hits.value.hits| ==>
                   Get(o.reply.body.props, "courses").items[i] == Obj(hits.value.hits[i].source)
  {
    var o := ListCourses(localsUser, user, hits);
    if o.reply.status == 200 {
      var props := o.reply.body.props;
      assert Keys(props) == [props[0].key] + Keys(props[1..]);
      assert Get(props, "total") == Get(props[1..], "total");
    }
  }

  /** A teacher with 25 courses asking for the list gets a window of one
      course with `total` 25. */
  lemma TotalIsNotTheListLength()
    ensures var user := Normal(Some([Prop("type", Str("teacher"))]));
            var hits := Normal(Hits([Document("c1", [])], Num("25")));
            var o := ListCourses(Obj([Prop("id", Str("t1"))]), user, hits);
            && o.reply.status == 200 && o.query == Some(ByTeacher(Str("t1")))
            && Get(o.reply.body.props, "total") == Num("25")
            && |Get(o.reply.body.props, "courses").items| == 1
  {
    var user := Normal(Some([Prop("type", Str("teacher"))]));
    var hits := Normal(Hits([Document("c1", [])], Num("25")));
    ListedCourses(Obj([Prop("id", Str("t1"))]), user, hits);
  }

  // ---------------------------------------------------------------------
  // Properties of the single course
  // ---------------------------------------------------------------------

  /** A found course is returned whole with 200, a missing one gives 404
      and a failed lookup 500. */
  lemma GetCourseOutcomes(course: Completion<Option<seq<Prop>>>)
    ensures var r := GetCourse(course);
            && (r.status == 200 <==> course.Normal? && course.value.Some?)
            && (r.status == 200 ==> r.body == Obj([Prop("course", Obj(course.value.value))]))
            && (r.status == 404 <==> course == Normal(None))
            && (r.status == 500 <==> course.Throw?)
            && (r.status == 500 ==> r == Unexpected())
  {
  }

  // ---------------------------------------------------------------------
  // Properties of the update
  // ---------------------------------------------------------------------

  /** For a found course and an object body: the name and description come
      from the body unless it leaves them `undefined`, the archive flag keeps
      the stored value iff the body has no description and otherwise takes
      the body's (even `undefined`), and the ids always come from the route
      parameters. */
  lemma MergeFields(teacherId: string, courseId: string, body: seq<Prop>, stored: seq<Prop>)
    ensures var r := MergeCourse(teacherId, courseId, Obj(body), Obj(stored));
            && r.Normal?
            && r.value.courseId == Str(courseId) && r.value.teacherId == Str(teacherId)
            && r.value.courseName == (if Get(body, "courseName").Undefined? then Get(stored, "course_name")
                                      else Get(body, "courseName"))
            && r.value.description == (if Get(body, "description").Undefined? then Get(stored, "description")
                                       else Get(body, "description"))
            && (Get(body, "description").Undefined? ==> r.value.archive == Get(stored, "archive"))
            && (!Get(body, "description").Undefined? ==> r.value.archive == Get(body, "archive"))
  {
  }

  /** The quirk: changing only the description of an archived course (the
      body has no `archive`) clears the flag, while changing only the name
      leaves it, and an `archive` sent without a description is ignored. */
  lemma ArchiveQuirk(teacherId: string, courseId: string)
    ensures var stored := [Prop("course_name", Str("A")), Prop("description", Str("d")), Prop("archive", Bool(true))];
            && MergeCourse(teacherId, courseId, Obj([Prop("description", Str("e"))]), Obj(stored)).value.archive == Undefined
            && MergeCourse(teacherId, courseId, Obj([Prop("courseName", Str("B"))]), Obj(stored)).value.archive == Bool(true)
            && MergeCourse(teacherId, courseId, Obj([Prop("archive", Bool(false))]), Obj(stored)).value.archive == Bool(true)
  {
    var stored := [Prop("course_name", Str("A")), Prop("description", Str("d")), Prop("archive", Bool(true))];
    MergeFields(teacherId, courseId, [Prop("description", Str("e"))], stored);
    MergeFields(teacherId, courseId, [Prop("courseName", Str("B"))], stored);
    MergeFields(teacherId, courseId, [Prop("archive", Bool(false))], stored);
    assert Get(stored, "archive") == Get(stored[1..], "archive") == Get(stored[2..], "archive");
  }

  /** For a course that was not found, the merge throws exactly when it has
      to read a stored field: when the body leaves the name or the
      description `undefined`. A body carrying both goes through. */
  lemma MergeMissingCourse(teacherId: string, courseId: string, body: seq<Prop>)
    ensures MergeCourse(teacherId, courseId, Obj(body), Undefined).Throw?
        <==> Get(body, "courseName").Undefined? || Get(body, "description").Undefined?
  {
  }

  /** A body that is not an object with properties (undefined or null)
      makes the merge throw. */
  lemma MergeUnreadableBody(teacherId: string, courseId: string, body: JsValue, stored: JsValue)
    requires body.Undefined? || body.Null?
    ensures MergeCourse(teacherId, courseId, body, stored).Throw?
  {
  }

  /** The update answers 200 exactly when the lookup succeeded, the merge
      did not throw and the upsert was applied, and 500 otherwise. The
      upsert is issued once the merge succeeded; it writes the merged record
      into the five listed columns and never only-if-absent. The lookup is
      keyed by the route parameters. */
  lemma UpdateCourseOutcomes(teacherId: string, courseId: string, body: JsValue,
                             course: Completion<Option<seq<Prop>>>, applied: Completion<bool>)
    ensures var o := UpdateCourse(teacherId, courseId, body, course, applied);
            var stored := if course.Normal? && course.value.Some? then Obj(course.value.value) else Undefined;
            var merged := MergeCourse(teacherId, courseId, body, stored);
            && o.lookup == CourseKey(teacherId, courseId)
            && o.reply.status in {200, 500}
            && (o.reply.status == 200 <==> course.Normal? && merged.Normal? && applied == Normal(true))
            && (o.reply.status == 500 ==> o.reply == Unexpected())
            && (o.write.Some? <==> course.Normal? && merged.Normal?)
            && (o.write.Some? ==>
                  o.write.value == CourseUpsert(merged.value, ["teacher_id", "id", "course_name", "description", "archive"], false))
  {
  }

  /** The route parameters, never the body, name the updated course. */
  lemma UpdateKeepsRouteIds(teacherId: string, courseId: string, body: JsValue,
                            course: Completion<Option<seq<Prop>>>, applied: Completion<bool>)
    ensures var o := UpdateCourse(teacherId, courseId, body, course, applied);
            o.write.Some? ==>
              o.write.value.change.teacherId == Str(teacherId) && o.write.value.change.courseId == Str(courseId)
  {
    var stored := if course.Normal? && course.value.Some? then Obj(course.value.value) else Undefined;
    UpdateCourseOutcomes(teacherId, courseId, body, course, applied);
    MergeIds(teacherId, courseId, body, stored);
  }

  lemma MergeIds(teacherId: string, courseId: string, body: JsValue, stored: JsValue)
    ensures var r := MergeCourse(teacherId, courseId, body, stored);
            r.Normal? ==> r.value.teacherId == Str(teacherId) && r.value.courseId == Str(courseId)
  {
  }
}
