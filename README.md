# A verified model of the lms request-decision core

This project models, in Dafny, the deterministic rules inside the lms
learning-management server, a Node.js/Express application backed by Cassandra
(writes) and Elasticsearch (reads). The stores, the crypto and the schema
validator are not modelled: their results are inputs. What is modelled is
what the server code decides with those results.

- **Profile-info update planner** (`updateUserInfo` in `server/services/User.js`).
  - It normalises the caller's `info` object in place:
    - a non-object becomes `{}`;
    - `image` is deleted;
    - the markers `_update_` and `_delete_` are added.
  - It stringifies the values, leaving `undefined`, `null` and `''` as they are.
  - It splits the pairs into an update group and a delete group.
  - It renders a two-statement CQL batch.
- **User record writes**: `createUser`, `updateEmail`, `updateUserPassword`
  and `updateUserName`, plus the single-id wrapping of
  `getMultipleUsersById`.
- **Lesson service** (`server/services/Lesson.js`):
  - the page clamp and search window;
  - the `bool.must` filter;
  - the lesson document id, `JSON.stringify([teacher, course, lesson])`,
    with a JSON reader proving that the id reads back and is injective;
  - the conditions on the lesson upsert and delete.
- **Signup chain** (`server/routes/signup/index.js`): the five middleware
  stages `unauth`, `validateBody`, `validateUniqueness`, `createUser` and
  `signIn`. They are modelled both as pure step functions and as a class
  holding the request/response state that the stages update in place.
  - The error-map `_.reduce` is a loop.
  - The loop is proved equal to a left fold.
- **Course routes** (`server/routes/user/course/index.js`):
  - the course list, which branches on the user type;
  - the single-course read;
  - the course update's field merge, including its `archive` quirk.
- **Comment ownership check** (`server/middlewares/isCommentCreator.js`).

JavaScript values are a datatype (`JsValues.JsValue`). A number is carried as
the text `String()` gives it, so no floating point is needed. Objects are
ordered property lists. `String()`, truthiness and `===` are written out.

Modules:

- `JsValues`: values, coercions, ordered objects.
- `Requests`: store and search request shapes.
- `Http`: replies and middleware steps.
- `UserService` and `UserInfoProofs` / `UserRequestProofs`.
- `JsonText`.
- `LessonService`.
- `SignupRoute` and `SignupProofs`.
- `CourseRoute`.
- `CommentMiddleware`.

Where the code and its documentation disagree, the model follows the code.
A `null` info payload passes the `typeof newInfo !== 'object'` test and then
throws at `delete newInfo.image`. It is therefore modelled as a thrown
TypeError (`UserInfoProofs.PlanDefinedUnlessNull`), not excluded by a
precondition.

## Model

| member | source | states |
|---|---|---|
| `JsValues.Field` | server/routes/signup/index.js:84-85 | reading a property throws exactly when the object is `undefined` or `null`; on an object it yields that property |
| `JsValues.ToJsString` | server/services/User.js:207 | `String(value)` with the default `toString` of every object; its promise for the payload values is stated by `UserInfoProofs.StringifyRouting` and `UserInfoProofs.FalsyValuesRouting` |
| `JsValues.Truthy` | server/routes/signup/index.js:33 | `if (v)`; `JsValues.FalsyValues` states it |
| `JsValues.FalsyValues` | server/routes/signup/index.js:33 | a value is falsy exactly when it is `undefined`, `null`, `false`, `0`, `NaN` or `''` |
| `JsValues.StrictEquals` | server/middlewares/isCommentCreator.js:18 | `===`; `JsValues.StrictEqualsIdentity` states it |
| `JsValues.StrictEqualsIdentity` | server/middlewares/isCommentCreator.js:18 | `===` holds exactly for identical primitives other than `NaN`; arrays and objects read from different documents are never `===` |
| `Requests.TtlClause` | server/services/User.js:226 | the TTL clause never adds a `?` placeholder, and it is present exactly for a numeric ttl |
| `UserService.Normalise` | server/services/User.js:195-197 | the in-place edits; `UserInfoProofs.NormaliseFacts` states their effect |
| `UserService.PlanInfo` | server/services/User.js:190-221 | the update/delete plan; `UserInfoProofs.EveryKeyInExactlyOneGroup`, `UserInfoProofs.DeleteIffClears` and `UserInfoProofs.UpdateValues` state it |
| `UserService.UpdateStatement` | server/services/User.js:226-236 | the update query; `UserRequestProofs.UpdateStatementShape` states it |
| `UserService.DeleteStatement` | server/services/User.js:223-240 | the delete query; `UserRequestProofs.DeleteStatementShape` states it |
| `UserService.RenderBatch` | server/services/User.js:223-243 | the two-statement batch; `UserRequestProofs.InfoBatchShape` states it |
| `UserService.UpdateUserInfo` | server/services/User.js:190-244 | the whole service call on a value; `UserRequestProofs.InfoBatchShape` and `UserRequestProofs.InfoUpdateEffect` state it |
| `UserService.CreateUser` | server/services/User.js:148-172 | the account insert; `UserRequestProofs.CreateUserRow` and `UserRequestProofs.UserWriteConditions` state it |
| `UserService.UpdateEmail` | server/services/User.js:262-271 | the email statement; `UserRequestProofs.UpdateEmailShape` and `UserRequestProofs.CreateAndUpdateEmailAgree` state it |
| `UserService.UpdateUserPassword` | server/services/User.js:180-182 | the password update; `UserRequestProofs.UserWriteConditions` states it |
| `UserService.UpdateUserName` | server/services/User.js:252-254 | the username update; `UserRequestProofs.UserWriteConditions` states it |
| `UserService.GetMultipleUsersById` | server/services/User.js:35-54 | the id search; `UserRequestProofs.SingleIdLookup` states it |
| `UserService.NormaliseInfo` | server/services/User.js:191-197 | normalising the payload throws exactly when it is `null` |
| `UserService.StringifyValue` | server/services/User.js:200-209 | a stringified value is `undefined`, `null` or a string |
| `UserService.MapValues` | server/services/User.js:200-209 | `_.mapValues` keeps every key in place and in order |
| `UserService.GroupPairs` | server/services/User.js:211-221 | `_.groupBy` loses and duplicates nothing: the two groups together hold as many entries as there are pairs |
| `UserService.FlattenPairs` | server/services/User.js:235 | the flattened update pairs have two parameters per pair |
| `UserService.InfoObject.DeleteProperty` | server/services/User.js:195 | `delete obj[k]` removes the key and keeps the other properties in order |
| `UserService.InfoObject.SetProperty` | server/services/User.js:196-197 | `obj[k] = v` replaces in place or appends |
| `UserService.UpdateUserInfoCall` | server/services/User.js:190-244 | the caller's object or array is left normalised in place (image gone, markers added), and the batch is the one planned from its properties as they were |
| `UserInfoProofs.StringifyRouting` | server/services/User.js:200-221 | a value goes to the delete group after stringification iff it is undefined, null or its string is empty; otherwise it becomes `String(value)` |
| `UserInfoProofs.FalsyValuesRouting` | server/services/User.js:200-221 | `0` and `false` are updated as "0" and "false"; `[]`, `[null]` and `''` are deleted |
| `UserInfoProofs.MapValuesFacts` | server/services/User.js:200-209 | stringifying keeps the keys, maps each value, and keeps keys distinct |
| `UserInfoProofs.GroupKeys` | server/services/User.js:211-221 | a key is in some group iff it is a key of the pairs |
| `UserInfoProofs.GroupMembership` | server/services/User.js:211-221 | with distinct keys, a key is updated iff its value is not a delete case, and deleted iff it is |
| `UserInfoProofs.GroupUpdateOrigin` | server/services/User.js:211-221 | every update pair is some input pair's key with the string of its non-deleted value |
| `UserInfoProofs.GroupOrder` | server/services/User.js:211-221 | the groups keep `toPairs` order: each pair sits right after the earlier pairs routed to the same group |
| `UserInfoProofs.GroupDistinct` | server/services/User.js:211-227 | distinct keys in give distinct keys in each group |
| `UserInfoProofs.NormaliseFacts` | server/services/User.js:191-197 | after normalisation `image` is gone, `_update_` holds the random number, `_delete_` is undefined, and every other property is unchanged |
| `UserInfoProofs.PairsFacts` | server/services/User.js:191-211 | the stringified pairs have distinct keys: the payload's keys other than `image`, plus the two markers, each holding its normalised value stringified |
| `UserInfoProofs.PlanDefinedUnlessNull` | server/services/User.js:191-197 | for payloads whose objects carry no own `toString` key, the plan fails, with a TypeError, exactly for a `null` payload |
| `UserInfoProofs.EveryKeyInExactlyOneGroup` | server/services/User.js:211-227 | every key of the normalised payload is in exactly one group, and nothing else is |
| `UserInfoProofs.DeleteIffClears` | server/services/User.js:200-227 | a caller's key is deleted iff its value is undefined, null or stringifies to `''`, and updated otherwise |
| `UserInfoProofs.UpdateValues` | server/services/User.js:200-235 | every update value is a non-empty string: the random number for `_update_`, `String(original)` otherwise |
| `UserInfoProofs.ImageNeverPlanned` | server/services/User.js:195-227 | `image` is in neither group, so clients can neither set nor delete it |
| `UserInfoProofs.MarkersKeepGroupsNonEmpty` | server/services/User.js:196-227 | `_update_` is always updated and `_delete_` always deleted, so neither group is empty |
| `UserInfoProofs.NonObjectPlansMarkersOnly` | server/services/User.js:191-227 | a payload that is not an object plans only the two markers |
| `UserInfoProofs.ExamplePlan` | server/services/User.js:190-227 | the plan of a concrete payload, worked out in full |
| `UserRequestProofs.UpdateStatementShape` | server/services/User.js:226-236 | the update query has 2n+1 placeholders for its 2n+1 parameters, namely the flattened pairs and then the id; it ends in `IF EXISTS` and has `USING TTL` iff the ttl is a number |
| `UserRequestProofs.DeleteStatementShape` | server/services/User.js:223-240 | the delete query has n+1 placeholders for the keys and then the id, ends in `IF EXISTS`, and never has `USING TTL` |
| `UserRequestProofs.InfoBatchShape` | server/services/User.js:223-243 | the batch is exactly [update, delete] of the plan, and both statements carry a map key besides the id |
| `UserRequestProofs.ArrayPayloadAsObject` | server/services/User.js:191-200 | an array payload is kept (its `typeof` is "object") and planned through its index properties; with no element carrying an own `toString` key, the call does not throw for it |
| `UserRequestProofs.InfoUpdateKeepsImage` | server/services/User.js:195-243 | applying a plan never changes the stored avatar |
| `UserRequestProofs.InfoUpdateEffect` | server/services/User.js:190-243 | after the batch, a cleared key is gone, a sent key holds `String(value)`, and an unsent key keeps its stored value |
| `UserRequestProofs.CreateUserRow` | server/services/User.js:148-172 | the inserted row holds username, hash, default info (empty fullname and birthday, Gravatar of the email's MD5), email, type and id |
| `UserRequestProofs.CreateAndUpdateEmailAgree` | server/services/User.js:262-271 | `updateEmail` writes the same avatar `createUser` would store for that email, under the key `image` |
| `UserRequestProofs.UpdateEmailShape` | server/services/User.js:262-271 | four placeholders for email, `image`, avatar and id; no existence condition; `USING TTL` iff the ttl is a number |
| `UserRequestProofs.UserWriteConditions` | server/services/User.js:148-254 | creation is insert-if-absent, keyed by the new id, with the default profile; password and name changes are update-if-present on the id; all forward the ttl |
| `UserRequestProofs.SingleIdLookup` | server/services/User.js:35-54 | a single id is wrapped into a one-element list, so the search matches exactly the document with that id |
| `LessonService.ClampPage` | server/services/Lesson.js:11-13 | the page defaults to 1, is at least 1, and keeps any page of 1 or more |
| `LessonService.LessonSearch` | server/services/Lesson.js:11-41 | the paged lesson search; `LessonService.LessonPaging`, `LessonService.PagesTile` and `LessonService.LessonFilter` state it |
| `LessonService.LessonDocId` | server/services/Lesson.js:55 | the document id; `LessonService.LessonDocIdReadsBack` and `LessonService.LessonDocIdInjective` state it |
| `LessonService.GetLessonById` | server/services/Lesson.js:50-62 | the point lookup; `LessonService.GetLessonByIdShape` states it |
| `LessonService.UpsertLesson` | server/services/Lesson.js:75-89 | the lesson insert; `LessonService.UpsertLessonRow`, `LessonService.UpsertLessonCondition` and `LessonService.UpsertLessonDocument` state it |
| `LessonService.RemoveLesson` | server/services/Lesson.js:98-110 | the lesson delete; `LessonService.RemoveLessonShape` states it |
| `LessonService.LessonPaging` | server/services/Lesson.js:11-22 | `from` is non-negative and a multiple of 10; `size` is 10; pages ≤ 1 start at 0; page p ≥ 1 starts at 10(p−1) |
| `LessonService.PagesTile` | server/services/Lesson.js:13-22 | consecutive pages are adjacent windows, and distinct pages start at distinct offsets |
| `LessonService.LessonFilter` | server/services/Lesson.js:24-39 | a document matches iff its `teacher_id` and its `course_id` both match the stringified ids |
| `LessonService.LessonDocIdReadsBack` | server/services/Lesson.js:50-55 | the document id reads back, as JSON, to `[teacher, course, lesson]` |
| `LessonService.LessonDocIdInjective` | server/services/Lesson.js:50-55 | two lessons share a document id only when all three ids agree |
| `LessonService.GetLessonByIdShape` | server/services/Lesson.js:50-62 | the lookup targets the lesson index, with the id of the three stringified ids |
| `LessonService.UpsertLessonRow` | server/services/Lesson.js:75-89 | the camel-case fields land in the snake-case columns, in order |
| `LessonService.UpsertLessonCondition` | server/services/Lesson.js:75-89 | the insert is if-absent unless `insert` is false; the ttl is forwarded |
| `LessonService.UpsertLessonDocument` | server/services/Lesson.js:75-83 | the upserted row's key columns name the document the lookup by id reads |
| `LessonService.RemoveLessonShape` | server/services/Lesson.js:98-110 | the delete is by the three key columns and is always if-present |
| `JsonText.StringifyRoundTrip` | server/services/Lesson.js:55 | parsing the written array of strings gives back the strings |
| `JsonText.StringifyInjective` | server/services/Lesson.js:55 | distinct arrays of strings are written as distinct texts |
| `SignupRoute.BuildErrorMap` | server/routes/signup/index.js:55-64 | the accumulator loop builds exactly the left fold of the details |
| `SignupRoute.UnauthStep` | server/routes/signup/index.js:32-40 | `unauth`; `SignupProofs.UnauthDecision` states it |
| `SignupRoute.ValidateBodyStep` | server/routes/signup/index.js:45-76 | `validateBody`; `SignupProofs.ValidateBodyOutcomes` states it |
| `SignupRoute.ErrorMap` | server/routes/signup/index.js:55-64 | the `_.reduce` as a fold; `SignupProofs.ErrorMapKeys`, `SignupProofs.ErrorMapLastWins` and `SignupProofs.ErrorMapDistinct` state it |
| `SignupRoute.ValidateUniquenessStep` | server/routes/signup/index.js:81-109 | `validateUniqueness`; `SignupProofs.UniquenessDecision`, `SignupProofs.UniquenessFailures` and `SignupProofs.UniquenessStatuses` state it |
| `SignupRoute.CreateUserStage` | server/routes/signup/index.js:114-139 | `createUser`; `SignupProofs.CreateUserDecision` and `SignupProofs.CreateUserStatuses` state it |
| `SignupRoute.SignInStep` | server/routes/signup/index.js:144-174 | `signIn`; `SignupProofs.SignInDecision` and `SignupProofs.SignInStatuses` state it |
| `SignupRoute.Signup` | server/routes/signup/index.js:176 | the whole chain; `SignupProofs.ChainReplies`, `SignupProofs.ChainSucceeds`, `SignupProofs.WriteOnlyAfterChecks` and `SignupProofs.ChainSession` state it |
| `SignupRoute.SignupExchange.Unauth` | server/routes/signup/index.js:32-40 | takes `unauth`'s step on the request state: the reply is set only when the step responds, and nothing else changes |
| `SignupRoute.SignupExchange.ValidateBody` | server/routes/signup/index.js:45-76 | takes `validateBody`'s step: `req.body` becomes the validated value exactly when the step calls `next`; the session, locals, cookie and writes are untouched |
| `SignupRoute.SignupExchange.ValidateUniqueness` | server/routes/signup/index.js:81-109 | takes `validateUniqueness`'s step on the current body: it only sets the reply when the step responds |
| `SignupRoute.SignupExchange.CreateUser` | server/routes/signup/index.js:114-139 | takes `createUser`'s step: `res.locals.userId` and the recorded insert change only as the stage decides, and the session, body and cookie are untouched |
| `SignupRoute.SignupExchange.SignIn` | server/routes/signup/index.js:144-174 | takes `signIn`'s step: always replies; the session and cookie change only as the step decides; the body, locals and writes are untouched |
| `SignupRoute.SignupExchange.Run` | server/routes/signup/index.js:176 | running the stages in order leaves exactly the state and reply of the pure chain |
| `SignupProofs.UnauthDecision` | server/routes/signup/index.js:32-40 | `unauth` responds iff `session.userId` is truthy, and then with 403 |
| `SignupProofs.ErrorMapKeys` | server/routes/signup/index.js:55-64 | the error map has a key exactly for each detail's `String(path[0])` |
| `SignupProofs.ErrorMapLastWins` | server/routes/signup/index.js:55-64 | a key holds the message of the last detail with that key |
| `SignupProofs.ErrorMapDistinct` | server/routes/signup/index.js:55-64 | the error map never repeats a key |
| `SignupProofs.ValidateBodyOutcomes` | server/routes/signup/index.js:45-76 | three outcomes: warning when signed in, 400 with a non-empty map on errors, `next` otherwise |
| `SignupProofs.UniquenessDecision` | server/routes/signup/index.js:88-102 | proceeds iff both totals are `=== 0`; the map has `username` iff that total is truthy and `email` iff that total is truthy, each with its message |
| `SignupProofs.NumericTotalsNameAField` | server/routes/signup/index.js:88-102 | with numeric totals, a rejection names at least one field |
| `SignupProofs.UniquenessFailures` | server/routes/signup/index.js:81-108 | a failed search or an unreadable body gives 500 with the environment's message |
| `SignupProofs.UniquenessStatuses` | server/routes/signup/index.js:81-109 | passes on iff the body is readable, both searches complete and both totals are 0; replies are 400 or 500 |
| `SignupProofs.CreateUserDecision` | server/routes/signup/index.js:114-139 | `next` iff the hash is computed and the insert applied; the id is set and the insert-if-absent issued iff the hash succeeded; not applied gives 500 |
| `SignupProofs.CreateUserStatuses` | server/routes/signup/index.js:114-139 | the same decision for any readable body; every reply is 500 |
| `SignupProofs.ProductionHidesErrors` | server/routes/signup/index.js:103-138 | with `NODE_ENV` "production", every 500 from `validateUniqueness` and `createUser` carries the fixed message |
| `SignupProofs.OtherEnvironmentsForwardErrors` | server/routes/signup/index.js:103-138 | in any other environment, a failed search, an unreadable body, a failed hash or a failed insert puts the thrown message into the 500 reply |
| `SignupProofs.SignInDecision` | server/routes/signup/index.js:144-174 | found gives 200, opens the session and sets a cookie without `hash_password` but with every other field; not found gives 201; a failure gives 500 with the error's message |
| `SignupProofs.SignInStatuses` | server/routes/signup/index.js:144-174 | 200, 201 or 500; the session is opened iff the reply is 200 |
| `SignupProofs.AuthenticatedRejected` | server/routes/signup/index.js:176 | a signed-in request gets 403, with nothing written and no state changed |
| `SignupProofs.ChainReplies` | server/routes/signup/index.js:176 | the chain never sends `validateBody`'s warning, and its status is one of 200, 201, 400, 403, 500 |
| `SignupProofs.WriteOnlyAfterChecks` | server/routes/signup/index.js:176 | the account is inserted only after the session, body and uniqueness checks passed, and only if absent |
| `SignupProofs.ChainSucceeds` | server/routes/signup/index.js:176 | 200 or 201 iff every stage passed |
| `SignupProofs.ChainSession` | server/routes/signup/index.js:176 | on 200 the session holds the new id; on any other status the session is unchanged and no cookie is set |
| `CourseRoute.Sources` | server/routes/user/course/index.js:26 | the listed courses are the hits' sources, one for one and in order |
| `CourseRoute.ListCourses` | server/routes/user/course/index.js:20-40 | the course list; `CourseRoute.ListCoursesOutcomes` and `CourseRoute.ListedCourses` state it |
| `CourseRoute.GetCourse` | server/routes/user/course/index.js:45-60 | the course read; `CourseRoute.GetCourseOutcomes` states it |
| `CourseRoute.MergeCourse` | server/routes/user/course/index.js:71-77 | the field merge; `CourseRoute.MergeFields`, `CourseRoute.ArchiveQuirk`, `CourseRoute.MergeMissingCourse` and `CourseRoute.MergeUnreadableBody` state it |
| `CourseRoute.UpdateCourse` | server/routes/user/course/index.js:65-94 | the course update; `CourseRoute.UpdateCourseOutcomes` and `CourseRoute.UpdateKeepsRouteIds` state it |
| `CourseRoute.ListCoursesOutcomes` | server/routes/user/course/index.js:20-40 | 404 iff the user is missing; 500 on any failure; the search is by teacher iff the type `=== 'teacher'`; both lookups use the local user's id |
| `CourseRoute.ListedCourses` | server/routes/user/course/index.js:26-31 | the 200 body is `{courses, total}`, with the hits' sources and the search's `hits.total` |
| `CourseRoute.TotalIsNotTheListLength` | server/routes/user/course/index.js:27 | the total (25) can differ from the number of courses listed (1) |
| `CourseRoute.GetCourseOutcomes` | server/routes/user/course/index.js:45-60 | found gives 200 with the stored course; missing gives 404; failure gives 500 |
| `CourseRoute.MergeFields` | server/routes/user/course/index.js:71-77 | name and description come from the body unless undefined; `archive` is stored iff the body has no description, else the body's; the ids come from the route |
| `CourseRoute.ArchiveQuirk` | server/routes/user/course/index.js:76 | changing only the description clears `archive`; changing only the name keeps it; a lone `archive` is ignored |
| `CourseRoute.MergeMissingCourse` | server/routes/user/course/index.js:69-77 | for a missing course the merge throws iff the body lacks the name or the description |
| `CourseRoute.MergeUnreadableBody` | server/routes/user/course/index.js:74-76 | an undefined or null body makes the merge throw |
| `CourseRoute.UpdateCourseOutcomes` | server/routes/user/course/index.js:65-94 | 200 iff lookup, merge and upsert all succeed, and 500 otherwise; the upsert writes the merged record to the five listed columns, never if-absent |
| `CourseRoute.UpdateKeepsRouteIds` | server/routes/user/course/index.js:66-73 | the written teacher and course ids are the route's, never the body's |
| `CommentMiddleware.IsCommentCreator` | server/middlewares/isCommentCreator.js:8-29 | the ownership check; `CommentMiddleware.CommentDecision` states it |
| `CommentMiddleware.CommentDecision` | server/middlewares/isCommentCreator.js:8-29 | exactly one of: `next` iff found and `user_id === session.userId`; 403 iff found and not equal; 404 iff missing; 500 iff the lookup fails |
| `CommentMiddleware.OwnerNeedsSameType` | server/middlewares/isCommentCreator.js:18 | passing needs an identical, non-object, non-NaN id |
| `CommentMiddleware.NoSessionPassesOnlyOwnerless` | server/middlewares/isCommentCreator.js:9-19 | without a session user, only a comment with no `user_id` passes |

## Left out

- The Cassandra and Elasticsearch clients. Their outcomes are inputs: found or not, totals, `wasApplied()`, thrown errors.
  - Batch atomicity, `IF EXISTS` / `IF NOT EXISTS` linearisability and TTL expiry belong to the store.
  - `ApplyPlan` is only a reference model of the map update.
- The read queries `getUserById`, `getUserByUsername`, `getUserByEmail` and `getUserByEmailOrUsername` (server/services/User.js:19-135). They only forward their arguments to the search client.
- MD5, bcrypt, `Math.random()` and `types.Uuid.random()` are parameters: the md5 function, the hash outcome, the random marker and the new id.
- Joi validation. Its result is a list of (path, message) details plus the converted value.
- Express, session and cookie mechanics: the cookie's name and options, the `dayjs` expiry, `res.end()` and `console.error` logging.
  - `req.session` is assumed present. Reading `req.session.userId` outside the `try` in isCommentCreator.js is not modelled as throwing.
- `JsValues.ToJsString`: every object is treated as having the default `toString`. An own `toString` key (for example `{"toString": 1}` in a JSON body) makes `String()` throw a TypeError in JavaScript; that throw is not modelled, and the object renders as "[object Object]".
- PlanDefinedUnlessNull: promises a plan for every non-null payload only under the `JsValues.ToJsString` reading above; a value with its own `toString` key makes `updateUserInfo` reject at User.js:207, which the lemma does not state. The same holds for the `Normal?` clauses of `UserInfoProofs.EveryKeyInExactlyOneGroup` and `UserRequestProofs.InfoBatchShape`.
- ArrayPayloadAsObject: its "does not throw" holds only for arrays whose elements carry no own `toString` key, for the same reason.
- `LessonService.ClampPage`: takes an integer page. The `_.toInteger` coercion of strings, fractions and other values is not modelled.
- `LessonService.PagesTile`: offsets are exact integers. In JavaScript the page and `10 * (page - 1)` are doubles, so above about 2^53/10 consecutive pages are no longer exactly 10 apart and distinct pages can share an offset.
- `Requests.Satisfies`: reads an Elasticsearch `match` as exact equality of the field with the text, and `ids` as matching a string id only. Real `match` analyses text and `ids` coerces numbers. `LessonService.LessonFilter` and `UserRequestProofs.SingleIdLookup` hold for this reading.
- Concurrency:
  - `Promise.all` is one outcome, the two totals or the first rejection.
  - The race between the uniqueness search and the conditional insert is not modelled.
- `SignupRoute.ErrorMap` / `SignupRoute.ValidateBodyStep`: JavaScript objects list integer-like keys first, but the model keeps every key in insertion order. The 400 error body of `validateBody` therefore lists a detail key such as "0" (from an unknown body key `{"0": ...}`) last, where `parsedErrors` lists it first. The keys and messages are the same; only their order differs.
- `UserService.GetMultipleUsersById`: the `ids` query's `type: 'user'` (User.js:47-50) is not kept in `Requests.Ids`. The index holds only the `user` type, so no outcome changes.
- The text of TypeError messages is V8's and is approximated.
  - `validateUniqueness` and `createUser` forward `err.message` unless `NODE_ENV` is 'production'; `signIn` always does; the course routes and isCommentCreator reply with fixed texts.
- `JsonText.Unquote`: refuses a `\u` escape of a surrogate half. The writer never emits one, because a Dafny `char` is a Unicode scalar value.
- The `DELETE /:courseId` stub (course/index.js:99-101) and the sub-routers mounted at lines 103-108 are not part of this model.
- The `isCourseCreator` and `canAccessCourse` middlewares are not part of this model. Nor is the course service's `upsertCourse`, beyond the request the handler passes to it.
- The test files under `__tests__` are not part of this model. They cover services outside it.
