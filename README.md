# Course platform: authorization and validation model

A Dafny model of the access-control and validation core of a Django course
platform. Users create courses, enrol in them and manage their lessons. The
model covers:

- the three permission classes, as predicates over the HTTP method, the
  requester and the role relation;
- the lesson serializer's (course, order) uniqueness check and the course
  serializer's `create`;
- the lesson and course view-set querysets;
- the API-version endpoint;
- the shape of courses and lessons: string forms, default ordering and
  cascading deletes;
- the seeding command's get-or-create on the role relation.

The source has two schemas side by side. `courses/models.py` has an
`instructor` foreign key and a `students` many-to-many. The serializers,
permissions and seeding command use `created_by`, `is_published` and a
`UserRole` table. The model keeps one store holding all of these
(`Models.Course`, `Models.UserRole`, `Database.Store`). `Course.createdBy`
stands both for `created_by` and for the older `instructor` key, so the view
set's `course__instructor` filter and the `CASCADE` on `instructor` read it.
`Course.students` is the enrolment many-to-many, which only the lesson view
set reads. Each component reads only the fields its own source file uses.

Files:

- `common.dfy`: `Option`, and the row filter `Filter` that queries and
  cascades are built from. `Filter` preserves order, membership and row
  counts, and keeps pairwise properties (`FilterPairwise`).
- `models.dfy`: the entities, `__str__`, the default ordering, and
  (course, order) uniqueness.
- `permissions.dfy`: `users/permissions.py`.
- `serializers.dfy`: `LessonSerializer.validate`, plus the corrected update
  check (see Findings).
- `database.dfy`: the mutable store (`Database.Store`): `create_user_role`,
  `CourseSerializer.create`, lesson inserts and the cascading deletes.
- `views.dfy`: `courses/views.py`.
- `versioning.dfy`: `kitcode/views.py`.

Tables are sequences of rows in primary-key order, so duplicate rows can be
represented. The role table's constraints are not part of this model. Its
rows are kept as a sequence so that duplicates stay representable, and
`Database.AddRole` is proved never to add one. Each existence query (`.filter(...).exists()`) becomes a
membership test on those rows.

An anonymous requester matches no role row. In the source, the view-level
checks refuse anonymous unsafe requests before any object check queries the
role table.

Behaviours of the code that the model keeps as written:

- Course reads are open to every caller. This includes unpublished courses,
  which the course list also shows to everyone (`Views.UnpublishedCoursesListed`).
- The course list endpoint iterates the one queryset object held by the view
  class, so it shows the course table as it stood at the first listing in the
  process (`Views.CourseQuerySet`, `Views.CourseListings`). Detail lookups
  filter a copy of that queryset and read the current table.
- Lesson scoping reads the `is_student` / `is_instructor` user flags and the
  `students` relation, not the role relation.
- Course creation grants the instructor row at once, not on publishing.

## Model

| member | source | states |
|---|---|---|
| `Permissions.InstructorOrReadOnlyHasPermission` | users/permissions.py:15-21 | View check of IsInstructorOrReadOnly: a safe method, or an authenticated requester. |
| `Permissions.InstructorOrReadOnlyHasObjectPermission` | users/permissions.py:23-34 | Object check of IsInstructorOrReadOnly: a safe method, or the requester holds the instructor row on the course. |
| `Permissions.EnrolledStudentHasPermission` | users/permissions.py:42-54 | View check of IsEnrolledStudent: an authenticated requester, a `course_pk` on the route, and the student row on that course. |
| `Permissions.EnrolledStudentHasObjectPermission` | users/permissions.py:56-63 | Object check of IsEnrolledStudent: the course is published, and the requester created it or holds the student row. |
| `Permissions.AnonymousOrAuthenticatedHasPermission` | users/permissions.py:72-78 | A safe method, or an authenticated requester. |
| `Permissions.CourseDetailAllowed` | users/permissions.py:15-34 | A detail request on a course passes when both checks of IsInstructorOrReadOnly pass. |
| `Permissions.InstructorOrReadOnlyDecision` | users/permissions.py:15-34 | Safe methods are always allowed. An unsafe method passes the view check iff the requester is authenticated. It passes the object check, and the combined detail check, iff the requester holds the (user, course, instructor) row. |
| `Permissions.CreatorAloneCannotEdit` | users/permissions.py:29-34 | Being the course's creator without the instructor row does not allow any unsafe method. |
| `Permissions.EnrolledStudentListDecision` | users/permissions.py:42-54 | Anonymous requesters are refused, and so are requests without a `course_pk`. Otherwise the request is allowed iff the (user, course_pk, student) row exists. |
| `Permissions.UnpublishedLessonDenied` | users/permissions.py:56-58 | A lesson of an unpublished course is refused to everyone, its creator included. |
| `Permissions.PublishedLessonDecision` | users/permissions.py:56-63 | On a published course, a lesson is allowed iff the requester created the course or holds the student row. |
| `Permissions.InstructorOnlyDenied` | users/permissions.py:58-63 | A non-creator who has no student row is refused, whatever instructor row they hold. |
| `Permissions.AnonymousOrAuthenticatedDecision` | users/permissions.py:72-78 | Safe methods are always allowed. Unsafe methods are allowed iff the requester is authenticated. |
| `Permissions.PermissionsMonotone` | users/permissions.py:32-63 | Adding role rows never turns an allow into a deny, for every object check and for the enrolled-student view check. |
| `Serializers.ValidateLesson` | courses/serializers.py:36-45 | A missing order raises a key error. Otherwise the lesson is rejected, with "Lesson order must be unique within the course.", iff some stored lesson has the same course and order. On success the attributes are returned unchanged. |
| `Serializers.ValidateInputDecision` | courses/serializers.py:40-44 | A fully submitted lesson is accepted iff no stored lesson occupies its (course, order) position. |
| `Serializers.SubmitLesson` | courses/serializers.py:36-45 | Validate-then-insert either leaves the table alone or appends exactly the new lesson, and appends iff the position is free. It preserves (course, order) uniqueness. |
| `Serializers.SubmitAll` | courses/serializers.py:36-45 | A series of validated creates grows the table by at most one row per request. |
| `Serializers.SubmitAllKeepsUniqueOrders` | courses/serializers.py:36-45 | If every insert is preceded by `validate`, no two lessons of one course ever share an order. |
| `Serializers.ResubmitOwnOrderRejected` | courses/serializers.py:41 | The check does not leave out the lesson being edited, so resubmitting a stored lesson with its own order is always rejected. |
| `Serializers.OrderOnlyPatchAccepted` | courses/serializers.py:40-41 | A partial update that sends only `order` is accepted even when another lesson of the same course holds that order. Saving it breaks (course, order) uniqueness. |
| `Serializers.ValidatePartialUpdate` | courses/serializers.py:36-45 | Corrected partial-update check: absent course and order are taken from the stored lesson. It rejects, with the serializer's message, iff another lesson holds the resulting position. |
| `Serializers.OrderOnlyPatchRejected` | courses/serializers.py:40-41 | The corrected check refuses the order-only update that the check as written accepts. |
| `Serializers.PartialUpdateKeepsUniqueOrders` | courses/serializers.py:36-45 | A partial update accepted by the corrected check keeps (course, order) unique and lesson keys distinct. |
| `Database.Store.PartialUpdateLesson` | courses/serializers.py:36-45 | A partial update checked with the corrected rule: the row becomes the merged lesson iff accepted. Uniqueness and the store's consistency are preserved. |
| `Serializers.ValidateLessonUpdate` | courses/serializers.py:36-45 | Corrected update check: rejected iff another lesson (different key) holds the new position. |
| `Serializers.ReplaceRow` | courses/serializers.py:36-45 | An update replaces exactly the rows with the edited key, and leaves the length and every other row unchanged. |
| `Serializers.ResubmitOwnOrderAccepted` | courses/serializers.py:36-45 | With the corrected check, an unchanged resubmission of a stored lesson is accepted, provided uniqueness held. |
| `Serializers.UpdateKeepsUniqueOrders` | courses/serializers.py:36-45 | An update accepted by the corrected check keeps (course, order) unique and lesson keys distinct. |
| `Database.AddRole` | courses/management/commands/populatedb.py:164-167 | Get-or-create: the triple is present afterwards. Nothing else is added and nothing is removed. An already-present triple leaves the rows unchanged. Otherwise exactly that row is appended. No duplicate rows are introduced. |
| `Database.AddRoleIdempotent` | courses/management/commands/populatedb.py:164-167 | Calling the get-or-create twice has the same effect as calling it once. |
| `Database.OtherInstructorDoesNotBlock` | courses/management/commands/populatedb.py:166 | The guard inspects only the exact triple. Another user's instructor row on the same course does not stop a second instructor row from being added. |
| `Database.Store.CreateUserRole` | courses/management/commands/populatedb.py:164-167 | The role rows become `AddRole` of the old rows and the triple. The store stays consistent. |
| `Database.Store.CreateCourse` | courses/serializers.py:15-23 | Adds exactly one course under a fresh key. Its creator is the requester, whatever the client sent. Its other fields are the submitted ones. Exactly the (requester, course, instructor) row is added. |
| `Database.Store.CreateLesson` | courses/serializers.py:36-45 | Returns the validation result. The table becomes `SubmitLesson` of the old table. (course, order) uniqueness is preserved. |
| `Database.Store.UpdateLesson` | courses/serializers.py:36-45 | A full update checked with the corrected rule: the row is replaced iff accepted. Uniqueness and the store's consistency are preserved. |
| `Database.Store.InsertLesson` | courses/models.py:23-27 | A direct insert appends the lesson with no uniqueness check. |
| `Database.Store.CreateUser` | users/models.py:5-11 | Adds one user with the given `is_student` / `is_instructor` flags under a fresh key. |
| `Database.Store.DeleteCourse` | courses/models.py:24 | Removes the course and exactly its lessons and role rows. Other courses' lessons stay. Consistency and (course, order) uniqueness are preserved. |
| `Database.Store.DeleteUser` | courses/models.py:10-14 | Removes the user and the courses they created, with those courses' lessons and role rows, and the user's own role rows and enrolments. Consistency and uniqueness are preserved. |
| `Database.DeleteUserRemoves` | courses/models.py:10-14 | After a user deletion, the lessons left are exactly those not in the user's courses. The role rows left are exactly those of other users on courses the user did not create. |
| `Database.DeleteCourseConsistent` | courses/models.py:24 | Deleting a course leaves no lesson or role row pointing at a missing course. |
| `Database.DeleteUserConsistent` | courses/models.py:10-14 | Deleting a user leaves no course, lesson or role row pointing at a missing user or course. |
| `Database.WithoutUser` | courses/models.py:10-17 | The courses left after deleting a user are exactly those they did not create, with the user dropped from their students. |
| `Views.LessonQuerySetAsWritten` | courses/views.py:26-42 | Anonymous users and users with neither flag get nothing. `is_student` gives each lesson of an enrolled course as often as it is stored. `is_instructor` without `is_student` repeats each lesson of a taught course once per enrolled student (once if there is none), and gives each lesson of a course the user only attends once. Either way the same lessons appear as in the intended queryset. |
| `Views.TaughtLessonRepeatedPerStudent` | courses/views.py:34-37 | A stored lesson of a course the instructor teaches, with k >= 2 students, appears k times in the as-written queryset and once in the intended one. |
| `Views.InstructorSeesLessonTwice` | courses/views.py:34-37 | Concrete case: instructor 1 teaching course 7, with students 2 and 3 and one lesson, gets that lesson twice. |
| `Views.GetLesson` | courses/views.py:21-23 | The detail lookup finds a lesson iff exactly one row of the queryset has the key, and that lesson is the only row with the key. It reports "does not exist" iff no row has the key. It raises "multiple objects returned" iff two or more rows have it. |
| `Views.RepeatedLessonLookupFails` | courses/views.py:34-37 | A lesson that the queryset repeats cannot be opened: looking it up raises "multiple objects returned". |
| `Views.LessonQuerySet` | courses/views.py:26-42 | Intended queryset, each lesson once (as `.distinct()` would give). The result is a sub-multiset of all lessons. Anonymous users get nothing, and so do users with neither flag. `is_student` gives exactly the lessons of enrolled courses. `is_instructor` without `is_student` gives exactly the lessons of taught or enrolled courses. |
| `Views.ListLessons` | courses/views.py:21-42 | The lesson list is the intended queryset, as a permutation, sorted by ascending `order`, and drawn from the stored lessons. |
| `Views.InstructorListingIsUnion` | courses/views.py:34-37 | The instructor's listing is the union of the taught-course and enrolled-course querysets. |
| `Views.StudentFlagTakesPrecedence` | courses/views.py:31-37 | A user with both flags does not see a course they teach but are not enrolled in. |
| `Views.CoursePkIgnored` | courses/views.py:26-42 | The nested route's `course_pk` does not change the lesson listing. |
| `Views.CourseQuerySet.List` | courses/views.py:12-18 | The shared class-level queryset is returned as is. The first listing reads the table and caches it. Every later listing returns the cached rows, and the cache is left unchanged. |
| `Views.CourseQuerySet.ListEach` | courses/views.py:12-18 | Serving one list request per table, in turn, returns exactly the listings `Views.CourseListings` specifies. |
| `Views.CourseListings` | courses/views.py:12-18 | Over a series of list requests, one listing per request, every listing is the course table as the first listing found it. |
| `Views.CourseCreatedLaterNotListed` | courses/views.py:12-18 | A course created after the first listing is missing from every later listing in the same process. |
| `Views.UnpublishedCoursesListed` | courses/views.py:17-18 | Every course in the table at the first listing, unpublished ones included, is listed to every caller, unchanged. |
| `Versioning.RequestedVersion` | kitcode/views.py:11-17 | A missing or empty `version` becomes `DEFAULT_VERSION`. Any other value is kept verbatim. |
| `Versioning.GetVersion` | kitcode/views.py:9-26 | Status is 200 or 404. A 200 carries a version from `VALID_VERSIONS`, and a 404 carries `{"error": "Invalid version."}`. A missing or empty parameter gives 200 iff the default is listed. A non-empty one gives 200 iff it is listed, and is then echoed verbatim. |
| `Versioning.GetVersionIdempotent` | kitcode/views.py:9-26 | Requesting the version just returned gives the same 200 response. |
| `Models.CourseStrOnlyTitle` | courses/models.py:19-20 | Two courses have the same string iff they have the same title. Publishing, owner, description and students play no part. |
| `Models.CourseStr` | courses/models.py:19-20 | A course is shown as its title. |
| `Models.LessonStr` | courses/models.py:32-33 | A lesson is shown as its order in decimal, then ". ", then its title. |
| `Models.NatToString` | courses/models.py:32-33 | The decimal form of the order is a non-empty digit string with no leading zero. |
| `Models.NatToStringRoundTrip` | courses/models.py:32-33 | Parsing the decimal form gives back the order. |
| `Models.LessonStrRoundTrip` | courses/models.py:32-33 | A lesson's string is "<order>. <title>". The order and title can be read back from it. |
| `Models.SortByOrder` | courses/models.py:29-30 | Lessons are listed in ascending `order`, as a permutation of the rows. |
| `Models.InsertByOrder` | courses/models.py:29-30 | Inserting into a list sorted by `order` keeps it sorted and adds exactly that lesson. |
| `Database.DirectInsertsCanDuplicate` | courses/models.py:23-30 | The table declares no (course, order) constraint. Two direct inserts of the same fields, appended to any table, leave two lessons at one position. |
| `Common.Filter` | courses/views.py:32 | A filtered queryset keeps exactly the matching rows, with their counts. |
| `Common.FilterAppend` | courses/views.py:32 | Filtering a concatenation filters each part in place, so the kept rows stay in their original order. |
| `Common.FilterPairwise` | courses/models.py:24 | Filtering rows (as a cascade does) keeps every pairwise property, including key distinctness and (course, order) uniqueness. |

## Left out

- Authentication, tokens, registration, password flows and email
  verification belong to external libraries. The model consumes only "anonymous or
  authenticated user".
- The OR-composed permission list on the lesson view set
  (`IsAuthenticatedUser | IsStudent | IsInstructor`). Those classes are not
  part of this model.
- `publish`, `assign_instructor` and `enroll_student` are not part of this
  model, nor is the single-instructor validation hook. Course creation grants the instructor
  row through the same get-or-create as the seeding command. Nothing in the
  model adds to a course's `students` relation.
- Database.Store.CreateCourse: `assign_instructor` is modelled as the same
  get-or-create as `create_user_role`. Its contract therefore says exactly one
  instructor row is appended. The source's own helper body is not part of this model.
- Views.ListLessons: sorts the intended queryset, in which each lesson
  appears once. The as-written list endpoint returns the duplicates that
  `Views.LessonQuerySetAsWritten` states (see Findings).
- Views.CourseQuerySet.List: models one server process. Each worker process
  keeps its own cache, and the model does not capture which process serves a
  request. Pagination is not configured, so it is not modelled.
- Database.Store.DeleteCourse and Database.Store.DeleteUser: the role
  table's foreign keys are not part of this model. The deletes assume
  `CASCADE` on both its user and its course keys.
- The seeding command's `handle`: database flush, migrations, console output
  and email-address seeding are I/O.
- Partial updates (PATCH) send the title and content they carry. The model
  does not treat those two fields as optional. Only `course` and `order` are
  filled in from the stored lesson.
- Field-level validation done by the framework, such as blank titles and
  unknown course keys. Inserts take `requires input.course in courses`.
- URL routing, the admin site, image uploads, timestamps, and the race
  between `validate` and the insert.
- Query parameters with repeated `version` keys. The model takes the single
  value the query dictionary returns.

## Findings

| source | as written | input that shows it | evidently intended | confidence | as-written member | corrected member |
|---|---|---|---|---|---|---|
| courses/views.py:35-37 | The instructor's two querysets are OR-ed across the `students` many-to-many, so the join on `students` becomes a left outer join and a lesson of a taught course comes back once per enrolled student. | An instructor teaching a course with students 2 and 3 and one lesson gets that lesson twice, and opening the lesson raises "multiple objects returned". | Each visible lesson once, as the comment at line 33 describes. | medium, not executed | `Views.TaughtLessonRepeatedPerStudent` | `Views.LessonQuerySet` |
| courses/serializers.py:40-41 | On a partial update without `course`, the existence check filters on a null course and matches no row. | A partial update `{"order": 1}` of a lesson whose course already has another lesson at order 1 is accepted. The save leaves two lessons at order 1. | The position the lesson will occupy, with absent fields taken from the stored lesson, should be checked. | medium, not executed | `Serializers.OrderOnlyPatchAccepted` | `Serializers.PartialUpdateKeepsUniqueOrders` |
| courses/serializers.py:41 | On an update, the existence check also matches the lesson being edited. | A full update of a stored lesson that keeps its course and order is rejected with "Lesson order must be unique within the course." | Only other lessons of the course should make the position taken. | medium, not executed | `Serializers.ResubmitOwnOrderRejected` | `Serializers.ResubmitOwnOrderAccepted` |
