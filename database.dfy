/** The relational store the core reads and writes: users, courses, lessons
    and the role relation, with the operations that change it in place —
    the seeding command's get-or-create of a role row, course creation by
    the course serializer, lesson inserts (direct, validated, updated) and
    the cascading deletes the foreign keys declare. */
module Database {
  import opened Common
  import opened Models
  import opened Serializers

  /** No role row is stored twice. */
  predicate NoDuplicateRoles(roles: seq<UserRole>)
  {
    Pairwise(roles, (a: UserRole, b: UserRole) => a != b)
  }

  /** Get-or-create on the role relation: the row is added only when the
      exact (user, course, role) triple is not stored yet. */
  function AddRole(roles: seq<UserRole>, f: UserRole): (r: seq<UserRole>)
    ensures f in r
    ensures forall g :: g in r <==> g in roles || g == f
    ensures f in roles ==> r == roles
    ensures f !in roles ==> r == roles + [f]
    ensures NoDuplicateRoles(roles) ==> NoDuplicateRoles(r)
  {
    if f in roles then roles
    else
      var r := roles + [f];
      assert forall i :: 0 <= i < |roles| ==> r[i] == roles[i] && roles[i] in roles;
      r
  }

  /** Calling the get-or-create twice has the effect of calling it once. */
  lemma AddRoleIdempotent(roles: seq<UserRole>, f: UserRole)
    ensures AddRole(AddRole(roles, f), f) == AddRole(roles, f)
  {
  }

  /** The guard looks at the exact triple only: another user's instructor row
      on the same course does not stop a second instructor row. */
  lemma OtherInstructorDoesNotBlock(roles: seq<UserRole>, u: UserId, v: UserId, c: CourseId)
    requires u != v && UserRole(v, c, Instructor) in roles && UserRole(u, c, Instructor) !in roles
    ensures var r := AddRole(roles, UserRole(u, c, Instructor));
      UserRole(u, c, Instructor) in r && UserRole(v, c, Instructor) in r && |r| == |roles| + 1
  {
  }

  /** The fields of a course taken from the request body; `createdBy` is
      whatever the client may have sent for `created_by`. */
  datatype CourseInput = CourseInput(title: string, description: string, isPublished: bool, createdBy: Option<UserId>)

  /** Keeps the lessons whose course is not in `cs`. */
  function LessonOutside(cs: set<CourseId>): (keep: Lesson -> bool)
  {
    (l: Lesson) => l.course !in cs
  }

  /** Keeps the role rows of no user in `us` and no course in `cs`. */
  function RoleOutside(us: set<UserId>, cs: set<CourseId>): (keep: UserRole -> bool)
  {
    (f: UserRole) => f.user !in us && f.course !in cs
  }

  /** The table declares no constraint on (course, order): two direct inserts
      of the same fields, as two `Store.InsertLesson` calls make them, leave
      two lessons at one position, whatever the table held before. */
  lemma DirectInsertsCanDuplicate(ls: seq<Lesson>, i: LessonId, j: LessonId, input: LessonInput)
    ensures !UniqueOrders(ls + [NewLesson(i, input)] + [NewLesson(j, input)])
  {
    var r := ls + [NewLesson(i, input)] + [NewLesson(j, input)];
    assert SameSlot(r[|ls|], r[|ls| + 1]);
  }

  /** Keys match ids, primary keys are below their counters, every foreign
      key points at a stored row, and neither lesson keys nor role rows
      repeat. */
  ghost predicate Consistent(
    users: map<UserId, User>, courses: map<CourseId, Course>, lessons: seq<Lesson>, roles: seq<UserRole>,
    nextUserId: nat, nextCourseId: nat, nextLessonId: nat)
  {
    && (forall u :: u in users ==> users[u].id == u && u < nextUserId)
    && (forall c :: c in courses ==>
          courses[c].id == c && c < nextCourseId
          && courses[c].createdBy in users && courses[c].students <= users.Keys)
    && (forall l :: l in lessons ==> l.course in courses && l.id < nextLessonId)
    && DistinctIds(lessons)
    && (forall f :: f in roles ==> f.user in users && f.course in courses)
    && NoDuplicateRoles(roles)
  }

  /** The courses `u` created. */
  function OwnedBy(courses: map<CourseId, Course>, u: UserId): (owned: set<CourseId>)
  {
    set c | c in courses && courses[c].createdBy == u
  }

  /** The courses left once `u` is deleted, with `u` no longer enrolled. */
  function WithoutUser(courses: map<CourseId, Course>, u: UserId): (r: map<CourseId, Course>)
    ensures forall c :: c in r <==> c in courses && courses[c].createdBy != u
    ensures forall c :: c in r ==> r[c] == courses[c].(students := courses[c].students - {u})
  {
    map c | c in courses && courses[c].createdBy != u :: courses[c].(students := courses[c].students - {u})
  }

  lemma {:induction false} FilterLessonsConsistent(lessons: seq<Lesson>, keep: Lesson -> bool)
    requires DistinctIds(lessons)
    ensures DistinctIds(Filter(lessons, keep))
    ensures UniqueOrders(lessons) ==> UniqueOrders(Filter(lessons, keep))
  {
    FilterPairwise(lessons, keep, (a: Lesson, b: Lesson) => a.id != b.id);
    if UniqueOrders(lessons) {
      FilterPairwise(lessons, keep, (a: Lesson, b: Lesson) => !SameSlot(a, b));
    }
  }

  lemma {:induction false} DeleteCourseConsistent(
    users: map<UserId, User>, courses: map<CourseId, Course>, lessons: seq<Lesson>, roles: seq<UserRole>,
    nu: nat, nc: nat, nl: nat, c: CourseId)
    requires Consistent(users, courses, lessons, roles, nu, nc, nl)
    ensures Consistent(users, courses - {c}, Filter(lessons, LessonOutside({c})),
                       Filter(roles, RoleOutside({}, {c})), nu, nc, nl)
  {
    FilterLessonsConsistent(lessons, LessonOutside({c}));
    FilterPairwise(roles, RoleOutside({}, {c}), (a: UserRole, b: UserRole) => a != b);
  }

  lemma {:induction false} DeleteUserConsistent(
    users: map<UserId, User>, courses: map<CourseId, Course>, lessons: seq<Lesson>, roles: seq<UserRole>,
    nu: nat, nc: nat, nl: nat, u: UserId)
    requires Consistent(users, courses, lessons, roles, nu, nc, nl)
    ensures Consistent(users - {u}, WithoutUser(courses, u), Filter(lessons, LessonOutside(OwnedBy(courses, u))),
                       Filter(roles, RoleOutside({u}, OwnedBy(courses, u))), nu, nc, nl)
  {
    var owned := OwnedBy(courses, u);
    var remaining := WithoutUser(courses, u);
    FilterLessonsConsistent(lessons, LessonOutside(owned));
    FilterPairwise(roles, RoleOutside({u}, owned), (a: UserRole, b: UserRole) => a != b);
    forall l | l in Filter(lessons, LessonOutside(owned)) ensures l.course in remaining {
      assert l.course !in owned;
    }
    forall f | f in Filter(roles, RoleOutside({u}, owned)) ensures f.user in users - {u} && f.course in remaining {
      assert f.course !in owned;
    }
  }

  /** What deleting user `u` leaves: the courses `u` did not create, the
      lessons of those courses only, and the role rows of other users on
      those courses only. */
  lemma DeleteUserRemoves(courses: map<CourseId, Course>, lessons: seq<Lesson>, roles: seq<UserRole>, u: UserId)
    ensures forall l :: l in Filter(lessons, LessonOutside(OwnedBy(courses, u))) <==>
      l in lessons && !(l.course in courses && courses[l.course].createdBy == u)
    ensures forall f :: f in Filter(roles, RoleOutside({u}, OwnedBy(courses, u))) <==>
      f in roles && f.user != u && !(f.course in courses && courses[f.course].createdBy == u)
  {
  }

  class Store {
    var users: map<UserId, User>
    var courses: map<CourseId, Course>
    var lessons: seq<Lesson>      // rows in primary-key order
    var roles: seq<UserRole>      // rows in primary-key order
    var nextUserId: nat
    var nextCourseId: nat
    var nextLessonId: nat

    /** The store's integrity constraints; see `Consistent`. */
    ghost predicate Valid()
      reads this
    {
      Consistent(users, courses, lessons, roles, nextUserId, nextCourseId, nextLessonId)
    }

    constructor ()
      ensures Valid()
      ensures users == map[] && courses == map[] && lessons == [] && roles == []
    {
      users, courses, lessons, roles := map[], map[], [], [];
      nextUserId, nextCourseId, nextLessonId := 0, 0, 0;
    }

    /** Adds a user account with the given role flags. */
    method CreateUser(isStudent: bool, isInstructor: bool) returns (user: User)
      requires Valid()
      modifies this`users, this`nextUserId
      ensures Valid()
      ensures user == User(old(nextUserId), isStudent, isInstructor) && user.id !in old(users)
      ensures users == old(users)[user.id := user]
      ensures nextUserId == old(nextUserId) + 1
    {
      user := User(nextUserId, isStudent, isInstructor);
      users := users[user.id := user];
      nextUserId := nextUserId + 1;
    }

    /** The seeding command's `create_user_role`. */
    method CreateUserRole(user: UserId, course: CourseId, role: Role)
      requires Valid() && user in users && course in courses
      modifies this`roles
      ensures Valid()
      ensures roles == AddRole(old(roles), UserRole(user, course, role))
    {
      var f := UserRole(user, course, role);
      if f !in roles {
        roles := roles + [f];
        assert roles == AddRole(old(roles), f);
      }
    }

    /** `CourseSerializer.create`: the requester becomes the creator whatever
        the client sent, the course is stored, and the requester is granted
        the instructor row on it. */
    method CreateCourse(requester: UserId, input: CourseInput) returns (course: Course)
      requires Valid() && requester in users
      modifies this`courses, this`nextCourseId, this`roles
      ensures Valid()
      ensures course.id == old(nextCourseId) && course.id !in old(courses)
      ensures course == Course(course.id, input.title, input.description, requester, input.isPublished, {})
      ensures courses == old(courses)[course.id := course]
      ensures nextCourseId == old(nextCourseId) + 1
      ensures UserRole(requester, course.id, Instructor) in roles
      ensures roles == old(roles) + [UserRole(requester, course.id, Instructor)]
    {
      course := Course(nextCourseId, input.title, input.description, requester, input.isPublished, {});
      courses := courses[course.id := course];
      nextCourseId := nextCourseId + 1;
      CreateUserRole(requester, course.id, Instructor);
    }

    /** `Lesson.objects.create`: a direct insert that checks no uniqueness. */
    method InsertLesson(input: LessonInput) returns (lesson: Lesson)
      requires Valid() && input.course in courses
      modifies this`lessons, this`nextLessonId
      ensures Valid()
      ensures lesson == NewLesson(old(nextLessonId), input)
      ensures lessons == old(lessons) + [lesson]
      ensures nextLessonId == old(nextLessonId) + 1
    {
      lesson := NewLesson(nextLessonId, input);
      forall i | 0 <= i < |lessons| ensures lessons[i].id != lesson.id {
        assert lessons[i] in lessons;
      }
      lessons := lessons + [lesson];
      nextLessonId := nextLessonId + 1;
    }

    /** Creating a lesson through the serializer: `validate`, then the insert. */
    method CreateLesson(input: LessonInput) returns (r: Validated)
      requires Valid() && input.course in courses
      modifies this`lessons, this`nextLessonId
      ensures Valid()
      ensures r == ValidateLesson(old(lessons), AttrsOf(input))
      ensures lessons == SubmitLesson(old(lessons), old(nextLessonId), input)
      ensures nextLessonId == old(nextLessonId) + (if r.Accepted? then 1 else 0)
      ensures UniqueOrders(old(lessons)) ==> UniqueOrders(lessons)
    {
      r := ValidateLesson(lessons, AttrsOf(input));
      if r.Accepted? {
        var _ := InsertLesson(input);
      }
    }

    /** A full update of the stored lesson `instance`, checked with the
        corrected rule that leaves the instance itself out. */
    method UpdateLesson(instance: Lesson, input: LessonInput) returns (r: Validated)
      requires Valid() && instance in lessons && input.course in courses
      modifies this`lessons
      ensures Valid()
      ensures r == ValidateLessonUpdate(old(lessons), instance, input)
      ensures r.Accepted? ==> lessons == ReplaceRow(old(lessons), instance.id, NewLesson(instance.id, input))
      ensures r.Rejected? ==> lessons == old(lessons)
      ensures UniqueOrders(old(lessons)) ==> UniqueOrders(lessons)
    {
      r := ValidateLessonUpdate(lessons, instance, input);
      if r.Accepted? {
        if UniqueOrders(lessons) {
          UpdateKeepsUniqueOrders(lessons, instance, input);
        }
        var row := NewLesson(instance.id, input);
        var updated := ReplaceRow(lessons, instance.id, row);
        assert DistinctIds(updated) by {
          forall i, j | 0 <= i < j < |updated| ensures updated[i].id != updated[j].id {
            assert lessons[i].id != lessons[j].id;
          }
        }
        forall l | l in updated ensures l.course in courses && l.id < nextLessonId {
          var k :| 0 <= k < |updated| && updated[k] == l;
          assert lessons[k] in lessons;
        }
        lessons := updated;
      }
    }

    /** A partial update of the stored lesson `instance`, checked with the
        corrected rule: absent fields keep their stored values. */
    method PartialUpdateLesson(instance: Lesson, attrs: LessonAttrs) returns (r: Validated)
      requires Valid() && instance in lessons
      requires attrs.course.Some? ==> attrs.course.value in courses
      modifies this`lessons
      ensures Valid()
      ensures r == ValidatePartialUpdate(old(lessons), instance, attrs)
      ensures r.Accepted? ==> lessons == ReplaceRow(old(lessons), instance.id, NewLesson(instance.id, Merged(instance, attrs)))
      ensures r.Rejected? ==> lessons == old(lessons)
      ensures UniqueOrders(old(lessons)) ==> UniqueOrders(lessons)
    {
      r := UpdateLesson(instance, Merged(instance, attrs));
    }

    /** Deleting a course removes it, its lessons and its role rows. */
    method DeleteCourse(c: CourseId)
      requires Valid()
      modifies this`courses, this`lessons, this`roles
      ensures Valid()
      ensures courses == old(courses) - {c}
      ensures lessons == Filter(old(lessons), LessonOutside({c}))
      ensures roles == Filter(old(roles), RoleOutside({}, {c}))
      ensures forall l :: l in lessons <==> l in old(lessons) && l.course != c
      ensures UniqueOrders(old(lessons)) ==> UniqueOrders(lessons)
    {
      DeleteCourseConsistent(users, courses, lessons, roles, nextUserId, nextCourseId, nextLessonId, c);
      FilterLessonsConsistent(lessons, LessonOutside({c}));
      courses := courses - {c};
      lessons := Filter(lessons, LessonOutside({c}));
      roles := Filter(roles, RoleOutside({}, {c}));
    }

    /** Deleting a user removes the courses they created (and with them those
        courses' lessons and role rows), their own role rows, and their
        enrolments in the remaining courses. */
    method DeleteUser(u: UserId)
      requires Valid()
      modifies this`users, this`courses, this`lessons, this`roles
      ensures Valid()
      ensures users == old(users) - {u}
      ensures courses == WithoutUser(old(courses), u)
      ensures lessons == Filter(old(lessons), LessonOutside(OwnedBy(old(courses), u)))
      ensures roles == Filter(old(roles), RoleOutside({u}, OwnedBy(old(courses), u)))
      ensures UniqueOrders(old(lessons)) ==> UniqueOrders(lessons)
    {
      var owned := OwnedBy(courses, u);
      DeleteUserConsistent(users, courses, lessons, roles, nextUserId, nextCourseId, nextLessonId, u);
      FilterLessonsConsistent(lessons, LessonOutside(owned));
      users := users - {u};
      courses := WithoutUser(courses, u);
      lessons := Filter(lessons, LessonOutside(owned));
      roles := Filter(roles, RoleOutside({u}, owned));
    }
  }
}
