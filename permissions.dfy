/** The three permission classes as predicates over the request method, the
    requester, a course and the role relation. Each database existence test
    becomes a membership test on the role rows; the predicates are functions
    of a snapshot, so none of them can change the roles or a course. */
module Permissions {
  import opened Common
  import opened Models

  datatype HttpMethod = Get | Head | Options | Post | Put | Patch | Delete

  /** The read-only methods: GET, HEAD and OPTIONS. */
  predicate IsSafe(m: HttpMethod)
  {
    m == Get || m == Head || m == Options
  }

  /** The requester holds `role` in `course`. An anonymous requester matches
      no row (the checks below reach this test only for authenticated users). */
  predicate HoldsRole(roles: seq<UserRole>, req: Requester, course: CourseId, role: Role)
  {
    req.Authenticated? && UserRole(req.user.id, course, role) in roles
  }

  // IsInstructorOrReadOnly

  predicate InstructorOrReadOnlyHasPermission(m: HttpMethod, req: Requester)
  {
    IsSafe(m) || req.Authenticated?
  }

  predicate InstructorOrReadOnlyHasObjectPermission(m: HttpMethod, req: Requester, course: Course, roles: seq<UserRole>)
  {
    IsSafe(m) || HoldsRole(roles, req, course.id, Instructor)
  }

  // IsEnrolledStudent

  /** `coursePk` is the `course_pk` keyword of the nested lesson route, absent
      when the view is reached without one. */
  predicate EnrolledStudentHasPermission(req: Requester, coursePk: Option<CourseId>, roles: seq<UserRole>)
  {
    req.Authenticated? && coursePk.Some? && HoldsRole(roles, req, coursePk.value, Student)
  }

  /** `course` is the course of the lesson being accessed. */
  predicate EnrolledStudentHasObjectPermission(req: Requester, course: Course, roles: seq<UserRole>)
  {
    course.isPublished
    && ((req.Authenticated? && course.createdBy == req.user.id) || HoldsRole(roles, req, course.id, Student))
  }

  // IsAnonymousOrAuthenticated

  predicate AnonymousOrAuthenticatedHasPermission(m: HttpMethod, req: Requester)
  {
    IsSafe(m) || req.Authenticated?
  }

  /** The framework grants a detail request on a course when both the view
      check and the object check of IsInstructorOrReadOnly pass. */
  predicate CourseDetailAllowed(m: HttpMethod, req: Requester, course: Course, roles: seq<UserRole>)
  {
    InstructorOrReadOnlyHasPermission(m, req) && InstructorOrReadOnlyHasObjectPermission(m, req, course, roles)
  }

  // ---------------------------------------------------------------------
  // Properties

  lemma InstructorOrReadOnlyDecision(m: HttpMethod, req: Requester, course: Course, roles: seq<UserRole>)
    ensures IsSafe(m) ==> InstructorOrReadOnlyHasPermission(m, req)
    ensures !IsSafe(m) ==> (InstructorOrReadOnlyHasPermission(m, req) <==> req.Authenticated?)
    ensures IsSafe(m) ==> InstructorOrReadOnlyHasObjectPermission(m, req, course, roles)
    ensures !IsSafe(m) ==>
      (InstructorOrReadOnlyHasObjectPermission(m, req, course, roles) <==>
        req.Authenticated? && UserRole(req.user.id, course.id, Instructor) in roles)
    ensures !IsSafe(m) ==>
      (CourseDetailAllowed(m, req, course, roles) <==>
        req.Authenticated? && UserRole(req.user.id, course.id, Instructor) in roles)
  {
  }

  /** Creating a course does not by itself let one edit it: without the
      instructor row the creator is refused every unsafe method. */
  lemma CreatorAloneCannotEdit(m: HttpMethod, creator: User, course: Course, roles: seq<UserRole>)
    requires !IsSafe(m) && course.createdBy == creator.id
    requires UserRole(creator.id, course.id, Instructor) !in roles
    ensures !InstructorOrReadOnlyHasObjectPermission(m, Authenticated(creator), course, roles)
  {
  }

  lemma EnrolledStudentListDecision(req: Requester, coursePk: Option<CourseId>, roles: seq<UserRole>)
    ensures req.Anonymous? ==> !EnrolledStudentHasPermission(req, coursePk, roles)
    ensures coursePk.None? ==> !EnrolledStudentHasPermission(req, coursePk, roles)
    ensures req.Authenticated? && coursePk.Some? ==>
      (EnrolledStudentHasPermission(req, coursePk, roles) <==>
        UserRole(req.user.id, coursePk.value, Student) in roles)
  {
  }

  /** A lesson of an unpublished course is refused to everyone, its creator
      and its instructor included. */
  lemma UnpublishedLessonDenied(req: Requester, course: Course, roles: seq<UserRole>)
    requires !course.isPublished
    ensures !EnrolledStudentHasObjectPermission(req, course, roles)
  {
  }

  lemma PublishedLessonDecision(u: User, course: Course, roles: seq<UserRole>)
    requires course.isPublished
    ensures EnrolledStudentHasObjectPermission(Authenticated(u), course, roles) <==>
      course.createdBy == u.id || UserRole(u.id, course.id, Student) in roles
  {
  }

  /** The object check of IsEnrolledStudent ignores the instructor role: an
      instructor who neither created the course nor is enrolled is refused. */
  lemma InstructorOnlyDenied(u: User, course: Course, roles: seq<UserRole>)
    requires course.createdBy != u.id
    requires UserRole(u.id, course.id, Student) !in roles
    ensures !EnrolledStudentHasObjectPermission(Authenticated(u), course, roles)
  {
  }

  lemma AnonymousOrAuthenticatedDecision(m: HttpMethod, req: Requester)
    ensures IsSafe(m) ==> AnonymousOrAuthenticatedHasPermission(m, req)
    ensures !IsSafe(m) ==> (AnonymousOrAuthenticatedHasPermission(m, req) <==> req.Authenticated?)
  {
  }

  /** Adding rows to the role relation never turns an allow into a deny. */
  lemma PermissionsMonotone(
    m: HttpMethod, req: Requester, coursePk: Option<CourseId>, course: Course,
    roles: seq<UserRole>, more: seq<UserRole>)
    requires forall f :: f in roles ==> f in more
    ensures InstructorOrReadOnlyHasObjectPermission(m, req, course, roles)
      ==> InstructorOrReadOnlyHasObjectPermission(m, req, course, more)
    ensures EnrolledStudentHasPermission(req, coursePk, roles)
      ==> EnrolledStudentHasPermission(req, coursePk, more)
    ensures EnrolledStudentHasObjectPermission(req, course, roles)
      ==> EnrolledStudentHasObjectPermission(req, course, more)
    ensures CourseDetailAllowed(m, req, course, roles) ==> CourseDetailAllowed(m, req, course, more)
  {
  }
}
