/** The querysets of the two view sets. Lesson scoping follows the requester's
    `is_student` / `is_instructor` flags and the course's creator and enrolled
    students; the course view set lists the course table through one shared,
    cached queryset. */
module Views {
  import opened Common
  import opened Models

  /** Lessons of the courses `u` is enrolled in (`course__students=user`). */
  function EnrolledIn(courses: map<CourseId, Course>, u: UserId): (keep: Lesson -> bool)
  {
    (l: Lesson) => l.course in courses && u in courses[l.course].students
  }

  /** Lessons of the courses `u` teaches (`course__instructor=user`). */
  function TaughtBy(courses: map<CourseId, Course>, u: UserId): (keep: Lesson -> bool)
  {
    (l: Lesson) => l.course in courses && courses[l.course].createdBy == u
  }

  /** The two querysets OR-ed together: taught by or enrolled in. */
  function TaughtByOrEnrolledIn(courses: map<CourseId, Course>, u: UserId): (keep: Lesson -> bool)
  {
    (l: Lesson) => l.course in courses && (courses[l.course].createdBy == u || u in courses[l.course].students)
  }

  /** How many rows the OR-ed instructor query yields for lesson `l`. The OR
      turns the join on `students` into a left outer join: a lesson of a
      course `u` teaches comes back once per enrolled student (once when the
      course has none), a lesson of a course `u` only attends comes back
      once, through `u`'s own enrolment. */
  function InstructorRows(courses: map<CourseId, Course>, u: UserId): (rows: Lesson -> nat)
  {
    (l: Lesson) =>
      if l.course !in courses then 0
      else if courses[l.course].createdBy == u then
        (if |courses[l.course].students| == 0 then 1 else |courses[l.course].students|)
      else if u in courses[l.course].students then 1
      else 0
  }

  /** `LessonViewSet.get_queryset` as written. The student branch is an inner
      join on the student's own enrolment, so each lesson comes back once;
      the instructor branch repeats a taught lesson once per enrolled
      student. The route's `course_pk` plays no part. */
  function LessonQuerySetAsWritten(req: Requester, coursePk: Option<CourseId>, courses: map<CourseId, Course>, lessons: seq<Lesson>): (r: seq<Lesson>)
    ensures req.Anonymous? ==> r == []
    ensures req.Authenticated? && !req.user.isStudent && !req.user.isInstructor ==> r == []
    ensures req.Authenticated? && req.user.isStudent ==>
      forall l :: multiset(r)[l] == if l.course in courses && req.user.id in courses[l.course].students then multiset(lessons)[l] else 0
    ensures req.Authenticated? && !req.user.isStudent && req.user.isInstructor ==>
      forall l :: multiset(r)[l] == multiset(lessons)[l] * InstructorRows(courses, req.user.id)(l)
    ensures forall l :: l in r <==> l in LessonQuerySet(req, coursePk, courses, lessons)
  {
    match req
    case Anonymous => []
    case Authenticated(u) =>
      if u.isStudent then Filter(lessons, EnrolledIn(courses, u.id))
      else if u.isInstructor then Expand(lessons, InstructorRows(courses, u.id))
      else []
  }

  /** `LessonViewSet.get_queryset` as evidently intended: the lessons the
      user may see, each once (what `.distinct()` on the OR-ed query gives).
      The route's `course_pk` reaches the view but plays no part. */
  function LessonQuerySet(req: Requester, coursePk: Option<CourseId>, courses: map<CourseId, Course>, lessons: seq<Lesson>): (r: seq<Lesson>)
    ensures multiset(r) <= multiset(lessons)
    ensures req.Anonymous? ==> r == []
    ensures req.Authenticated? && !req.user.isStudent && !req.user.isInstructor ==> r == []
    ensures req.Authenticated? && req.user.isStudent ==>
      forall l :: l in r <==> l in lessons && l.course in courses && req.user.id in courses[l.course].students
    ensures req.Authenticated? && !req.user.isStudent && req.user.isInstructor ==>
      forall l :: l in r <==>
        (l in lessons && l.course in courses &&
         (courses[l.course].createdBy == req.user.id || req.user.id in courses[l.course].students))
  {
    match req
    case Anonymous => []
    case Authenticated(u) =>
      if u.isStudent then Filter(lessons, EnrolledIn(courses, u.id))
      else if u.isInstructor then Filter(lessons, TaughtByOrEnrolledIn(courses, u.id))
      else []
  }

  /** The lesson list endpoint over the intended queryset, in the model's
      default ordering, ascending `order`. */
  function ListLessons(req: Requester, coursePk: Option<CourseId>, courses: map<CourseId, Course>, lessons: seq<Lesson>): (r: seq<Lesson>)
    ensures SortedByOrder(r)
    ensures multiset(r) == multiset(LessonQuerySet(req, coursePk, courses, lessons))
    ensures multiset(r) <= multiset(lessons)
  {
    SortByOrder(LessonQuerySet(req, coursePk, courses, lessons))
  }

  /** The instructor's listing is the union of the two querysets. */
  lemma InstructorListingIsUnion(u: User, coursePk: Option<CourseId>, courses: map<CourseId, Course>, lessons: seq<Lesson>)
    requires !u.isStudent && u.isInstructor
    ensures forall l :: l in LessonQuerySet(Authenticated(u), coursePk, courses, lessons) <==>
      l in Filter(lessons, TaughtBy(courses, u.id)) || l in Filter(lessons, EnrolledIn(courses, u.id))
  {
  }

  /** `is_student` wins: a user with both flags does not see the lessons of a
      course they teach but are not enrolled in. */
  lemma StudentFlagTakesPrecedence(u: User, coursePk: Option<CourseId>, courses: map<CourseId, Course>, lessons: seq<Lesson>, l: Lesson)
    requires u.isStudent && u.isInstructor
    requires l in lessons && l.course in courses
    requires courses[l.course].createdBy == u.id && u.id !in courses[l.course].students
    ensures l !in LessonQuerySet(Authenticated(u), coursePk, courses, lessons)
  {
  }

  /** The nested route does not narrow the listing to its course. */
  lemma CoursePkIgnored(req: Requester, pk1: Option<CourseId>, pk2: Option<CourseId>, courses: map<CourseId, Course>, lessons: seq<Lesson>)
    ensures LessonQuerySet(req, pk1, courses, lessons) == LessonQuerySet(req, pk2, courses, lessons)
  {
  }

  /** A lesson of a course its instructor teaches comes back from the
      as-written query once per enrolled student, while the intended query
      returns it once. */
  lemma TaughtLessonRepeatedPerStudent(u: User, coursePk: Option<CourseId>, courses: map<CourseId, Course>, lessons: seq<Lesson>, l: Lesson)
    requires !u.isStudent && u.isInstructor
    requires multiset(lessons)[l] == 1 && l.course in courses && courses[l.course].createdBy == u.id
    requires |courses[l.course].students| >= 2
    ensures multiset(LessonQuerySetAsWritten(Authenticated(u), coursePk, courses, lessons))[l] == |courses[l.course].students|
    ensures multiset(LessonQuerySet(Authenticated(u), coursePk, courses, lessons))[l] == 1
  {
  }

  /** An instructor teaching course 7, which has two students and one lesson,
      gets that lesson twice. */
  lemma InstructorSeesLessonTwice()
    ensures var l := Lesson(0, 7, "Intro", "text", 1);
      LessonQuerySetAsWritten(Authenticated(User(1, false, true)), Some(7),
        map[7 := Course(7, "Course", "about", 1, true, {2, 3})], [l]) == [l, l]
  {
  }

  datatype Lookup = Found(lesson: Lesson) | DoesNotExist | MultipleObjectsReturned

  /** The rows with primary key `id`. */
  function WithKey(id: LessonId): (keep: Lesson -> bool)
  {
    (l: Lesson) => l.id == id
  }

  /** The detail view's `get_object`: the single row of the queryset with
      primary key `id`; two or more rows raise. */
  function GetLesson(qs: seq<Lesson>, id: LessonId): (r: Lookup)
    ensures r.Found? <==> |Filter(qs, WithKey(id))| == 1
    ensures r == MultipleObjectsReturned <==> |Filter(qs, WithKey(id))| >= 2
    ensures r == DoesNotExist <==> forall l :: l in qs ==> l.id != id
    ensures r.Found? ==> r.lesson in qs && r.lesson.id == id
    ensures r.Found? ==> forall l :: l in qs && l.id == id ==> l == r.lesson
  {
    var hits := Filter(qs, WithKey(id));
    assert forall l :: l in hits <==> l in qs && l.id == id;
    if |hits| == 0 then DoesNotExist
    else if |hits| == 1 then
      assert forall l :: l in hits ==> l == hits[0];
      Found(hits[0])
    else
      assert hits[0] in hits;
      MultipleObjectsReturned
  }

  /** A lesson the as-written query repeats cannot be opened: its lookup
      finds two rows. */
  lemma RepeatedLessonLookupFails(qs: seq<Lesson>, l: Lesson)
    requires multiset(qs)[l] >= 2
    ensures GetLesson(qs, l.id) == MultipleObjectsReturned
  {
  }

  // ---------------------------------------------------------------------
  // Courses

  /** The class-level `Course.objects.all()` that `CourseViewSet.get_queryset`
      returns itself, with the result cache Django fills the first time the
      queryset is iterated. The cache lives as long as the process. */
  class CourseQuerySet {
    var resultCache: Option<map<CourseId, Course>>

    constructor ()
      ensures resultCache == None
    {
      resultCache := None;
    }

    /** The list endpoint iterates the shared queryset: the first time it
        reads `table` and keeps the rows, later it returns the kept rows. */
    method List(table: map<CourseId, Course>) returns (listing: map<CourseId, Course>)
      modifies this
      ensures old(resultCache).None? ==> listing == table
      ensures old(resultCache).Some? ==> listing == old(resultCache).value
      ensures resultCache == Some(listing)
    {
      if resultCache.None? {
        resultCache := Some(table);
      }
      listing := resultCache.value;
    }

    /** One list request per table in `tables`, in turn: the listings are
        those `CourseListings` specifies. */
    method ListEach(tables: seq<map<CourseId, Course>>) returns (listings: seq<map<CourseId, Course>>)
      modifies this
      ensures listings == CourseListings(old(resultCache), tables)
      ensures tables == [] ==> resultCache == old(resultCache)
      ensures tables != [] ==> resultCache == Some(listings[0])
    {
      listings := [];
      var i := 0;
      while i < |tables|
        invariant 0 <= i <= |tables| && |listings| == i
        invariant i == 0 ==> resultCache == old(resultCache)
        invariant i > 0 ==> resultCache == Some(if old(resultCache).Some? then old(resultCache).value else tables[0])
        invariant i > 0 ==> forall k :: 0 <= k < i ==> listings[k] == resultCache.value
      {
        var listing := List(tables[i]);
        listings := listings + [listing];
        i := i + 1;
      }
    }
  }

  /** The listings returned to a series of list requests, `tables[i]` being
      the course table when request `i` arrives and `cache` the queryset's
      result cache before the first: every listing is the table as the first
      evaluation found it. */
  function CourseListings(cache: Option<map<CourseId, Course>>, tables: seq<map<CourseId, Course>>): (r: seq<map<CourseId, Course>>)
    ensures |r| == |tables|
    ensures cache.Some? ==> forall i :: 0 <= i < |r| ==> r[i] == cache.value
    ensures cache.None? && tables != [] ==> forall i :: 0 <= i < |r| ==> r[i] == tables[0]
    decreases |tables|
  {
    if tables == [] then []
    else
      var listing := if cache.Some? then cache.value else tables[0];
      [listing] + CourseListings(Some(listing), tables[1..])
  }

  /** A course created after the first listing is missing from every later
      listing of the process. */
  lemma CourseCreatedLaterNotListed(tables: seq<map<CourseId, Course>>, i: nat, c: CourseId)
    requires 0 < i < |tables| && c !in tables[0] && c in tables[i]
    ensures c !in CourseListings(None, tables)[i]
  {
  }

  /** Every course in the table at the first listing is listed to every
      caller, unpublished ones included. */
  lemma UnpublishedCoursesListed(tables: seq<map<CourseId, Course>>, c: CourseId)
    requires tables != [] && c in tables[0] && !tables[0][c].isPublished
    ensures forall i :: 0 <= i < |tables| ==>
      c in CourseListings(None, tables)[i] && CourseListings(None, tables)[i][c] == tables[0][c]
  {
  }
}
