/** The entities of the course platform as values: users with their two
    role flags, courses, the (user, course, role) facts and lessons, together
    with their string forms, the default ordering of lessons and the
    (course, order) uniqueness that the storage layer does not declare. */
module Models {
  import opened Common

  type UserId = nat
  type CourseId = nat
  type LessonId = nat

  datatype Role = Student | Instructor

  /** One row of the role relation: `user` holds `role` in `course`. */
  datatype UserRole = UserRole(user: UserId, course: CourseId, role: Role)

  /** A user account; only the two role flags matter to the core. */
  datatype User = User(id: UserId, isStudent: bool, isInstructor: bool)

  /** A course. `createdBy` is the owning user (the `created_by` foreign key,
      which older revisions call `instructor`); `students` is the enrolment
      many-to-many relation that lesson scoping reads. */
  datatype Course = Course(
    id: CourseId,
    title: string,
    description: string,
    createdBy: UserId,
    isPublished: bool,
    students: set<UserId>)

  /** A lesson of a course; `order` is a non-negative integer. */
  datatype Lesson = Lesson(id: LessonId, course: CourseId, title: string, content: string, order: nat)

  /** Who sent the request: nobody, or an authenticated user. */
  datatype Requester = Anonymous | Authenticated(user: User)

  // ---------------------------------------------------------------------
  // String forms

  /** A course is shown as its title. */
  function CourseStr(c: Course): (s: string)
  {
    c.title
  }

  /** A course's string depends on its title alone: publishing it, changing
      its owner, description or students, or its key leaves the string as it
      was. */
  lemma CourseStrOnlyTitle(c: Course, d: Course)
    ensures CourseStr(c) == CourseStr(d) <==> c.title == d.title
  {
  }

  predicate IsDigit(ch: char)
  {
    '0' <= ch <= '9'
  }

  predicate AllDigits(s: string)
  {
    forall i :: 0 <= i < |s| ==> IsDigit(s[i])
  }

  function DigitChar(d: nat): (ch: char)
    requires d < 10
    ensures IsDigit(ch) && ch as int - '0' as int == d
  {
    ('0' as int + d) as char
  }

  /** Decimal rendering of a non-negative integer, as Python's `str` gives it. */
  function NatToString(n: nat): (s: string)
    ensures |s| >= 1 && AllDigits(s)
    ensures s[0] == '0' ==> n == 0
  {
    if n < 10 then [DigitChar(n)] else NatToString(n / 10) + [DigitChar(n % 10)]
  }

  /** The value of a string of decimal digits. */
  function ParseDigits(s: string): (n: nat)
    requires AllDigits(s)
  {
    if s == [] then 0 else ParseDigits(s[..|s| - 1]) * 10 + (s[|s| - 1] as int - '0' as int)
  }

  lemma {:induction false} NatToStringRoundTrip(n: nat)
    ensures ParseDigits(NatToString(n)) == n
  {
    var s := NatToString(n);
    if n >= 10 {
      NatToStringRoundTrip(n / 10);
      assert s[..|s| - 1] == NatToString(n / 10);
    } else {
      assert s[..|s| - 1] == [];
    }
  }

  /** A lesson is shown as "<order>. <title>". */
  function LessonStr(l: Lesson): (s: string)
  {
    NatToString(l.order) + ". " + l.title
  }

  /** Length of the run of digits at the start of `s`. */
  function LeadingDigits(s: string): (k: nat)
    ensures k <= |s| && AllDigits(s[..k])
    ensures k < |s| ==> !IsDigit(s[k])
  {
    if s == [] || !IsDigit(s[0]) then 0
    else
      var k := 1 + LeadingDigits(s[1..]);
      assert s[..k] == [s[0]] + s[1..][..k - 1];
      k
  }

  /** Reads a lesson's string back into its order and title. */
  function ParseLessonStr(s: string): (parsed: Option<(nat, string)>)
  {
    var k := LeadingDigits(s);
    if 0 < k && k + 2 <= |s| && s[k] == '.' && s[k + 1] == ' ' then
      Some((ParseDigits(s[..k]), s[k + 2..]))
    else None
  }

  lemma {:induction false} LeadingDigitsOfNumber(d: string, rest: string)
    requires AllDigits(d)
    requires rest != [] && !IsDigit(rest[0])
    ensures LeadingDigits(d + rest) == |d|
  {
    if d != [] {
      assert (d + rest)[1..] == d[1..] + rest;
      LeadingDigitsOfNumber(d[1..], rest);
    }
  }

  /** The order and the title can be read back from a lesson's string: the
      digits of the order never run into the ". " separator. */
  lemma LessonStrRoundTrip(l: Lesson)
    ensures ParseLessonStr(LessonStr(l)) == Some((l.order, l.title))
  {
    var d := NatToString(l.order);
    var s := LessonStr(l);
    assert s == d + (". " + l.title);
    LeadingDigitsOfNumber(d, ". " + l.title);
    assert s[..|d|] == d;
    assert s[|d| + 2..] == l.title;
    NatToStringRoundTrip(l.order);
  }

  // ---------------------------------------------------------------------
  // Default ordering of lessons

  predicate SortedByOrder(ls: seq<Lesson>)
  {
    forall i, j :: 0 <= i < j < |ls| ==> ls[i].order <= ls[j].order
  }

  /** Puts `l` in front of the first lesson whose order is not smaller. */
  function InsertByOrder(l: Lesson, ls: seq<Lesson>): (r: seq<Lesson>)
    requires SortedByOrder(ls)
    ensures SortedByOrder(r)
    ensures multiset(r) == multiset(ls) + multiset{l}
  {
    if ls == [] || l.order <= ls[0].order then [l] + ls
    else
      var tail := InsertByOrder(l, ls[1..]);
      assert ls == [ls[0]] + ls[1..];
      forall x | x in tail ensures ls[0].order <= x.order {
        assert x in multiset(tail);
        if x != l {
          assert x in multiset(ls[1..]);
        }
      }
      [ls[0]] + tail
  }

  /** The lessons as every query lists them: ascending `order`. */
  function SortByOrder(ls: seq<Lesson>): (r: seq<Lesson>)
    ensures SortedByOrder(r)
    ensures multiset(r) == multiset(ls)
  {
    if ls == [] then []
    else
      assert ls == [ls[0]] + ls[1..];
      InsertByOrder(ls[0], SortByOrder(ls[1..]))
  }

  // ---------------------------------------------------------------------
  // (course, order) uniqueness

  /** Two lessons that would share one position within one course. */
  predicate SameSlot(a: Lesson, b: Lesson)
  {
    a.course == b.course && a.order == b.order
  }

  /** No two lesson rows of one course share an order. */
  predicate UniqueOrders(ls: seq<Lesson>)
  {
    Pairwise(ls, (a: Lesson, b: Lesson) => !SameSlot(a, b))
  }

  /** No two lesson rows carry the same primary key. */
  predicate DistinctIds(ls: seq<Lesson>)
  {
    Pairwise(ls, (a: Lesson, b: Lesson) => a.id != b.id)
  }
}
