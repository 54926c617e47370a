/** The lesson serializer's `validate` hook: the (course, order) existence
    test run before a lesson is saved, the save that follows it, and the
    corrected check for updates. Course creation, which changes the store,
    is `Database.Store.CreateCourse`. */
module Serializers {
  import opened Common
  import opened Models

  /** The validated fields handed to `validate`. On a partial update a field
      the client did not send is absent. */
  datatype LessonAttrs = LessonAttrs(course: Option<CourseId>, title: string, content: string, order: Option<nat>)

  /** The fields of a lesson submitted in full (create or full update). */
  datatype LessonInput = LessonInput(course: CourseId, title: string, content: string, order: nat)

  const ORDER_NOT_UNIQUE: string := "Lesson order must be unique within the course."

  datatype ValidationError =
    | OrderNotUnique(message: string)  // the serializer's ValidationError
    | MissingOrder                     // the KeyError raised by attrs["order"]

  datatype Validated = Accepted(attrs: LessonAttrs) | Rejected(error: ValidationError)

  function AttrsOf(input: LessonInput): (attrs: LessonAttrs)
  {
    LessonAttrs(Some(input.course), input.title, input.content, Some(input.order))
  }

  function InputOf(l: Lesson): (input: LessonInput)
  {
    LessonInput(l.course, l.title, l.content, l.order)
  }

  function NewLesson(id: LessonId, input: LessonInput): (l: Lesson)
  {
    Lesson(id, input.course, input.title, input.content, input.order)
  }

  /** Some stored lesson already sits at `order` in `course`. */
  predicate OrderTaken(ls: seq<Lesson>, course: CourseId, order: nat)
  {
    exists l :: l in ls && l.course == course && l.order == order
  }

  /** `LessonSerializer.validate` as written. A missing course filters on a
      null course, which matches no row; a missing order raises before the
      query runs. */
  function ValidateLesson(ls: seq<Lesson>, attrs: LessonAttrs): (r: Validated)
    ensures attrs.order.None? ==> r == Rejected(MissingOrder)
    ensures attrs.order.Some? ==>
      (r.Rejected? <==> attrs.course.Some? && OrderTaken(ls, attrs.course.value, attrs.order.value))
    ensures r.Rejected? && attrs.order.Some? ==> r.error == OrderNotUnique(ORDER_NOT_UNIQUE)
    ensures r.Accepted? ==> r.attrs == attrs
  {
    match attrs.order
    case None => Rejected(MissingOrder)
    case Some(order) =>
      if attrs.course.Some? && OrderTaken(ls, attrs.course.value, order) then
        Rejected(OrderNotUnique(ORDER_NOT_UNIQUE))
      else Accepted(attrs)
  }

  /** A lesson submitted in full is accepted exactly when its position in its
      course is free. */
  lemma ValidateInputDecision(ls: seq<Lesson>, input: LessonInput)
    ensures ValidateLesson(ls, AttrsOf(input)).Accepted? <==>
      forall l :: l in ls ==> !SameSlot(l, NewLesson(0, input))
  {
  }

  /** Create: validate, then save the lesson under the next primary key. */
  function SubmitLesson(ls: seq<Lesson>, id: LessonId, input: LessonInput): (r: seq<Lesson>)
    ensures UniqueOrders(ls) ==> UniqueOrders(r)
    ensures r == ls || r == ls + [NewLesson(id, input)]
    ensures r == ls + [NewLesson(id, input)] <==> !OrderTaken(ls, input.course, input.order)
  {
    if ValidateLesson(ls, AttrsOf(input)).Accepted? then
      var r := ls + [NewLesson(id, input)];
      assert forall i :: 0 <= i < |ls| ==> r[i] == ls[i] && ls[i] in ls;
      r
    else ls
  }

  /** A series of create requests, each validated before its insert. */
  function SubmitAll(ls: seq<Lesson>, nextId: LessonId, inputs: seq<LessonInput>): (r: seq<Lesson>)
    ensures |ls| <= |r| <= |ls| + |inputs|
    decreases |inputs|
  {
    if inputs == [] then ls
    else SubmitAll(SubmitLesson(ls, nextId, inputs[0]), nextId + 1, inputs[1..])
  }

  /** If every insert is preceded by `validate`, no two lessons of one course
      ever share an order. */
  lemma {:induction false} SubmitAllKeepsUniqueOrders(ls: seq<Lesson>, nextId: LessonId, inputs: seq<LessonInput>)
    requires UniqueOrders(ls)
    ensures UniqueOrders(SubmitAll(ls, nextId, inputs))
    decreases |inputs|
  {
    if inputs != [] {
      SubmitAllKeepsUniqueOrders(SubmitLesson(ls, nextId, inputs[0]), nextId + 1, inputs[1..]);
    }
  }

  // ---------------------------------------------------------------------
  // Updates

  /** The check as written does not leave out the lesson being edited: a
      lesson resubmitted with its own order always collides with itself. */
  lemma ResubmitOwnOrderRejected(ls: seq<Lesson>, l: Lesson)
    requires l in ls
    ensures ValidateLesson(ls, AttrsOf(InputOf(l))) == Rejected(OrderNotUnique(ORDER_NOT_UNIQUE))
  {
  }

  /** The corrected check for an update of `instance`: only the other lessons
      of the course can make its new position taken. */
  function ValidateLessonUpdate(ls: seq<Lesson>, instance: Lesson, input: LessonInput): (r: Validated)
    ensures r.Rejected? <==>
      exists l :: l in ls && l.id != instance.id && SameSlot(l, NewLesson(instance.id, input))
    ensures r.Rejected? ==> r.error == OrderNotUnique(ORDER_NOT_UNIQUE)
    ensures r.Accepted? ==> r.attrs == AttrsOf(input)
  {
    if exists l :: l in ls && l.id != instance.id && l.course == input.course && l.order == input.order then
      Rejected(OrderNotUnique(ORDER_NOT_UNIQUE))
    else Accepted(AttrsOf(input))
  }

  /** The table after the row with primary key `id` is replaced by `row`. */
  function ReplaceRow(ls: seq<Lesson>, id: LessonId, row: Lesson): (r: seq<Lesson>)
    ensures |r| == |ls|
    ensures forall i :: 0 <= i < |ls| ==> r[i] == if ls[i].id == id then row else ls[i]
  {
    seq(|ls|, i requires 0 <= i < |ls| => if ls[i].id == id then row else ls[i])
  }

  /** With the corrected check, resubmitting a stored lesson unchanged is
      accepted. */
  lemma {:induction false} ResubmitOwnOrderAccepted(ls: seq<Lesson>, l: Lesson)
    requires UniqueOrders(ls) && DistinctIds(ls) && l in ls
    ensures ValidateLessonUpdate(ls, l, InputOf(l)).Accepted?
  {
    forall m | m in ls && m.id != l.id ensures !SameSlot(m, NewLesson(l.id, InputOf(l))) {
      var i :| 0 <= i < |ls| && ls[i] == m;
      var j :| 0 <= j < |ls| && ls[j] == l;
      assert i != j;
      if i < j {
        assert !SameSlot(ls[i], ls[j]);
      } else {
        assert !SameSlot(ls[j], ls[i]);
      }
    }
  }

  /** An update accepted by the corrected check keeps (course, order) unique. */
  lemma {:induction false} UpdateKeepsUniqueOrders(ls: seq<Lesson>, instance: Lesson, input: LessonInput)
    requires UniqueOrders(ls) && DistinctIds(ls) && instance in ls
    requires ValidateLessonUpdate(ls, instance, input).Accepted?
    ensures UniqueOrders(ReplaceRow(ls, instance.id, NewLesson(instance.id, input)))
    ensures DistinctIds(ReplaceRow(ls, instance.id, NewLesson(instance.id, input)))
  {
    var row := NewLesson(instance.id, input);
    var r := ReplaceRow(ls, instance.id, row);
    forall i, j | 0 <= i < j < |r| ensures !SameSlot(r[i], r[j]) && r[i].id != r[j].id {
      if ls[i].id == instance.id {
        assert ls[j] in ls;
      } else if ls[j].id == instance.id {
        assert ls[i] in ls;
      }
    }
  }

  // ---------------------------------------------------------------------
  // Partial updates

  /** A partial update that sends `order` but not `course` passes the check as
      written: the filter on a null course matches no row. An order already
      held by another lesson of the instance's course goes through, and the
      save leaves two lessons at one position. */
  lemma OrderOnlyPatchAccepted(ls: seq<Lesson>, instance: Lesson, other: Lesson)
    requires instance in ls && other in ls && other.id != instance.id && other.course == instance.course
    ensures ValidateLesson(ls, LessonAttrs(None, instance.title, instance.content, Some(other.order))).Accepted?
    ensures !UniqueOrders(ReplaceRow(ls, instance.id, instance.(order := other.order)))
  {
  }

  /** The fields of `instance` once the partial update `attrs` is applied: the
      course and order sent replace the stored ones, absent ones are kept. */
  function Merged(instance: Lesson, attrs: LessonAttrs): (input: LessonInput)
  {
    LessonInput(
      if attrs.course.Some? then attrs.course.value else instance.course,
      attrs.title, attrs.content,
      if attrs.order.Some? then attrs.order.value else instance.order)
  }

  /** The corrected check for a partial update: the position the lesson will
      occupy, with absent fields taken from the stored lesson, must not be
      held by another lesson. */
  function ValidatePartialUpdate(ls: seq<Lesson>, instance: Lesson, attrs: LessonAttrs): (r: Validated)
    ensures r.Rejected? <==>
      exists l :: l in ls && l.id != instance.id &&
        l.course == (if attrs.course.Some? then attrs.course.value else instance.course) &&
        l.order == (if attrs.order.Some? then attrs.order.value else instance.order)
    ensures r.Rejected? ==> r.error == OrderNotUnique(ORDER_NOT_UNIQUE)
  {
    ValidateLessonUpdate(ls, instance, Merged(instance, attrs))
  }

  /** The corrected check refuses the order-only update that the check as
      written lets through. */
  lemma OrderOnlyPatchRejected(ls: seq<Lesson>, instance: Lesson, other: Lesson)
    requires other in ls && other.id != instance.id && other.course == instance.course
    ensures ValidatePartialUpdate(ls, instance, LessonAttrs(None, instance.title, instance.content, Some(other.order))).Rejected?
  {
  }

  /** A partial update accepted by the corrected check keeps (course, order)
      unique and lesson keys distinct. */
  lemma PartialUpdateKeepsUniqueOrders(ls: seq<Lesson>, instance: Lesson, attrs: LessonAttrs)
    requires UniqueOrders(ls) && DistinctIds(ls) && instance in ls
    requires ValidatePartialUpdate(ls, instance, attrs).Accepted?
    ensures UniqueOrders(ReplaceRow(ls, instance.id, NewLesson(instance.id, Merged(instance, attrs))))
    ensures DistinctIds(ReplaceRow(ls, instance.id, NewLesson(instance.id, Merged(instance, attrs))))
  {
  }
}
