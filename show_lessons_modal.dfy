/**
 * The lessons dialog of a student: the selection of the lesson being edited,
 * the reconciliation of a grade update with the shown lessons, its close
 * guard and the choice of what it shows.
 */
module ShowLessons {
  import opened Wrappers
  import opened Types
  import opened Callbacks

  /** `lessons.find(l => l.gradeid === id)`: the first lesson with that grade id. */
  function FindByGradeId(lessons: seq<Lesson>, id: int): (r: Option<Lesson>)
    ensures r.None? <==> forall i :: 0 <= i < |lessons| ==> lessons[i].gradeid != id
    ensures r.Some? ==> exists k :: 0 <= k < |lessons| && lessons[k] == r.value && r.value.gradeid == id &&
                                  forall j :: 0 <= j < k ==> lessons[j].gradeid != id
  {
    if lessons == [] then None
    else if lessons[0].gradeid == id then Some(lessons[0])
    else
      var r := FindByGradeId(lessons[1..], id);
      assert forall i :: 0 < i < |lessons| ==> lessons[i] == lessons[1..][i - 1];
      if r.Some? then
        var k :| 0 <= k < |lessons[1..]| && lessons[1..][k] == r.value && r.value.gradeid == id &&
                 forall j :: 0 <= j < k ==> lessons[1..][j].gradeid != id;
        assert lessons[k + 1] == r.value;
        r
      else r
  }

  /**
   * `handleGradeUpdated`: the lesson handed to `onGradeUpdated`, the first
   * lesson with the updated grade id with its grade replaced; `None` when no
   * lesson matches and the callback is not called. The shown list itself is
   * not changed.
   */
  function GradeUpdatedLesson(lessons: seq<Lesson>, updated: GradeUpdateResponse): (r: Option<Lesson>)
    ensures r.None? <==> forall i :: 0 <= i < |lessons| ==> lessons[i].gradeid != updated.grade_id
    ensures r.Some? ==> exists k :: 0 <= k < |lessons| && lessons[k].gradeid == updated.grade_id &&
                                  (forall j :: 0 <= j < k ==> lessons[j].gradeid != updated.grade_id) &&
                                  r.value == Lesson(lessons[k].gradeid, updated.grade, lessons[k].coursename)
  {
    match FindByGradeId(lessons, updated.grade_id)
    case None => None
    case Some(found) => Some(found.(grade := updated.grade))
  }

  /** What the dialog body shows. */
  datatype LessonsContent = Spinner | LessonsTable(rows: seq<Lesson>) | NoLessons

  /** The spinner while loading, then the table when there are lessons, then the empty message. */
  function ShownContent(isLoading: bool, lessons: seq<Lesson>): (c: LessonsContent)
    ensures c == Spinner <==> isLoading
    ensures c.LessonsTable? <==> !isLoading && lessons != []
    ensures c.LessonsTable? ==> c.rows == lessons
  {
    if isLoading then Spinner
    else if |lessons| > 0 then LessonsTable(lessons)
    else NoLessons
  }

  class ShowLessonsModal {
    const student: Student
    var lessons: seq<Lesson>
    var isLoading: bool
    var isEditModalOpen: bool
    var selectedLesson: Option<Lesson>

    /** The edit dialog is open exactly while a lesson is selected. */
    predicate Valid()
      reads this
    {
      isEditModalOpen <==> selectedLesson.Some?
    }

    constructor (student: Student, lessons: seq<Lesson>, isLoading: bool)
      ensures Valid()
      ensures this.student == student && this.lessons == lessons && this.isLoading == isLoading
      ensures !isEditModalOpen && selectedLesson == None
    {
      this.student := student;
      this.lessons := lessons;
      this.isLoading := isLoading;
      isEditModalOpen := false;
      selectedLesson := None;
    }

    /** The parent re-renders the dialog with new `lessons` and `isLoading` props. */
    method Rerender(lessons: seq<Lesson>, isLoading: bool)
      modifies this`lessons, this`isLoading
      ensures this.lessons == lessons && this.isLoading == isLoading
    {
      this.lessons := lessons;
      this.isLoading := isLoading;
    }

    method OpenEditModal(lesson: Lesson)
      requires Valid()
      modifies this`selectedLesson, this`isEditModalOpen
      ensures Valid() && selectedLesson == Some(lesson) && isEditModalOpen
    {
      selectedLesson := Some(lesson);
      isEditModalOpen := true;
    }

    method CloseEditModal()
      requires Valid()
      modifies this`selectedLesson, this`isEditModalOpen
      ensures Valid() && selectedLesson == None && !isEditModalOpen
    {
      selectedLesson := None;
      isEditModalOpen := false;
    }

    /** The lesson the grade editor is mounted for; there is an editor only while the edit dialog is open. */
    function Editor(): (r: Option<Lesson>)
      reads this
      requires Valid()
      ensures r.Some? <==> isEditModalOpen
      ensures r == selectedLesson
    {
      selectedLesson
    }

    /**
     * Dismissing the lessons dialog is ignored while the grade editor is open;
     * its Close button is not guarded.
     */
    function CloseRequestedBy(control: CloseControl): (r: bool)
      reads this
      ensures control == Dismiss ==> (r <==> !isEditModalOpen)
      ensures control == CloseButton ==> r
    {
      match control
      case Dismiss => !isEditModalOpen
      case CloseButton => true
    }
  }
}
