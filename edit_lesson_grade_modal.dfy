/**
 * The nested dialog that changes one lesson's grade: its form, the submit
 * machine driven by the PUT /api/grade reply, and its guarded controls.
 */
module EditLessonGrade {
  import opened Types
  import opened Fetch
  import opened Callbacks

  /** The grade selector's options, in the order shown. */
  const GradeOptions: seq<Grade> := [A, B, C, D, F]

  /** The selector offers each of the five grades exactly once, labelled by its name. */
  lemma GradeOptionsExact()
    ensures |GradeOptions| == 5
    ensures forall g: Grade :: g in GradeOptions
    ensures forall i, j :: 0 <= i < j < |GradeOptions| ==> GradeOptions[i] != GradeOptions[j]
    ensures forall i :: 0 <= i < |GradeOptions| ==> GradeName(GradeOptions[i]) == ["A", "B", "C", "D", "F"][i]
  {
    forall g: Grade ensures g in GradeOptions {
      match g
      case A => assert GradeOptions[0] == g;
      case B => assert GradeOptions[1] == g;
      case C => assert GradeOptions[2] == g;
      case D => assert GradeOptions[3] == g;
      case F => assert GradeOptions[4] == g;
    }
  }

  /** The update counts as done exactly when the response is ok and the envelope reports success. */
  predicate GradeUpdateSucceeded(reply: Reply<ApiResponse<GradeUpdateResponse>>)
  {
    reply.Received? && reply.ok && reply.body.success
  }

  class EditLessonGradeModal {
    const lesson: Lesson
    const student: Student
    var form: GradeUpdateRequest
    var isSubmitting: bool

    /** The `grade_id` input is disabled: the form always names the edited lesson. */
    predicate Valid()
      reads this
    {
      form.grade_id == lesson.gradeid
    }

    /** Mounted for a lesson: the form starts with that lesson's id and grade. */
    constructor (lesson: Lesson, student: Student)
      ensures Valid()
      ensures this.lesson == lesson && this.student == student
      ensures form == GradeUpdateRequest(lesson.gradeid, lesson.grade) && !isSubmitting
    {
      this.lesson := lesson;
      this.student := student;
      form := GradeUpdateRequest(lesson.gradeid, lesson.grade);
      isSubmitting := false;
    }

    /**
     * The user picks an option of the selector; its value text is read as a
     * grade. The selector only yields the values of its options.
     */
    method ChooseGrade(value: string)
      requires Valid()
      requires ParseGrade(value).Some?
      modifies this`form
      ensures Valid() && form == GradeUpdateRequest(lesson.gradeid, ParseGrade(value).value)
      ensures GradeName(form.grade) == value
    {
      form := form.(grade := ParseGrade(value).value);
    }

    /** The submit starts: `isSubmitting` is set and the form's values are sent. */
    method BeginSubmit() returns (request: GradeUpdateRequest)
      requires Valid()
      modifies this`isSubmitting
      ensures isSubmitting && request == form && request.grade_id == lesson.gradeid
    {
      isSubmitting := true;
      request := form;
    }

    /**
     * The update settles. On success: `onGradeUpdated(result.data)`, then the
     * lessons refetch, then the close request, in that order. On failure the
     * error is swallowed: no callback, no refetch, no close. Either way the
     * dialog stops submitting.
     */
    method FinishSubmit(reply: Reply<ApiResponse<GradeUpdateResponse>>) returns (effects: seq<Effect>)
      modifies this`isSubmitting
      ensures !isSubmitting
      ensures GradeUpdateSucceeded(reply) ==>
                effects == [GradeUpdated(reply.body.data), RefetchLessons, RequestClose]
      ensures !GradeUpdateSucceeded(reply) ==> effects == []
    {
      if GradeUpdateSucceeded(reply) {
        effects := [GradeUpdated(reply.body.data), RefetchLessons, RequestClose];
      } else {
        effects := [];
      }
      isSubmitting := false;
    }

    /** While submitting, dismissing the dialog is ignored and Cancel is disabled. */
    function CloseRequestedBy(control: CloseControl): (r: bool)
      reads this
      ensures r <==> !isSubmitting
    {
      match control
      case Dismiss => !isSubmitting
      case CloseButton => !isSubmitting
    }
  }
}
