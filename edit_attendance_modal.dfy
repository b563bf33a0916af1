/**
 * The nested dialog that changes one attendance record's status: its form,
 * the request body, the submit machine driven by the PUT /api/attendance
 * reply, and its guarded controls.
 */
module EditAttendance {
  import opened Wrappers
  import opened Types
  import opened Fetch
  import opened Callbacks

  /** The status selector's options, in the order shown. */
  const StatusOptions: seq<AttendanceStatus> := [Absent, Late, Present]

  /** The selector offers each of the three statuses exactly once, labelled by its name. */
  lemma StatusOptionsExact()
    ensures |StatusOptions| == 3
    ensures forall s: AttendanceStatus :: s in StatusOptions
    ensures forall i, j :: 0 <= i < j < |StatusOptions| ==> StatusOptions[i] != StatusOptions[j]
    ensures forall i :: 0 <= i < |StatusOptions| ==> StatusName(StatusOptions[i]) == ["Absent", "Late", "Present"][i]
  {
    forall s: AttendanceStatus ensures s in StatusOptions {
      match s
      case Absent => assert StatusOptions[0] == s;
      case Late => assert StatusOptions[1] == s;
      case Present => assert StatusOptions[2] == s;
    }
  }

  /** The body sent to the server: the status and the attendance id, nothing else. */
  datatype AttendanceUpdateRequest = AttendanceUpdateRequest(status: AttendanceStatus, attendance_id: int)

  /** The reply's body, read untyped: the update result travels in `result`, not `data`. */
  datatype AttendanceUpdateBody = AttendanceUpdateBody(success: bool, message: string, result: Option<AttendanceUpdateResponse>)

  /** The update counts as done exactly when the response is ok and the body reports success. */
  predicate AttendanceUpdateSucceeded(reply: Reply<AttendanceUpdateBody>)
  {
    reply.Received? && reply.ok && reply.body.success
  }

  /** The form's values: the record's id and the chosen status, the same two fields as an update result. */
  type EditAttendanceFormInputs = AttendanceUpdateResponse

  /** The request body for the form's values. */
  function RequestBody(form: EditAttendanceFormInputs): (b: AttendanceUpdateRequest)
    ensures b.status == form.status && b.attendance_id == form.attendance_id
  {
    AttendanceUpdateRequest(form.status, form.attendance_id)
  }

  class EditAttendanceModal {
    /** The `attendance` prop: the edited record's id and current status. */
    const attendance: AttendanceUpdateResponse
    const student: Student
    var form: EditAttendanceFormInputs
    var isSubmitting: bool

    /** The `attendance_id` input is disabled: the form always names the edited record. */
    predicate Valid()
      reads this
    {
      form.attendance_id == attendance.attendance_id
    }

    /** Mounted for a record: the form starts with its id and status. */
    constructor (attendance: AttendanceUpdateResponse, student: Student)
      ensures Valid()
      ensures this.attendance == attendance && this.student == student
      ensures form == attendance && !isSubmitting
    {
      this.attendance := attendance;
      this.student := student;
      form := attendance;
      isSubmitting := false;
    }

    /**
     * The user picks an option of the selector; its value text is read as a
     * status. The selector only yields the values of its options.
     */
    method ChooseStatus(value: string)
      requires Valid()
      requires ParseStatus(value).Some?
      modifies this`form
      ensures Valid() && form == AttendanceUpdateResponse(attendance.attendance_id, ParseStatus(value).value)
      ensures StatusName(form.status) == value
    {
      form := form.(status := ParseStatus(value).value);
    }

    /** The submit starts: `isSubmitting` is set and the selected status is sent for this record. */
    method BeginSubmit() returns (request: AttendanceUpdateRequest)
      requires Valid()
      modifies this`isSubmitting
      ensures isSubmitting
      ensures request == AttendanceUpdateRequest(form.status, attendance.attendance_id)
    {
      isSubmitting := true;
      request := RequestBody(form);
    }

    /**
     * The update settles. Once the body is parsed the attendance refetch is
     * started, before the outcome is checked, so it happens on success and
     * failure alike. On success `onUpdateAttendance(result.result)` and the
     * close request follow; on failure nothing else happens and no error is
     * shown. Either way the dialog stops submitting.
     */
    method FinishSubmit(reply: Reply<AttendanceUpdateBody>) returns (effects: seq<Effect>)
      modifies this`isSubmitting
      ensures !isSubmitting
      ensures reply.Thrown? ==> effects == []
      ensures reply.Received? && AttendanceUpdateSucceeded(reply) ==>
                effects == [RefetchAttendances, AttendanceUpdated(reply.body.result), RequestClose]
      ensures reply.Received? && !AttendanceUpdateSucceeded(reply) ==> effects == [RefetchAttendances]
    {
      effects := [];
      if reply.Received? {
        effects := effects + [RefetchAttendances];
        if AttendanceUpdateSucceeded(reply) {
          effects := effects + [AttendanceUpdated(reply.body.result), RequestClose];
        }
      }
      isSubmitting := false;
    }

    /** While submitting, dismissing the dialog is ignored and Cancel is disabled. */
    function CloseRequestedBy(control: CloseControl): (r: bool)
      reads this
      ensures r <==> !isSubmitting
    {
      match control
      case Dismiss => !isSubmitting
      case CloseButton => !isSubmitting
    }
  }
}
