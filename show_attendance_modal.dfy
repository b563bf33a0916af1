/**
 * The attendance dialog of a student: the selection of the record being
 * edited, the props given to the status editor, its close guard while
 * loading and the choice of what it shows.
 */
module ShowAttendance {
  import opened Wrappers
  import opened Types
  import opened Callbacks

  /** What the dialog body shows. */
  datatype AttendanceContent = Spinner | ErrorMessage(text: string) | AttendanceTable(rows: seq<Attendance>) | NoAttendance

  /**
   * The spinner while loading, then a non-empty error, then the table when
   * there are records, then the empty message.
   */
  function ShownContent(isLoading: bool, error: Option<string>, attendances: seq<Attendance>): (c: AttendanceContent)
    ensures c == Spinner <==> isLoading
    ensures c.ErrorMessage? <==> !isLoading && error.Some? && error.value != ""
    ensures c.ErrorMessage? ==> c.text == error.value
    ensures c.AttendanceTable? <==> !isLoading && (error.None? || error.value == "") && attendances != []
    ensures c.AttendanceTable? ==> c.rows == attendances
  {
    if isLoading then Spinner
    else if error.Some? && error.value != "" then ErrorMessage(error.value)
    else if |attendances| > 0 then AttendanceTable(attendances)
    else NoAttendance
  }

  /** The `attendance` prop of the status editor: the record's id and status. */
  function EditorProps(a: Attendance): (p: AttendanceUpdateResponse)
    ensures p.attendance_id == a.attendanceid && p.status == a.status
  {
    AttendanceUpdateResponse(a.attendanceid, a.status)
  }

  class ShowAttendanceModal {
    const student: Student
    var attendances: seq<Attendance>
    var isLoading: bool
    var error: Option<string>
    var isEditModalOpen: bool
    var selectedAttendance: Option<Attendance>

    /** The edit dialog is open exactly while a record is selected. */
    predicate Valid()
      reads this
    {
      isEditModalOpen <==> selectedAttendance.Some?
    }

    constructor (student: Student, attendances: seq<Attendance>, isLoading: bool, error: Option<string>)
      ensures Valid()
      ensures this.student == student && this.attendances == attendances
      ensures this.isLoading == isLoading && this.error == error
      ensures !isEditModalOpen && selectedAttendance == None
    {
      this.student := student;
      this.attendances := attendances;
      this.isLoading := isLoading;
      this.error := error;
      isEditModalOpen := false;
      selectedAttendance := None;
    }

    /** The parent re-renders the dialog with new props. */
    method Rerender(attendances: seq<Attendance>, isLoading: bool, error: Option<string>)
      modifies this`attendances, this`isLoading, this`error
      ensures this.attendances == attendances && this.isLoading == isLoading && this.error == error
    {
      this.attendances := attendances;
      this.isLoading := isLoading;
      this.error := error;
    }

    method OpenEditModal(attendance: Attendance)
      requires Valid()
      modifies this`selectedAttendance, this`isEditModalOpen
      ensures Valid() && selectedAttendance == Some(attendance) && isEditModalOpen
    {
      selectedAttendance := Some(attendance);
      isEditModalOpen := true;
    }

    method CloseEditModal()
      requires Valid()
      modifies this`selectedAttendance, this`isEditModalOpen
      ensures Valid() && selectedAttendance == None && !isEditModalOpen
    {
      selectedAttendance := None;
      isEditModalOpen := false;
    }

    /** `handleUpdateAttendance` is empty: an update reported by the editor changes nothing here. */
    method HandleUpdateAttendance(updated: AttendanceUpdateResponse)
      ensures unchanged(this)
    {
    }

    /**
     * The status editor's props: the selected record's id and status. There is
     * an editor only while the edit dialog is open.
     */
    function Editor(): (r: Option<AttendanceUpdateResponse>)
      reads this
      requires Valid()
      ensures r.Some? <==> isEditModalOpen
      ensures r.Some? ==> r.value.attendance_id == selectedAttendance.value.attendanceid &&
                          r.value.status == selectedAttendance.value.status
    {
      match selectedAttendance
      case None => None
      case Some(a) => Some(EditorProps(a))
    }

    /** While loading, dismissing the dialog is ignored and its Close button is disabled. */
    function CloseRequestedBy(control: CloseControl): (r: bool)
      reads this
      ensures r <==> !isLoading
    {
      match control
      case Dismiss => !isLoading
      case CloseButton => !isLoading
    }
  }
}
