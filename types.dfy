/**
 * The records exchanged with the student API: students, lessons (grade records),
 * attendance records, the response envelope and the grade and attendance
 * update messages. Grades and attendance statuses are closed enumerations.
 */
module Types {
  import opened Wrappers

  /** A letter grade: exactly one of A, B, C, D and F. */
  datatype Grade = A | B | C | D | F

  /** An attendance status: exactly one of Absent, Late and Present. */
  datatype AttendanceStatus = Absent | Late | Present

  /** A student; `sid` is the numeric identity key, the other fields are text. */
  datatype Student = Student(sid: int, firstname: string, lastname: string, phone: string)

  /** One lesson of a student together with the grade obtained in it. */
  datatype Lesson = Lesson(gradeid: int, grade: Grade, coursename: string)

  /** One attendance record; the date is kept as the ISO string the API sends. */
  datatype Attendance = Attendance(
    attendanceid: int,
    attendancedate: string,
    status: AttendanceStatus,
    coursename: string,
    weekday: string,
    roomnumber: string)

  /**
   * The envelope of every API response. `data` is `None` when the field is
   * missing or is not of the expected shape (falsy, or not an array where an
   * array is expected).
   */
  datatype ApiResponse<T> = ApiResponse(success: bool, data: Option<T>, message: string)

  /** The body of a grade update: which grade record, and its new letter. */
  datatype GradeUpdateRequest = GradeUpdateRequest(grade_id: int, grade: Grade)

  /** The server answers a grade update with a record of the same shape as the request. */
  type GradeUpdateResponse = GradeUpdateRequest

  /** An attendance record's id with a status, as the server returns after an update. */
  datatype AttendanceUpdateResponse = AttendanceUpdateResponse(attendance_id: int, status: AttendanceStatus)

  /** The text the API and the grade selector use for a grade. */
  function GradeName(g: Grade): string
  {
    match g
    case A => "A"
    case B => "B"
    case C => "C"
    case D => "D"
    case F => "F"
  }

  /** Reads a grade from its text; every other text is not a grade. */
  function ParseGrade(s: string): (r: Option<Grade>)
    ensures r.Some? ==> GradeName(r.value) == s
    ensures r.None? ==> s !in {"A", "B", "C", "D", "F"}
  {
    if s == "A" then Some(A)
    else if s == "B" then Some(B)
    else if s == "C" then Some(C)
    else if s == "D" then Some(D)
    else if s == "F" then Some(F)
    else None
  }

  /** Every grade is written as one of five texts and read back as itself. */
  lemma GradeRoundTrip(g: Grade)
    ensures GradeName(g) in {"A", "B", "C", "D", "F"}
    ensures ParseGrade(GradeName(g)) == Some(g)
  {
    match g
    case A =>
    case B =>
    case C =>
    case D =>
    case F =>
  }

  /** The text the API and the status selector use for a status. */
  function StatusName(s: AttendanceStatus): string
  {
    match s
    case Absent => "Absent"
    case Late => "Late"
    case Present => "Present"
  }

  /** Reads a status from its text; every other text is not a status. */
  function ParseStatus(s: string): (r: Option<AttendanceStatus>)
    ensures r.Some? ==> StatusName(r.value) == s
    ensures r.None? ==> s !in {"Absent", "Late", "Present"}
  {
    if s == "Absent" then Some(Absent)
    else if s == "Late" then Some(Late)
    else if s == "Present" then Some(Present)
    else None
  }

  /** Every status is written as one of three texts and read back as itself. */
  lemma StatusRoundTrip(s: AttendanceStatus)
    ensures StatusName(s) in {"Absent", "Late", "Present"}
    ensures ParseStatus(StatusName(s)) == Some(s)
  {
    match s
    case Absent =>
    case Late =>
    case Present =>
  }
}
