/**
 * What a component does outside its own state: the callbacks its parent passed
 * in, and the refetches it starts. A handler returns them, in the order it
 * performs them; a refetch itself completes later, as a separate transition
 * of the component that owns the list.
 */
module Callbacks {
  import opened Wrappers
  import opened Types

  datatype Effect =
    | RefetchStudents                                  // GET /api/students, then setStudents
    | StudentAdded(added: Student)                     // onAddStudent
    | StudentUpdated(updated: Student)                 // onUpdateStudent
    | ResetForm                                        // the form library's reset()
    | RequestClose                                     // onRequestClose
    | GradeUpdated(grade: Option<GradeUpdateResponse>) // onGradeUpdated(result.data)
    | RefetchLessons                                   // GET /api/grade, then setSelectedStudentLessons
    | AttendanceUpdated(change: Option<AttendanceUpdateResponse>) // onUpdateAttendance(result.result)
    | RefetchAttendances                               // GET /api/attendance, then setSelectedStudentAttendances

  /** The two ways a dialog can be asked to close: dismissing it (Escape, outside click) or its button. */
  datatype CloseControl = Dismiss | CloseButton
}
