/**
 * The state of the student table page and its handlers: the initial load, the
 * search effect, the add and update reconciliations, the refetches started by
 * the dialogs, and the open/close handlers of the edit, lessons and attendance
 * dialogs with their loading and error flags.
 */
module StudentTablePage {
  import opened Wrappers
  import opened Types
  import opened Fetch
  import opened StudentList

  const LoadInvalidText := "Invalid data format received from API."
  const LoadFallbackText := "Failed to fetch student data."
  const AttendancesInvalidText := "Failed to fetch attendance records. Please try again."
  const AttendancesFallbackText := "Failed to fetch attendance records."
  const LessonsInvalidText := "Failed to fetch lessons. Please try again."
  const LessonsFallbackText := "Failed to fetch lessons."

  /** The outcome of the initial `GET /api/students`; a non-ok response's body is not read. */
  function LoadResult(reply: Reply<ApiResponse<seq<Nested<Student>>>>): (r: Result<seq<Student>, string>)
    ensures r.Ok? <==> Delivered(reply)
    ensures r.Ok? ==> r.value == Flatten(reply.body.data.value) && |r.value| == TotalSize(reply.body.data.value)
    ensures r.Err? ==> r.error != ""
    ensures reply.Received? && !reply.ok ==> r == Err(HttpErrorText(reply.status))
  {
    FlattenLength(if Delivered(reply) then reply.body.data.value else []);
    ListResult(reply, false, LoadInvalidText, LoadFallbackText)
  }

  /** The outcome of `GET /api/attendance?student_id=`, reading the error body's message. */
  function AttendancesResult(reply: Reply<ApiResponse<seq<Nested<Attendance>>>>): (r: Result<seq<Attendance>, string>)
    ensures r.Ok? <==> Delivered(reply)
    ensures r.Ok? ==> r.value == Flatten(reply.body.data.value)
    ensures r.Err? ==> r.error != ""
  {
    ListResult(reply, true, AttendancesInvalidText, AttendancesFallbackText)
  }

  /** The outcome of `GET /api/grade?student_id=`, reading the error body's message. */
  function LessonsResult(reply: Reply<ApiResponse<seq<Nested<Lesson>>>>): (r: Result<seq<Lesson>, string>)
    ensures r.Ok? <==> Delivered(reply)
    ensures r.Ok? ==> r.value == Flatten(reply.body.data.value)
    ensures r.Err? ==> r.error != ""
  {
    ListResult(reply, true, LessonsInvalidText, LessonsFallbackText)
  }

  /** What the page renders. */
  datatype Page = LoadingScreen | ErrorScreen(message: string) | StudentRows(rows: seq<Student>) | NoStudents

  /** The four dialogs the page can show. */
  datatype Dialog = AddDialog | EditDialog | LessonsDialog | AttendanceDialog

  class StudentTable {
    var students: seq<Student>
    var filteredStudents: seq<Student>
    var loading: bool
    var error: Option<string>
    var isAddModalOpen: bool
    var isEditModalOpen: bool
    var selectedStudent: Option<Student>
    var isLessonsModalOpen: bool
    var selectedStudentLessons: seq<Lesson>
    var selectedStudentAttendances: seq<Attendance>
    var isAttendanceModalOpen: bool
    var isFetchingAttendances: bool
    var attendancesError: Option<string>
    var isFetchingLessons: bool
    var lessonsError: Option<string>
    var searchQuery: string

    /** The state on mount: empty lists, loading, nothing open or selected. */
    constructor ()
      ensures students == [] && filteredStudents == [] && loading && error == None
      ensures !isAddModalOpen && !isEditModalOpen && !isLessonsModalOpen && !isAttendanceModalOpen
      ensures selectedStudent == None && selectedStudentLessons == [] && selectedStudentAttendances == []
      ensures !isFetchingAttendances && attendancesError == None
      ensures !isFetchingLessons && lessonsError == None
      ensures searchQuery == ""
    {
      students, filteredStudents := [], [];
      loading, error := true, None;
      isAddModalOpen, isEditModalOpen := false, false;
      selectedStudent := None;
      isLessonsModalOpen, isAttendanceModalOpen := false, false;
      selectedStudentLessons, selectedStudentAttendances := [], [];
      isFetchingAttendances, attendancesError := false, None;
      isFetchingLessons, lessonsError := false, None;
      searchQuery := "";
    }

    /**
     * The mount effect's request settles: on success both lists become the
     * flattened payload, otherwise the error is set and the lists are kept.
     * Loading ends either way.
     */
    method FinishLoad(reply: Reply<ApiResponse<seq<Nested<Student>>>>)
      modifies this`students, this`filteredStudents, this`error, this`loading
      ensures !loading
      ensures Delivered(reply) ==>
                students == Flatten(reply.body.data.value) && filteredStudents == students && error == old(error)
      ensures !Delivered(reply) ==>
                error == Some(LoadResult(reply).error) && error.value != "" &&
                students == old(students) && filteredStudents == old(filteredStudents)
    {
      match LoadResult(reply) {
        case Ok(fetched) =>
          students := fetched;
          filteredStudents := fetched;
        case Err(message) =>
          error := Some(message);
      }
      loading := false;
    }

    /** The consistency the search effect restores after every change of the list or the query. */
    predicate FilterSynced()
      reads this
    {
      filteredStudents == Filter(students, searchQuery)
    }

    /** The search effect: the view becomes the filter of the list for the current query. */
    method SyncFilter()
      modifies this`filteredStudents
      ensures FilterSynced()
      ensures forall x :: x in filteredStudents <==> x in students && Shown(x, searchQuery)
      ensures IsSubsequence(filteredStudents, students)
    {
      filteredStudents := Filter(students, searchQuery);
      forall x ensures x in filteredStudents <==> x in students && Shown(x, searchQuery) {
        FilterSpec(students, searchQuery, x);
      }
      if students != [] {
        FilterSpec(students, searchQuery, students[0]);
      } else {
        SubsequenceReflexive(students);
      }
    }

    /** Typing in the search box. */
    method SetSearchQuery(query: string)
      modifies this`searchQuery
      ensures searchQuery == query
    {
      searchQuery := query;
    }

    method OpenAddModal()
      modifies this`isAddModalOpen
      ensures isAddModalOpen
    {
      isAddModalOpen := true;
    }

    method CloseAddModal()
      modifies this`isAddModalOpen
      ensures !isAddModalOpen
    {
      isAddModalOpen := false;
    }

    method OpenEditModal(student: Student)
      modifies this`selectedStudent, this`isEditModalOpen
      ensures selectedStudent == Some(student) && isEditModalOpen
      ensures PageReady() ==> EditDialog in OpenDialogs()
    {
      selectedStudent := Some(student);
      isEditModalOpen := true;
    }

    method CloseEditModal()
      modifies this`selectedStudent, this`isEditModalOpen
      ensures selectedStudent == None && !isEditModalOpen
      ensures OpenDialogs() <= {AddDialog}
    {
      selectedStudent := None;
      isEditModalOpen := false;
    }

    /** The synchronous part of opening the attendance dialog, up to the request. */
    method BeginAttendanceFetch(student: Student)
      modifies this`selectedStudent, this`isFetchingAttendances, this`attendancesError, this`isAttendanceModalOpen
      ensures selectedStudent == Some(student) && isFetchingAttendances && attendancesError == None
      ensures isAttendanceModalOpen && (PageReady() ==> AttendanceDialog in OpenDialogs())
    {
      selectedStudent := Some(student);
      isFetchingAttendances := true;
      attendancesError := None;
      isAttendanceModalOpen := true;
    }

    /** The attendance request settles; fetching ends whatever the outcome. */
    method FinishAttendanceFetch(reply: Reply<ApiResponse<seq<Nested<Attendance>>>>)
      modifies this`selectedStudentAttendances, this`attendancesError, this`isFetchingAttendances
      ensures !isFetchingAttendances
      ensures Delivered(reply) ==>
                selectedStudentAttendances == Flatten(reply.body.data.value) && attendancesError == old(attendancesError)
      ensures !Delivered(reply) ==>
                attendancesError == Some(AttendancesResult(reply).error) && attendancesError.value != "" &&
                selectedStudentAttendances == old(selectedStudentAttendances)
    {
      match AttendancesResult(reply) {
        case Ok(records) =>
          selectedStudentAttendances := records;
        case Err(message) =>
          attendancesError := Some(message);
      }
      isFetchingAttendances := false;
    }

    method CloseAttendanceModal()
      modifies this`isAttendanceModalOpen, this`selectedStudent, this`selectedStudentAttendances
      ensures !isAttendanceModalOpen && selectedStudent == None && selectedStudentAttendances == []
      ensures OpenDialogs() <= {AddDialog}
    {
      isAttendanceModalOpen := false;
      selectedStudent := None;
      selectedStudentAttendances := [];
    }

    /** The synchronous part of opening the lessons dialog, up to the request. */
    method BeginLessonsFetch(student: Student)
      modifies this`selectedStudent, this`isFetchingLessons, this`lessonsError, this`isLessonsModalOpen
      ensures selectedStudent == Some(student) && isFetchingLessons && lessonsError == None
      ensures isLessonsModalOpen && (PageReady() ==> LessonsDialog in OpenDialogs())
    {
      selectedStudent := Some(student);
      isFetchingLessons := true;
      lessonsError := None;
      isLessonsModalOpen := true;
    }

    /** The lessons request settles; fetching ends whatever the outcome. */
    method FinishLessonsFetch(reply: Reply<ApiResponse<seq<Nested<Lesson>>>>)
      modifies this`selectedStudentLessons, this`lessonsError, this`isFetchingLessons
      ensures !isFetchingLessons
      ensures Delivered(reply) ==>
                selectedStudentLessons == Flatten(reply.body.data.value) && lessonsError == old(lessonsError)
      ensures !Delivered(reply) ==>
                lessonsError == Some(LessonsResult(reply).error) && lessonsError.value != "" &&
                selectedStudentLessons == old(selectedStudentLessons)
    {
      match LessonsResult(reply) {
        case Ok(lessons) =>
          selectedStudentLessons := lessons;
        case Err(message) =>
          lessonsError := Some(message);
      }
      isFetchingLessons := false;
    }

    method CloseLessonsModal()
      modifies this`isLessonsModalOpen, this`selectedStudent, this`selectedStudentLessons
      ensures !isLessonsModalOpen && selectedStudent == None && selectedStudentLessons == []
      ensures OpenDialogs() <= {AddDialog}
    {
      isLessonsModalOpen := false;
      selectedStudent := None;
      selectedStudentLessons := [];
    }

    /**
     * `onAddStudent`: the created student is appended to the list and to the
     * view alike. The view then agrees with the filter exactly when the new
     * student is shown for the query; the search effect settles it after.
     */
    method HandleAddStudent(added: Student)
      modifies this`students, this`filteredStudents
      ensures students == Append(old(students), added)
      ensures filteredStudents == Append(old(filteredStudents), added)
      ensures old(FilterSynced()) ==> (FilterSynced() <==> Shown(added, searchQuery))
    {
      AppendAgreesWithFilter(students, searchQuery, added);
      students := Append(students, added);
      filteredStudents := Append(filteredStudents, added);
    }

    /**
     * `onUpdateStudent`: every row with the updated `sid`, in the list and in
     * the view, becomes the updated record. If that keeps every such row on the
     * same side of the filter, the view still agrees with the filter.
     */
    method HandleUpdateStudent(updated: Student)
      modifies this`students, this`filteredStudents
      ensures students == ReplaceBySid(old(students), updated)
      ensures filteredStudents == ReplaceBySid(old(filteredStudents), updated)
      ensures old(FilterSynced()) &&
              (forall i :: 0 <= i < |old(students)| && old(students)[i].sid == updated.sid ==>
                (Matches(old(students)[i], searchQuery) <==> Matches(updated, searchQuery)))
              ==> FilterSynced()
    {
      if forall i :: 0 <= i < |students| && students[i].sid == updated.sid ==>
           (Matches(students[i], searchQuery) <==> Matches(updated, searchQuery)) {
        ReplaceAgreesWithFilter(students, searchQuery, updated);
      }
      students := ReplaceBySid(students, updated);
      filteredStudents := ReplaceBySid(filteredStudents, updated);
    }

    /** `setStudents` from a dialog's refetch: replaced on success, kept otherwise. */
    method ApplyStudentsRefetch(reply: Reply<ApiResponse<seq<Nested<Student>>>>)
      modifies this`students
      ensures students == Refetched(old(students), reply)
    {
      students := Refetched(students, reply);
    }

    /** `setSelectedStudentLessons` from the grade dialog's refetch. */
    method ApplyLessonsRefetch(reply: Reply<ApiResponse<seq<Nested<Lesson>>>>)
      modifies this`selectedStudentLessons
      ensures selectedStudentLessons == Refetched(old(selectedStudentLessons), reply)
    {
      selectedStudentLessons := Refetched(selectedStudentLessons, reply);
    }

    /** `setSelectedStudentAttendances` from the attendance dialog's refetch. */
    method ApplyAttendancesRefetch(reply: Reply<ApiResponse<seq<Nested<Attendance>>>>)
      modifies this`selectedStudentAttendances
      ensures selectedStudentAttendances == Refetched(old(selectedStudentAttendances), reply)
    {
      selectedStudentAttendances := Refetched(selectedStudentAttendances, reply);
    }

    /** The `onGradeUpdated` handed to the lessons dialog does nothing. */
    method OnGradeUpdated(updatedLesson: Lesson)
      ensures unchanged(this)
    {
    }

    /** Past the spinner and the error page: only then are the table and its dialogs rendered. */
    predicate PageReady()
      reads this
    {
      !loading && (error.None? || error.value == "")
    }

    /**
     * The dialogs on screen. None is rendered before the page is ready. The
     * create dialog is then always mounted and shows while it is open; the edit,
     * lessons and attendance dialogs are mounted only while a student is
     * selected, so clearing the selection hides all three.
     */
    function OpenDialogs(): (r: set<Dialog>)
      reads this
      ensures AddDialog in r <==> PageReady() && isAddModalOpen
      ensures EditDialog in r <==> PageReady() && selectedStudent.Some? && isEditModalOpen
      ensures LessonsDialog in r <==> PageReady() && selectedStudent.Some? && isLessonsModalOpen
      ensures AttendanceDialog in r <==> PageReady() && selectedStudent.Some? && isAttendanceModalOpen
    {
      if !PageReady() then {} else
      (if isAddModalOpen then {AddDialog} else {}) +
      (if selectedStudent.None? then {}
       else (if isEditModalOpen then {EditDialog} else {}) +
            (if isLessonsModalOpen then {LessonsDialog} else {}) +
            (if isAttendanceModalOpen then {AttendanceDialog} else {}))
    }

    /** The page: the spinner while loading, then a non-empty error, then the rows, then the empty message. */
    function CurrentPage(): (p: Page)
      reads this
      ensures p == LoadingScreen <==> loading
      ensures p.ErrorScreen? <==> !loading && error.Some? && error.value != ""
      ensures p.ErrorScreen? ==> p.message == error.value
      ensures p.StudentRows? <==> !loading && (error.None? || error.value == "") && filteredStudents != []
      ensures p.StudentRows? ==> p.rows == filteredStudents
    {
      if loading then LoadingScreen
      else if error.Some? && error.value != "" then ErrorScreen(error.value)
      else if filteredStudents != [] then StudentRows(filteredStudents)
      else NoStudents
    }
  }
}
