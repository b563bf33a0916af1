# Student administration UI: a Dafny model of its client-side state

The repository is a React page that lists students and lets an administrator
search them, create and edit them, and look at and change their lesson grades
and attendance records. All data lives behind a REST API. This project
models the deterministic layer between the rendering and the network:

- the student table's state, with its canonical `students` list and the derived
  `filteredStudents` view, the search filter, the add and update
  reconciliations, the initial load, and the open/close handlers of the three
  per-student dialogs with their loading and error flags;
- the create and edit student forms: the field rules (names required, phone
  matching `^[0-9]{7,15}$`) and the submit machine (`isSubmitting`,
  `submitError`, the close request);
- the nested grade and attendance editors, each with its own submit machine,
  its ordering of callback, refetch and close, and its closed set of options;
- the lessons and attendance dialogs: the selection of the edited record, the
  grade reconciliation `handleGradeUpdated`, the close guards, and what each
  dialog shows.

Every request is replaced by an input, `Fetch.Reply`. A reply either throws
with a message (network or JSON failure) or arrives with its `ok` flag, its
status code and its parsed body. A handler that awaits a request becomes two
transitions. `Begin…` is the synchronous part before the `await`. `Finish…`
takes the reply. A handler returns the calls it makes outside its component
(`Callbacks.Effect`: the parent's callbacks, the form reset and the refetches
it starts) as a sequence, in the order it makes them. When a refetch
completes, that is a separate transition of `StudentTablePage.StudentTable`
(`ApplyStudentsRefetch`, `ApplyLessonsRefetch`, `ApplyAttendancesRefetch`).
The React effect that recomputes the view is `SyncFilter`. One file per
source file, plus `text.dfy` (the JavaScript string operations used),
`fetch.dfy` (replies, `flat()`, the shared try/catch decision),
`callbacks.dfy`, `student_list.dfy` (the pure list operations of the table),
`student_form.dfy` (the field rules shared by both student forms) and
`wrappers.dfy`.

Behaviour of the code worth noting:

- The create and edit student dialogs can still be dismissed while a
  submission is in flight. Only their Cancel and submit buttons are disabled.
  Their `Dialog` `onClose` is not guarded.
- The grade and attendance editors do not keep or show an error on failure.
  They swallow it and stay open.
- Case-insensitive search lowers the query but does not trim it. Trimming
  only decides whether the query is blank.
- The table keeps a lessons error but never passes it to the lessons dialog.
  After a failed lessons fetch that dialog shows the lessons it already had,
  or its empty message, and never an error.
- Closing any of the edit, lessons or attendance dialogs clears the selected
  student, and that unmounts all three.

## Model

| member | source | states |
|---|---|---|
| Types.GradeName | app/types/types.ts:18 | (definition) the text of each grade, as the API and the selector write it |
| Types.ParseGrade | app/types/types.ts:18 | reading a grade accepts exactly the five texts A, B, C, D, F and gives back the grade written that way |
| Types.GradeRoundTrip | app/types/types.ts:18 | every grade is written as one of the five texts and reads back as itself |
| Types.StatusName | app/types/types.ts:25 | (definition) the text of each status, as the API and the selector write it |
| Types.ParseStatus | app/types/types.ts:25 | reading a status accepts exactly Absent, Late, Present |
| Types.StatusRoundTrip | app/types/types.ts:25 | every status is written as one of the three texts and reads back as itself |
| Text.LowerChar | app/StudentTable.tsx:83-87 | an ASCII capital becomes the lower-case letter 32 code points above it, and every other character is left alone |
| Text.Lower | app/StudentTable.tsx:83-87 | lowering keeps the length and lowers each character |
| Text.LowerIdempotent | app/StudentTable.tsx:83-87 | lowering twice is lowering once; a string without capitals is unchanged |
| Text.Includes | app/StudentTable.tsx:86-88 | (definition) `includes`: the query is a prefix of the text or of one of its suffixes; `IncludesIff` characterises it |
| Text.IncludesIff | app/StudentTable.tsx:86-88 | the left-to-right `includes` search succeeds exactly when the query occurs at some index |
| Text.TrimStart | app/StudentTable.tsx:80 | only whitespace is removed, from the front: the result is a suffix of the input, empty or starting with a non-space, and empty exactly for an all-whitespace input |
| Text.TrimEnd | app/StudentTable.tsx:80 | only whitespace is removed, from the back: the result is a prefix of the input, empty or ending with a non-space, and empty exactly for an all-whitespace input |
| Text.Trim | app/StudentTable.tsx:80 | (definition) `trim()`: leading and then trailing whitespace removed |
| Text.IsBlank | app/StudentTable.tsx:80 | (definition) `trim() === ""`; `BlankIff` characterises it |
| Text.BlankIff | app/StudentTable.tsx:80 | `query.trim() === ""` holds exactly when every character is JavaScript whitespace |
| Text.NatToDecimal | app/StudentTable.tsx:88 | a natural number's numeral is non-empty, all digits, with no leading zero |
| Text.DecimalRoundTrip | app/StudentTable.tsx:88 | reading back the numeral of `n` gives `n` |
| Text.IntToDecimal | app/StudentTable.tsx:88 | (definition) `sid.toString()` for an integer: the numeral, with a minus sign for a negative number |
| Text.LowerDecimal | app/StudentTable.tsx:83-88 | lowering a `sid`'s decimal text changes nothing |
| Fetch.Flatten | app/StudentTable.tsx:63 | (definition) `flat()` to depth one: bare items kept, inner arrays spliced in; the Flatten lemmas characterise it |
| Fetch.FlattenLength | app/StudentTable.tsx:62-65 | the flattened list's length is the sum of the inner lengths |
| Fetch.FlattenAppend | app/StudentTable.tsx:63 | flattening distributes over concatenation of the outer list |
| Fetch.FlattenMembership | app/StudentTable.tsx:63 | a record is in the flattened list exactly when it is in one of the inner lists |
| Fetch.FlattenOfItems | app/StudentTable.tsx:170-173 | a payload without nested arrays, such as the lessons list, flattens to its own records in order |
| Fetch.OrElse | app/components/AddStudentModal.tsx:66 | `a || b` on strings picks `a` when it is non-empty and `b` otherwise, so it is non-empty when either operand is |
| Fetch.HttpErrorText | app/StudentTable.tsx:57 | the status error message is never empty |
| Fetch.Delivered | app/StudentTable.tsx:56-65 | (definition) the request succeeds: a response that is ok, whose body reports `success` and carries data |
| Fetch.EnvelopeResult | app/components/AddStudentModal.tsx:39-66 | the request succeeds exactly when the response is ok, `success` is true and data is present, yielding that data; otherwise the message is non-empty and is the thrown message, the body's message or the status text, or the invalid-data text, depending on where it failed |
| Fetch.ListResult | app/StudentTable.tsx:118-140 | a list request succeeds under the same condition, and yields the one-level flattening of the payload |
| Fetch.Refetched | app/components/AddStudentModal.tsx:71-93 | a silent refetch yields the flattened payload on success and leaves the current list otherwise |
| StudentList.Matches | app/StudentTable.tsx:83-89 | (definition) the lowered query occurs in the lowered first name, the lowered last name or the `sid` text |
| StudentList.Shown | app/StudentTable.tsx:80-89 | (definition) a student is listed when the query is blank or the student matches it |
| StudentList.Filter | app/StudentTable.tsx:79-92 | (definition) the view: the whole list for a blank query, otherwise the matching students; `FilterSpec` characterises it |
| StudentList.Select | app/StudentTable.tsx:84-89 | the filter result is never longer than the list |
| StudentList.FilterBlank | app/StudentTable.tsx:80-81 | a whitespace-only query shows the whole list |
| StudentList.SelectCount | app/StudentTable.tsx:84-89 | the filter keeps every occurrence of a matching student and none of the others |
| StudentList.SelectSubsequence | app/StudentTable.tsx:84-89 | the filter keeps the order of the list |
| StudentList.FilterSpec | app/StudentTable.tsx:79-92 | the view is the order-preserving subsequence of exactly the shown students, with their multiplicities |
| StudentList.SelectAppend | app/StudentTable.tsx:84-89 | filtering a list extended at the end gives the old filter result, followed by the new student if it matches |
| StudentList.AppendAgreesWithFilter | app/StudentTable.tsx:190-193 | appending to the view directly agrees with re-filtering exactly when the new student is shown for the query |
| StudentList.FindsBySid | app/StudentTable.tsx:88 | searching for a student's exact `sid` finds that student |
| StudentList.FindsByFirstName | app/StudentTable.tsx:86 | searching for a first name in any ASCII capitalisation finds the student |
| StudentList.Append | app/StudentTable.tsx:191 | adding grows the list by one at the end and leaves the earlier rows unchanged and in order |
| StudentList.AppendNewSid | app/StudentTable.tsx:190-193 | adding a student with a new `sid` keeps keys unique, and the student appears exactly once |
| StudentList.ReplaceBySid | app/StudentTable.tsx:196-205 | (definition) `map` putting the update in every row with its `sid`; `ReplaceBySidSpec` characterises it |
| StudentList.ReplaceBySidSpec | app/StudentTable.tsx:196-205 | an update keeps the length and the keys in place, puts the record in every row with its `sid`, leaves the other rows, and puts the record in the list exactly when its `sid` was there |
| StudentList.ReplaceWithoutMatch | app/StudentTable.tsx:196-200 | an update whose `sid` is not in the list leaves it unchanged |
| StudentList.ReplaceKeepsUniqueSids | app/StudentTable.tsx:196-205 | an update never introduces a duplicate key |
| StudentList.ReplaceIdempotent | app/StudentTable.tsx:196-205 | applying the same update twice is applying it once |
| StudentList.SelectReplace | app/StudentTable.tsx:196-205 | replacing within the matching rows agrees with selecting from the updated list when the update keeps each changed row on the same side of the search |
| StudentList.ReplaceAgreesWithFilter | app/StudentTable.tsx:195-206 | updating the view directly agrees with re-filtering when no matching row changes sides of the filter |
| StudentTablePage.LoadResult | app/StudentTable.tsx:52-73 | the initial load succeeds exactly when the envelope delivers data; the list is the flattening, with the summed length; a non-ok response fails with the status text whatever its body; every failure has a non-empty message |
| StudentTablePage.AttendancesResult | app/StudentTable.tsx:118-143 | the attendance fetch succeeds exactly when data is delivered, giving the flattening; a failure has a non-empty message |
| StudentTablePage.LessonsResult | app/StudentTable.tsx:158-181 | the lessons fetch succeeds exactly when data is delivered, giving the flattening; a failure has a non-empty message |
| StudentTablePage.StudentTable.constructor | app/StudentTable.tsx:26-49 | the page mounts with empty lists, loading, no error and nothing open or selected |
| StudentTablePage.StudentTable.FinishLoad | app/StudentTable.tsx:52-73 | on success both lists become the flattened payload; on failure the error is set and the lists are kept; loading is false afterwards |
| StudentTablePage.StudentTable.FilterSynced | app/StudentTable.tsx:79-92 | (definition) the view is the filter of the list for the current query, as the search effect makes it |
| StudentTablePage.StudentTable.SyncFilter | app/StudentTable.tsx:79-92 | the search effect re-establishes that the view is the filter of the list for the query |
| StudentTablePage.StudentTable.SetSearchQuery | app/StudentTable.tsx:273 | typing sets the query and nothing else |
| StudentTablePage.StudentTable.OpenAddModal | app/StudentTable.tsx:94-96 | the create dialog opens |
| StudentTablePage.StudentTable.CloseAddModal | app/StudentTable.tsx:98-100 | the create dialog closes |
| StudentTablePage.StudentTable.OpenEditModal | app/StudentTable.tsx:102-105 | the student is selected and the edit dialog opens, and it is on screen once the page is ready |
| StudentTablePage.StudentTable.CloseEditModal | app/StudentTable.tsx:107-110 | the selection is cleared and the edit dialog closes; no per-student dialog stays on screen |
| StudentTablePage.StudentTable.BeginAttendanceFetch | app/StudentTable.tsx:112-116 | opening attendance selects the student, sets fetching, clears the error, and puts the attendance dialog on screen once the page is ready |
| StudentTablePage.StudentTable.FinishAttendanceFetch | app/StudentTable.tsx:118-143 | the records are set on success, the error otherwise; fetching is false whatever the outcome |
| StudentTablePage.StudentTable.CloseAttendanceModal | app/StudentTable.tsx:146-150 | closing clears the selection and empties the attendance list; no per-student dialog stays on screen |
| StudentTablePage.StudentTable.BeginLessonsFetch | app/StudentTable.tsx:152-156 | opening lessons selects the student, sets fetching, clears the error, and puts the lessons dialog on screen once the page is ready |
| StudentTablePage.StudentTable.FinishLessonsFetch | app/StudentTable.tsx:158-181 | the lessons are set on success, the error otherwise; fetching is false whatever the outcome |
| StudentTablePage.StudentTable.CloseLessonsModal | app/StudentTable.tsx:184-188 | closing clears the selection and empties the lessons list; no per-student dialog stays on screen |
| StudentTablePage.StudentTable.HandleAddStudent | app/StudentTable.tsx:190-193 | the student is appended to the list and to the view; a synced view stays synced exactly when the student is shown |
| StudentTablePage.StudentTable.HandleUpdateStudent | app/StudentTable.tsx:195-206 | rows with the `sid` are replaced in the list and in the view; a synced view stays synced when no row changes sides of the filter |
| StudentTablePage.StudentTable.ApplyStudentsRefetch | app/components/AddStudentModal.tsx:81-92 | a dialog's student refetch replaces the list on success and keeps it otherwise |
| StudentTablePage.StudentTable.ApplyLessonsRefetch | app/components/EditLessonGradeModal.tsx:85-92 | the grade editor's refetch replaces the lessons on success and keeps them otherwise |
| StudentTablePage.StudentTable.ApplyAttendancesRefetch | app/components/EditAttendanceModal.tsx:94-103 | the attendance editor's refetch replaces the records on success and keeps them otherwise |
| StudentTablePage.StudentTable.OnGradeUpdated | app/StudentTable.tsx:395-397 | the grade callback given to the lessons dialog changes nothing |
| StudentTablePage.StudentTable.PageReady | app/StudentTable.tsx:208-251 | (definition) the page is past loading and has no non-empty error, the only state in which the table and the dialogs are rendered |
| StudentTablePage.StudentTable.OpenDialogs | app/StudentTable.tsx:208-413 | no dialog shows before the page is past the spinner and the error page; the create dialog then shows exactly while it is open, and each per-student dialog exactly while a student is selected and its flag is set |
| StudentTablePage.StudentTable.CurrentPage | app/StudentTable.tsx:208-363 | the page shows the spinner while loading, then a non-empty error, then the rows of the view, then the empty message |
| StudentForm.ValidPhone | app/components/AddStudentModal.tsx:191 | (definition) seven to fifteen characters, all ASCII digits |
| StudentForm.MatchesPhonePattern | app/components/AddStudentModal.tsx:191 | (definition) the anchored pattern `^[0-9]{7,15}$`, run as a left-to-right matcher |
| StudentForm.PhonePatternIff | app/components/AddStudentModal.tsx:188-193 | the anchored pattern accepts exactly strings of seven to fifteen ASCII digits |
| StudentForm.PhoneAutomatonIff | app/components/AddStudentModal.tsx:191 | after `count` digits, the matcher accepts the rest exactly when all of it is digits and the total is seven to fifteen |
| StudentForm.PhoneError | app/components/AddStudentModal.tsx:188-193 | (definition) the phone rules in order: `required` on the empty text, then the pattern |
| StudentForm.Validate | app/components/AddStudentModal.tsx:140-193 | the form passes exactly when both names are non-empty and the phone is valid; each failing field carries its first failing rule's message |
| StudentForm.RejectsNonDigit | app/components/AddStudentModal.tsx:190-192 | a phone with a non-digit is refused with the pattern's message, whatever the names |
| AddStudent.FormErrors | app/components/AddStudentModal.tsx:140-193 | the create form passes exactly when both names are non-empty and the phone is 7 to 15 digits |
| AddStudent.AddResult | app/components/AddStudentModal.tsx:39-66 | creation succeeds exactly when the response is ok, `success` is true and data is present; otherwise the message is non-empty |
| AddStudent.AddStudentModal.constructor | app/components/AddStudentModal.tsx:26-33 | the dialog mounts with an empty form, not submitting, no error |
| AddStudent.AddStudentModal.EditForm | app/components/AddStudentModal.tsx:137-198 | typing sets the form's values |
| AddStudent.AddStudentModal.HandleSubmit | app/components/AddStudentModal.tsx:35-37 | nothing is sent unless the rules pass; otherwise the form is sent, submitting is set and the error cleared |
| AddStudent.AddStudentModal.FinishSubmit | app/components/AddStudentModal.tsx:39-69 | success gives: refetch, `onAddStudent` with the record, reset, close, in that order; failure shows a non-empty error and requests nothing; submitting ends on every path |
| AddStudent.AddStudentModal.CloseRequestedBy | app/components/AddStudentModal.tsx:213-219 | Cancel is disabled while submitting, while dismissing the dialog always requests close |
| AddStudent.AddStudentModal.SubmitEnabled | app/components/AddStudentModal.tsx:221-226 | the submit button is disabled exactly while submitting |
| EditStudent.FormFor | app/components/EditStudentModal.tsx:35-40 | the form's values are the student's `sid`, names and phone |
| EditStudent.FormErrors | app/components/EditStudentModal.tsx:178-234 | the edit form passes under the same rules as the create form |
| EditStudent.SeededFormValid | app/components/EditStudentModal.tsx:35-40 | a form seeded from a student passes exactly when that student's data satisfies the rules |
| EditStudent.UpdateResult | app/components/EditStudentModal.tsx:49-76 | the update succeeds exactly when the response is ok, `success` is true and data is present; otherwise the message is non-empty |
| EditStudent.EditStudentModal.constructor | app/components/EditStudentModal.tsx:29-43 | the dialog mounts with the form seeded from the student, not submitting, no error |
| EditStudent.EditStudentModal.SetStudent | app/components/EditStudentModal.tsx:106-113 | a new student prop reseeds the form from it |
| EditStudent.EditStudentModal.EditFields | app/components/EditStudentModal.tsx:157-164 | typing changes the names and phone, never the disabled `student_id` |
| EditStudent.EditStudentModal.HandleSubmit | app/components/EditStudentModal.tsx:45-47 | nothing is sent unless the rules pass; otherwise the form is sent, submitting is set and the error cleared |
| EditStudent.EditStudentModal.FinishSubmit | app/components/EditStudentModal.tsx:49-79 | success gives: `onUpdateStudent` with the record, refetch, reset to the student's values, close, in that order; failure shows a non-empty error and requests nothing; submitting ends on every path |
| EditStudent.EditStudentModal.CloseRequestedBy | app/components/EditStudentModal.tsx:255-261 | Cancel is disabled while submitting, while dismissing the dialog always requests close |
| EditStudent.EditStudentModal.SubmitEnabled | app/components/EditStudentModal.tsx:263-269 | the update button is disabled exactly while submitting |
| EditLessonGrade.GradeOptionsExact | app/components/EditLessonGradeModal.tsx:171-175 | the selector offers each of A, B, C, D, F exactly once |
| EditLessonGrade.GradeUpdateSucceeded | app/components/EditLessonGradeModal.tsx:57-59 | (definition) the grade update succeeds: the response is ok and the body reports `success` |
| EditLessonGrade.EditLessonGradeModal.constructor | app/components/EditLessonGradeModal.tsx:31-42 | the form starts with the lesson's `gradeid` and grade |
| EditLessonGrade.EditLessonGradeModal.ChooseGrade | app/components/EditLessonGradeModal.tsx:164-176 | picking an option reads its value text as a grade: the form holds the grade written as that text, and the disabled id is unchanged |
| EditLessonGrade.EditLessonGradeModal.BeginSubmit | app/components/EditLessonGradeModal.tsx:44-53 | submitting is set and the request names the edited lesson |
| EditLessonGrade.EditLessonGradeModal.FinishSubmit | app/components/EditLessonGradeModal.tsx:44-69 | when the response is ok with `success`: `onGradeUpdated(data)`, lessons refetch, close, in that order; otherwise nothing at all; submitting ends on every path |
| EditLessonGrade.EditLessonGradeModal.CloseRequestedBy | app/components/EditLessonGradeModal.tsx:105 | while submitting, both dismissing and Cancel are ignored |
| EditAttendance.StatusOptionsExact | app/components/EditAttendanceModal.tsx:181-183 | the selector offers each of Absent, Late, Present exactly once |
| EditAttendance.RequestBody | app/components/EditAttendanceModal.tsx:58-61 | the body holds exactly the selected status and the attendance id |
| EditAttendance.AttendanceUpdateSucceeded | app/components/EditAttendanceModal.tsx:66-70 | (definition) the attendance update succeeds: the response is ok and the body reports `success` |
| EditAttendance.EditAttendanceModal.constructor | app/components/EditAttendanceModal.tsx:37-48 | the form starts with the record's id and status |
| EditAttendance.EditAttendanceModal.ChooseStatus | app/components/EditAttendanceModal.tsx:174-184 | picking an option reads its value text as a status: the form holds the status written as that text, and the disabled id is unchanged |
| EditAttendance.EditAttendanceModal.BeginSubmit | app/components/EditAttendanceModal.tsx:50-62 | submitting is set and the body is the selected status with this record's id |
| EditAttendance.EditAttendanceModal.FinishSubmit | app/components/EditAttendanceModal.tsx:50-79 | once the body is parsed the refetch comes first whatever the outcome; on ok with `success`, `onUpdateAttendance(result.result)` and close follow; otherwise nothing else happens; submitting ends on every path |
| EditAttendance.EditAttendanceModal.CloseRequestedBy | app/components/EditAttendanceModal.tsx:115 | while submitting, both dismissing and Cancel are ignored |
| ShowLessons.FindByGradeId | app/components/ShowLessonsModal.tsx:42-44 | `find` returns a lesson with the id, at an index before which no lesson has it, and returns nothing exactly when no lesson has it |
| ShowLessons.GradeUpdatedLesson | app/components/ShowLessonsModal.tsx:40-49 | `handleGradeUpdated` calls back with nothing exactly when no lesson has the updated id; otherwise it passes the first lesson with that id, with its id and course name kept and only the grade replaced |
| ShowLessons.ShownContent | app/components/ShowLessonsModal.tsx:90-129 | spinner while loading, else the table when there are lessons, else the empty message |
| ShowLessons.ShowLessonsModal.constructor | app/components/ShowLessonsModal.tsx:27-28 | nothing is selected and the editor is closed |
| ShowLessons.ShowLessonsModal.Rerender | app/components/ShowLessonsModal.tsx:18-26 | new props replace `lessons` and `isLoading` only |
| ShowLessons.ShowLessonsModal.OpenEditModal | app/components/ShowLessonsModal.tsx:30-33 | the lesson is selected and the editor opens |
| ShowLessons.ShowLessonsModal.CloseEditModal | app/components/ShowLessonsModal.tsx:35-38 | the selection is cleared and the editor closes |
| ShowLessons.ShowLessonsModal.Editor | app/components/ShowLessonsModal.tsx:149-158 | the grade editor exists exactly while the edit dialog is open, for the selected lesson |
| ShowLessons.ShowLessonsModal.CloseRequestedBy | app/components/ShowLessonsModal.tsx:57 | dismissing is ignored while the editor is open; the Close button is not guarded |
| ShowAttendance.ShownContent | app/components/ShowAttendanceModal.tsx:88-143 | spinner while loading, else a non-empty error, else the table when there are records, else the empty message |
| ShowAttendance.EditorProps | app/components/ShowAttendanceModal.tsx:169-172 | the editor's prop is the record's id and status |
| ShowAttendance.ShowAttendanceModal.constructor | app/components/ShowAttendanceModal.tsx:28-30 | nothing is selected and the editor is closed |
| ShowAttendance.ShowAttendanceModal.Rerender | app/components/ShowAttendanceModal.tsx:19-27 | new props replace the records, `isLoading` and `error` only |
| ShowAttendance.ShowAttendanceModal.OpenEditModal | app/components/ShowAttendanceModal.tsx:32-35 | the record is selected and the editor opens |
| ShowAttendance.ShowAttendanceModal.CloseEditModal | app/components/ShowAttendanceModal.tsx:37-40 | the selection is cleared and the editor closes |
| ShowAttendance.ShowAttendanceModal.HandleUpdateAttendance | app/components/ShowAttendanceModal.tsx:42-48 | the update handler changes no state |
| ShowAttendance.ShowAttendanceModal.Editor | app/components/ShowAttendanceModal.tsx:163-175 | the status editor exists exactly while the edit dialog is open and gets the selected record's id and status |
| ShowAttendance.ShowAttendanceModal.CloseRequestedBy | app/components/ShowAttendanceModal.tsx:56 | while loading, dismissing is ignored and the Close button is disabled |

## Left out

- HTTP and JSON: URLs, hosts, headers and parsing are left out. Each request's result is the `Reply` input. A body that the request site parses and that is not JSON is a `Thrown` reply. Where a non-ok body is never read (the initial load, the student refetches), a non-ok response is `Received(false, status, _)` whatever its body.
- Which student a dialog's refetch is for: the `student_id` query parameter is not modelled. A refetch reply is applied to the list it sets.
- Asynchronous scheduling: overlapping requests, races between dialog opens, and the order in which React batches state updates are not modelled. Each handler is an atomic transition, and a started refetch is a later transition.
- Rendering: markup, styling, transitions, dynamic imports, icons, the `Spinner` component and the order of table columns are not modelled. Only the guards and the choice of content are kept.
- Form library internals are not modelled: how `handleSubmit` serialises disabled inputs, or how errors are shown. The form values sent are the values held.
- Text.Lower: lowers ASCII letters only. Full Unicode case mapping is not modelled.
- Text.IntToDecimal: `sid` is an integer. Fractional and exponent notation of JavaScript numbers are not modelled.
- The date shown for an attendance record (`toLocaleDateString`) is not modelled, as it depends on the locale.
- EditLessonGrade.EditLessonGradeModal.FinishSubmit: passes `result.data` on as an optional value. If a successful reply has no data, `handleGradeUpdated` throws for a non-empty lessons list. The grade editor would then swallow that error and skip the refetch and close. That path is not modelled.
- Double submission: the submit methods have no guard of their own. In the page, a second submit is prevented only by the disabled button.
- The `console.log` in the lessons refetch is not modelled.
