/**
 * The edit-student dialog: its form seeded from the selected student, the
 * submit machine driven by the PUT /api/student reply, and its controls.
 */
module EditStudent {
  import opened Wrappers
  import opened Types
  import opened Fetch
  import opened Callbacks
  import opened StudentForm

  const UpdateInvalidText := "Failed to update student. Please try again."
  const UpdateFallbackText := "Failed to update student."

  /** The values the form submits, the read-only `student_id` included; also the request body. */
  datatype EditStudentFormInputs = EditStudentFormInputs(student_id: int, first_name: string, last_name: string, phone: string)

  /** The form's values for a student: its key, names and phone. */
  function FormFor(s: Student): (f: EditStudentFormInputs)
    ensures f.student_id == s.sid && f.first_name == s.firstname
    ensures f.last_name == s.lastname && f.phone == s.phone
  {
    EditStudentFormInputs(s.sid, s.firstname, s.lastname, s.phone)
  }

  /** The same field rules as the create form. */
  function FormErrors(f: EditStudentFormInputs): (r: FieldErrors)
    ensures r.Clean() <==> f.first_name != "" && f.last_name != "" && ValidPhone(f.phone)
  {
    Validate(f.first_name, f.last_name, f.phone)
  }

  /** A student as stored is accepted by the form exactly when its data satisfies the field rules. */
  lemma SeededFormValid(s: Student)
    ensures FormErrors(FormFor(s)).Clean() <==> s.firstname != "" && s.lastname != "" && ValidPhone(s.phone)
  {
  }

  /**
   * The update request's outcome: the updated record when the response is ok
   * and its envelope reports success with data; otherwise a non-empty message.
   */
  function UpdateResult(reply: Reply<ApiResponse<Student>>): (r: Result<Student, string>)
    ensures r.Ok? <==> Delivered(reply)
    ensures r.Ok? ==> r.value == reply.body.data.value
    ensures r.Err? ==> r.error != ""
    ensures reply.Received? && reply.ok && !Delivered(reply) ==> r.error == UpdateInvalidText
  {
    EnvelopeResult(reply, true, UpdateInvalidText, UpdateFallbackText)
  }

  class EditStudentModal {
    var student: Student
    var form: EditStudentFormInputs
    var isSubmitting: bool
    var submitError: Option<string>

    /** Mounted for a student: the form starts from that student's values. */
    constructor (student: Student)
      ensures this.student == student && form == FormFor(student)
      ensures !isSubmitting && submitError == None
    {
      this.student := student;
      form := FormFor(student);
      isSubmitting := false;
      submitError := None;
    }

    /** A new `student` prop: the reset effect reseeds the form from it. */
    method SetStudent(s: Student)
      modifies this`student, this`form
      ensures student == s && form == FormFor(s)
    {
      student := s;
      form := FormFor(s);
    }

    /** The user edits the names and phone; the `student_id` input is disabled. */
    method EditFields(firstName: string, lastName: string, phone: string)
      modifies this`form
      ensures form == old(form).(first_name := firstName, last_name := lastName, phone := phone)
      ensures form.student_id == old(form.student_id)
    {
      form := form.(first_name := firstName, last_name := lastName, phone := phone);
    }

    /**
     * The form's submit: nothing is sent unless the field rules all pass;
     * otherwise the request starts with `isSubmitting` set and the error cleared.
     */
    method HandleSubmit() returns (errors: FieldErrors, request: Option<EditStudentFormInputs>)
      modifies this`isSubmitting, this`submitError
      ensures errors == FormErrors(form)
      ensures request.Some? <==> errors.Clean()
      ensures request.Some? ==> request.value == form && isSubmitting && submitError == None
      ensures request.None? ==> isSubmitting == old(isSubmitting) && submitError == old(submitError)
    {
      errors := FormErrors(form);
      if errors.Clean() {
        isSubmitting := true;
        submitError := None;
        request := Some(form);
      } else {
        request := None;
      }
    }

    /**
     * The update request settles. On success: hand the record to
     * `onUpdateStudent`, refetch the list, reset the form to the student's
     * values and ask to close, in that order. On failure only the error is
     * shown. Either way the dialog stops submitting.
     */
    method FinishSubmit(reply: Reply<ApiResponse<Student>>) returns (effects: seq<Effect>)
      modifies this`isSubmitting, this`submitError, this`form
      ensures !isSubmitting
      ensures Delivered(reply) ==>
                effects == [StudentUpdated(reply.body.data.value), RefetchStudents, ResetForm, RequestClose] &&
                form == FormFor(student) && submitError == old(submitError)
      ensures !Delivered(reply) ==>
                effects == [] && submitError == Some(UpdateResult(reply).error) && submitError.value != "" &&
                form == old(form)
    {
      match UpdateResult(reply) {
        case Ok(updated) =>
          effects := [StudentUpdated(updated), RefetchStudents, ResetForm, RequestClose];
          form := FormFor(student);
        case Err(message) =>
          submitError := Some(message);
          effects := [];
      }
      isSubmitting := false;
    }

    /** The Cancel button is disabled while submitting; dismissing the dialog is not guarded. */
    function CloseRequestedBy(control: CloseControl): (r: bool)
      reads this
      ensures control == Dismiss ==> r
      ensures control == CloseButton ==> (r <==> !isSubmitting)
    {
      match control
      case Dismiss => true
      case CloseButton => !isSubmitting
    }

    /** The update button is disabled while submitting. */
    function SubmitEnabled(): (r: bool)
      reads this
      ensures r <==> !isSubmitting
    {
      !isSubmitting
    }
  }
}
