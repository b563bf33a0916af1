/**
 * The create-student dialog: its form, the submit machine driven by the
 * POST /api/student reply, and the enabled state of its controls.
 */
module AddStudent {
  import opened Wrappers
  import opened Types
  import opened Fetch
  import opened Callbacks
  import opened StudentForm

  const AddInvalidText := "Failed to add student. Please try again."
  const AddFallbackText := "Failed to add student."

  /** The values the form submits, which are also the request body. */
  datatype AddStudentFormInputs = AddStudentFormInputs(first_name: string, last_name: string, phone: string)

  /** The form without default values, as mounted and as reset. */
  const EmptyForm := AddStudentFormInputs("", "", "")

  /** The field rules applied to the form's values. */
  function FormErrors(f: AddStudentFormInputs): (r: FieldErrors)
    ensures r.Clean() <==> f.first_name != "" && f.last_name != "" && ValidPhone(f.phone)
  {
    Validate(f.first_name, f.last_name, f.phone)
  }

  /**
   * The create request's outcome: the created record when the response is ok
   * and its envelope reports success with data; otherwise a non-empty message.
   */
  function AddResult(reply: Reply<ApiResponse<Student>>): (r: Result<Student, string>)
    ensures r.Ok? <==> Delivered(reply)
    ensures r.Ok? ==> r.value == reply.body.data.value
    ensures r.Err? ==> r.error != ""
    ensures reply.Received? && reply.ok && !Delivered(reply) ==> r.error == AddInvalidText
  {
    EnvelopeResult(reply, true, AddInvalidText, AddFallbackText)
  }

  class AddStudentModal {
    var form: AddStudentFormInputs
    var isSubmitting: bool
    var submitError: Option<string>

    constructor ()
      ensures form == EmptyForm && !isSubmitting && submitError == None
    {
      form := EmptyForm;
      isSubmitting := false;
      submitError := None;
    }

    /** The user types into the fields. */
    method EditForm(f: AddStudentFormInputs)
      modifies this`form
      ensures form == f
    {
      form := f;
    }

    /**
     * The form's submit: the field rules run first and nothing is sent unless
     * they all pass; otherwise the request starts with `isSubmitting` set and
     * the previous error cleared.
     */
    method HandleSubmit() returns (errors: FieldErrors, request: Option<AddStudentFormInputs>)
      modifies this`isSubmitting, this`submitError
      ensures errors == FormErrors(form)
      ensures request.Some? <==> errors.Clean()
      ensures request.Some? ==> request.value == form && isSubmitting && submitError == None
      ensures request.None? ==> isSubmitting == old(isSubmitting) && submitError == old(submitError)
    {
      errors := FormErrors(form);
      if errors.Clean() {
        isSubmitting := true;
        submitError := None;
        request := Some(form);
      } else {
        request := None;
      }
    }

    /**
     * The create request settles. On success: refetch the list, hand the
     * record to `onAddStudent`, reset the form and ask to close, in that order.
     * On failure the error is shown and nothing else happens. Either way the
     * dialog stops submitting.
     */
    method FinishSubmit(reply: Reply<ApiResponse<Student>>) returns (effects: seq<Effect>)
      modifies this`isSubmitting, this`submitError, this`form
      ensures !isSubmitting
      ensures Delivered(reply) ==>
                effects == [RefetchStudents, StudentAdded(reply.body.data.value), ResetForm, RequestClose] &&
                form == EmptyForm && submitError == old(submitError)
      ensures !Delivered(reply) ==>
                effects == [] && submitError == Some(AddResult(reply).error) && submitError.value != "" &&
                form == old(form)
    {
      match AddResult(reply) {
        case Ok(created) =>
          effects := [RefetchStudents, StudentAdded(created), ResetForm, RequestClose];
          form := EmptyForm;
        case Err(message) =>
          submitError := Some(message);
          effects := [];
      }
      isSubmitting := false;
    }

    /**
     * Whether a close control calls `onRequestClose`: the Cancel button is
     * disabled while submitting, but dismissing the dialog is not guarded.
     */
    function CloseRequestedBy(control: CloseControl): (r: bool)
      reads this
      ensures control == Dismiss ==> r
      ensures control == CloseButton ==> (r <==> !isSubmitting)
    {
      match control
      case Dismiss => true
      case CloseButton => !isSubmitting
    }

    /** The submit button is disabled while submitting. */
    function SubmitEnabled(): (r: bool)
      reads this
      ensures r <==> !isSubmitting
    {
      !isSubmitting
    }
  }
}
