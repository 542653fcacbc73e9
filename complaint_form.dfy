/** The complaint form: a draft, a required-field check that runs before anything is
    sent, and the submit handler that resets the draft only when the store accepts it. */
module ComplaintForm {
  import opened Wrappers
  import opened ComplaintTypes

  /** The draft the form starts from and returns to after a successful submit. */
  function InitialDraft(): (d: NewComplaint)
    ensures d.title == "" && d.description == "" && d.category == ""
    ensures d.priority == Medium && d.user_email == Some("")
  {
    NewComplaint("", "", "", Medium, Some(""))
  }

  /** Title, description and category are all non-empty. Only the empty string fails:
      a value made of spaces passes. */
  predicate HasRequiredFields(d: NewComplaint) {
    d.title != "" && d.description != "" && d.category != ""
  }

  /** The required-field check rejects exactly the drafts with an empty title, description
      or category, and nothing else about the draft matters to it. */
  lemma RequiredFieldsCheck(d: NewComplaint)
    ensures !HasRequiredFields(d) <==> d.title == "" || d.description == "" || d.category == ""
    ensures HasRequiredFields(d) ==> HasRequiredFields(d.(priority := Low)) && HasRequiredFields(d.(user_email := None))
    ensures !HasRequiredFields(InitialDraft())
  {
  }

  /** A whitespace-only value counts as filled in. */
  lemma WhitespaceIsNotEmpty(d: NewComplaint)
    requires d.title == " " && d.description == " " && d.category == " "
    ensures HasRequiredFields(d)
  {
  }

  /** The failure the submit handler reports to the user. */
  datatype SubmitError = ValidationError | SubmissionError

  /** The form component's state. `hasOnSuccess` records whether the parent passed the
      optional `onSuccess` callback. */
  class SubmissionController {
    var formData: NewComplaint
    var isSubmitting: bool
    const hasOnSuccess: bool

    constructor (hasOnSuccess: bool)
      ensures formData == InitialDraft() && !isSubmitting
      ensures this.hasOnSuccess == hasOnSuccess
    {
      formData := InitialDraft();
      isSubmitting := false;
      this.hasOnSuccess := hasOnSuccess;
    }

    /** The field editors: each replaces one field of the draft. */
    method SetTitle(value: string)
      modifies this`formData
      ensures formData == old(formData).(title := value)
    {
      formData := formData.(title := value);
    }

    method SetDescription(value: string)
      modifies this`formData
      ensures formData == old(formData).(description := value)
    {
      formData := formData.(description := value);
    }

    method SetCategory(value: string)
      modifies this`formData
      ensures formData == old(formData).(category := value)
    {
      formData := formData.(category := value);
    }

    method SetPriority(value: Priority)
      modifies this`formData
      ensures formData == old(formData).(priority := value)
    {
      formData := formData.(priority := value);
    }

    method SetEmail(value: string)
      modifies this`formData
      ensures formData == old(formData).(user_email := Some(value))
    {
      formData := formData.(user_email := Some(value));
    }

    /** The part of the handler before the insert is awaited. A draft missing a required
        field yields a validation error and no request, and leaves the state alone;
        otherwise the request carries the draft as it is and the form is marked busy. */
    method BeginSubmit() returns (request: Option<NewComplaint>, error: Option<SubmitError>)
      modifies this`isSubmitting
      ensures request == (if HasRequiredFields(formData) then Some(formData) else None)
      ensures error == (if request.None? then Some(ValidationError) else None)
      ensures isSubmitting == (if request.Some? then true else old(isSubmitting))
    {
      if !HasRequiredFields(formData) {
        return None, Some(ValidationError);
      }
      isSubmitting := true;
      request := Some(formData);
      error := None;
    }

    /** The part of the handler after the insert returns. Acceptance resets the draft and
        calls `onSuccess` once, if it was given; refusal keeps the draft and reports an
        error. The form is no longer busy either way. */
    method FinishSubmit(storeAccepts: bool) returns (onSuccessCalls: nat, error: Option<SubmitError>)
      modifies this`formData, this`isSubmitting
      ensures formData == (if storeAccepts then InitialDraft() else old(formData))
      ensures !isSubmitting
      ensures onSuccessCalls == (if storeAccepts && hasOnSuccess then 1 else 0)
      ensures error == (if storeAccepts then None else Some(SubmissionError))
    {
      onSuccessCalls := 0;
      if storeAccepts {
        formData := InitialDraft();
        if hasOnSuccess {
          onSuccessCalls := 1;
        }
        error := None;
      } else {
        error := Some(SubmissionError);
      }
      isSubmitting := false;
    }

    /** The whole handler, with the store's answer as input. The store is asked only for a
        complete draft, and is sent exactly that draft; the form ends not busy unless the
        check stopped it before it became busy. */
    method HandleSubmit(storeAccepts: bool) returns (request: Option<NewComplaint>, onSuccessCalls: nat, error: Option<SubmitError>)
      modifies this`formData, this`isSubmitting
      ensures request == (if HasRequiredFields(old(formData)) then Some(old(formData)) else None)
      ensures formData == (if request.Some? && storeAccepts then InitialDraft() else old(formData))
      ensures isSubmitting == (if request.Some? then false else old(isSubmitting))
      ensures onSuccessCalls == (if request.Some? && storeAccepts && hasOnSuccess then 1 else 0)
      ensures error == (if request.None? then Some(ValidationError)
                        else if storeAccepts then None
                        else Some(SubmissionError))
    {
      request, error := BeginSubmit();
      onSuccessCalls := 0;
      if request.Some? {
        onSuccessCalls, error := FinishSubmit(storeAccepts);
      }
    }
  }
}
