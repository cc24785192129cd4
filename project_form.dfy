/**
 * The "start your project" modal (src/components/ui/ProjectForm.tsx): a form
 * rendered only while the parent keeps it open, whose submit handler sends
 * it by e-mail and, on success, asks the parent to close it two seconds later.
 *
 * As in the contact form, `handleSubmit` is split at its `await` into
 * `HandleSubmit` and `Settle`. The two-second timer is a count of close
 * requests that are due (`pendingCloses`); `TimerFires` delivers one of them.
 * The form element exists exactly while the modal is open, so it is the
 * `isOpen` flag that decides whether `formRef.current` is set.
 */
module ProjectForm {
  import opened Wrappers
  import opened FormSubmission

  /** The line shown after a successful send. */
  const SuccessText: string := "Project details sent successfully! We'll get back to you soon."

  /** The line shown after a failed send. */
  const ErrorText: string := "There was an error sending your details. Please try again."

  /** The modal's state together with the parent's `isOpen` flag. */
  class ProjectFormState {
    var isOpen: bool
    var fields: seq<Field>
    var isSubmitting: bool
    var submitStatus: SubmitStatus
    var inFlight: nat
    var pendingCloses: nat

    /**
     * The button is disabled exactly while a send is awaited, and at most one
     * is; the controls are those of the project form.
     */
    ghost predicate Valid()
      reads this
    {
      inFlight <= 1 && (isSubmitting <==> inFlight == 1) && SameControls(fields, ProjectFields())
    }

    /** The modal as first rendered: closed, every control at its default, nothing sent. */
    constructor()
      ensures fields == ProjectFields() && ResetFields(fields) == fields
      ensures !isOpen && !isSubmitting && submitStatus == Idle && inFlight == 0 && pendingCloses == 0
      ensures Valid()
    {
      isOpen := false;
      fields := ProjectFields();
      isSubmitting := false;
      submitStatus := Idle;
      inFlight := 0;
      pendingCloses := 0;
    }

    /** Backdrop, form and status line are on screen only while the modal is open. */
    predicate Renders()
      reads this
    {
      isOpen
    }

    /** The submit button is disabled while submitting. */
    predicate ButtonDisabled()
      reads this
    {
      isSubmitting
    }

    /** The submit button's label. */
    function ButtonText(): (t: string)
      reads this
      ensures t == "Sending..." <==> isSubmitting
    {
      if isSubmitting then "Sending..." else "Send Project Details"
    }

    /** The line under the button, when the modal is open and the status is not idle. */
    function StatusMessage(): (m: Option<string>)
      reads this
      ensures m.None? <==> !isOpen || submitStatus == Idle
      ensures m == Some(SuccessText) <==> isOpen && submitStatus == Success
      ensures m == Some(ErrorText) <==> isOpen && submitStatus == Error
    {
      if !isOpen then None
      else match submitStatus
        case Idle => None
        case Success => Some(SuccessText)
        case Error => Some(ErrorText)
    }

    /**
     * The parent opens the modal. Opening a closed modal mounts a fresh form,
     * every control at its default; opening an open one changes nothing.
     */
    method Open()
      modifies this
      ensures isOpen
      ensures fields == if old(isOpen) then old(fields) else ResetFields(old(fields))
      ensures isSubmitting == old(isSubmitting) && submitStatus == old(submitStatus)
      ensures inFlight == old(inFlight) && pendingCloses == old(pendingCloses)
      ensures old(Valid()) ==> Valid()
      ensures old(Valid()) && !old(isOpen) ==> !RequiredFilled(fields)
    {
      if Valid() {
        ProjectResetBlocksResubmission(fields);
      }
      if !isOpen {
        fields := ResetFields(fields);
      }
      isOpen := true;
    }

    /**
     * `onClose`, from the close button or the backdrop: the parent closes the
     * modal. The form element is unmounted and what was typed is lost; the
     * component's own state (submitting flag, status) survives.
     */
    method OnClose()
      modifies this
      ensures !isOpen && !Renders()
      ensures fields == ResetFields(old(fields))
      ensures isSubmitting == old(isSubmitting) && submitStatus == old(submitStatus)
      ensures inFlight == old(inFlight) && pendingCloses == old(pendingCloses)
      ensures old(Valid()) ==> Valid() && !RequiredFilled(fields)
    {
      if Valid() {
        ProjectResetBlocksResubmission(fields);
      }
      isOpen := false;
      fields := ResetFields(fields);
    }

    /** Typing into control `i`, possible only while the form is on screen. */
    method Edit(i: int, value: string)
      requires isOpen && 0 <= i < |fields|
      modifies this
      ensures fields == EditField(old(fields), i, value)
      ensures isOpen == old(isOpen) && isSubmitting == old(isSubmitting) && submitStatus == old(submitStatus)
      ensures inFlight == old(inFlight) && pendingCloses == old(pendingCloses)
      ensures old(Valid()) ==> Valid()
    {
      fields := fields[i := fields[i].(value := value)];
    }

    /**
     * `handleSubmit` up to the `await`: with the modal closed there is no form
     * element and nothing happens; otherwise the button is disabled, the old
     * message is cleared and the send starts.
     */
    method HandleSubmit()
      modifies this
      ensures !isOpen ==>
        isSubmitting == old(isSubmitting) && submitStatus == old(submitStatus) && inFlight == old(inFlight)
      ensures isOpen ==> isSubmitting && submitStatus == Idle && inFlight == old(inFlight) + 1
      ensures isOpen == old(isOpen) && fields == old(fields) && pendingCloses == old(pendingCloses)
    {
      if !isOpen {
        return;
      }
      isSubmitting := true;
      submitStatus := Idle;
      inFlight := inFlight + 1;
    }

    /** A press of the submit button: the browser fires the submit event only when the button is enabled and every required control is filled. */
    method PressSubmit()
      requires Valid() && isOpen
      modifies this
      ensures Valid()
      ensures old(isSubmitting) || !RequiredFilled(fields) ==>
        isSubmitting == old(isSubmitting) && submitStatus == old(submitStatus) && inFlight == old(inFlight)
      ensures !old(isSubmitting) && RequiredFilled(fields) ==>
        isSubmitting && submitStatus == Idle && inFlight == 1
      ensures isOpen && fields == old(fields) && pendingCloses == old(pendingCloses)
    {
      if isSubmitting || !RequiredFilled(fields) {
        return;
      }
      HandleSubmit();
    }

    /**
     * `handleSubmit` after the `await`. A resolved send with the modal still
     * open (also when it was closed and reopened meanwhile, since the reset
     * then reaches the new form) sets success, resets the form and schedules
     * one close. A rejected send, or one that resolves while the modal is
     * closed (the reset then throws), sets error and schedules nothing.
     * Either way the button is enabled again.
     */
    method Settle(outcome: SendOutcome)
      requires inFlight > 0
      modifies this
      ensures submitStatus == SettledStatus(outcome, old(isOpen))
      ensures fields == if submitStatus == Success then ResetFields(old(fields)) else old(fields)
      ensures pendingCloses == old(pendingCloses) + if submitStatus == Success then 1 else 0
      ensures !isSubmitting && inFlight == old(inFlight) - 1 && isOpen == old(isOpen)
      ensures old(Valid()) ==> Valid()
      ensures old(Valid()) && submitStatus.Success? ==> !RequiredFilled(fields)
    {
      if Valid() {
        ProjectResetBlocksResubmission(fields);
      }
      inFlight := inFlight - 1;
      if outcome == Sent {
        submitStatus := Success;
        if isOpen {
          fields := ResetFields(fields);
          pendingCloses := pendingCloses + 1;
        } else {
          submitStatus := Error;
        }
      } else {
        submitStatus := Error;
      }
      isSubmitting := false;
    }

    /**
     * The two-second timer calls `onClose`, closing the modal (and discarding
     * what was typed) even if it was reopened meanwhile.
     */
    method TimerFires()
      requires pendingCloses > 0
      modifies this
      ensures !isOpen && pendingCloses == old(pendingCloses) - 1
      ensures fields == ResetFields(old(fields))
      ensures isSubmitting == old(isSubmitting) && submitStatus == old(submitStatus)
      ensures inFlight == old(inFlight)
      ensures old(Valid()) ==> Valid() && !RequiredFilled(fields)
    {
      pendingCloses := pendingCloses - 1;
      OnClose();
    }
  }

  /** The modal's controls; the hidden `to_name` control holds "Admin" and "contact" is optional. */
  function ProjectFields(): seq<Field> {
    [
      Field("from_name", "", true, ""),
      Field("to_name", "Admin", false, "Admin"),
      Field("email", "", true, ""),
      Field("contact", "", false, ""),
      Field("project_name", "", true, ""),
      Field("message", "", true, ""),
      Field("budget", "", true, "")
    ]
  }

  /** The modal opens with every control at its default, so it cannot be sent before the required ones are filled. */
  lemma ProjectFieldsStartEmpty()
    ensures ResetFields(ProjectFields()) == ProjectFields()
    ensures !RequiredFilled(ProjectFields())
  {
    assert ProjectFields()[0].required && ProjectFields()[0].value == "";
  }

  /**
   * After a successful send, a close, or a close and a reopen, the modal's
   * controls are back at their defaults, so it has to be filled in again
   * before it can be sent once more.
   */
  lemma ProjectResetBlocksResubmission(fields: seq<Field>)
    requires SameControls(fields, ProjectFields())
    ensures !RequiredFilled(ResetFields(fields))
    ensures !RequiredFilled(ResetFields(ResetFields(fields)))
  {
    ResetBlocksResubmission(fields, 0);
    ResetFieldsIdempotent(fields);
  }
}
