/**
 * The contact form (src/components/home/Contact.tsx): its submit handler,
 * which sends the form by e-mail, and the button label and status messages
 * that follow the submission.
 *
 * `handleSubmit` is asynchronous. The model splits it at the `await`:
 * `HandleSubmit` runs up to the send, and `Settle` runs the rest once the
 * send's promise has settled. `inFlight` counts the sends awaiting `Settle`.
 *
 * The `<form>` is rendered unconditionally, so while the component is on
 * screen `formRef.current` is always set: the early return on a missing form
 * and the reset that throws on one cannot happen here.
 */
module Contact {
  import opened Wrappers
  import opened FormSubmission

  /** The line shown after a successful send. */
  const SuccessText: string := "Message sent successfully! We'll get back to you soon."

  /** The line shown after a failed send. */
  const ErrorText: string := "There was an error sending your message. Please try again."

  /** The contact form's state. */
  class ContactForm {
    var fields: seq<Field>
    var isSubmitting: bool
    var submitStatus: SubmitStatus
    var inFlight: nat

    /**
     * The button is disabled exactly while a send is awaited, and at most one
     * is; the controls are those of the contact form.
     */
    ghost predicate Valid()
      reads this
    {
      inFlight <= 1 && (isSubmitting <==> inFlight == 1) && SameControls(fields, ContactFields())
    }

    /** The form as first rendered: every control at its default, nothing sent. */
    constructor()
      ensures fields == ContactFields() && ResetFields(fields) == fields
      ensures !isSubmitting && submitStatus == Idle && inFlight == 0
      ensures Valid()
    {
      fields := ContactFields();
      isSubmitting := false;
      submitStatus := Idle;
      inFlight := 0;
    }

    /** The submit button is disabled while submitting (`disabled={isSubmitting}`). */
    predicate ButtonDisabled()
      reads this
    {
      isSubmitting
    }

    /** The submit button's label. */
    function ButtonText(): (t: string)
      reads this
      ensures t == "Sending..." <==> isSubmitting
    {
      if isSubmitting then "Sending..." else "Send Message"
    }

    /** The line under the button: none while idle. */
    function StatusMessage(): (m: Option<string>)
      reads this
      ensures m.None? <==> submitStatus == Idle
      ensures m == Some(SuccessText) <==> submitStatus == Success
      ensures m == Some(ErrorText) <==> submitStatus == Error
    {
      match submitStatus
      case Idle => None
      case Success => Some(SuccessText)
      case Error => Some(ErrorText)
    }

    /** Typing into control `i`. */
    method Edit(i: int, value: string)
      requires 0 <= i < |fields|
      modifies this
      ensures fields == EditField(old(fields), i, value)
      ensures isSubmitting == old(isSubmitting) && submitStatus == old(submitStatus) && inFlight == old(inFlight)
      ensures old(Valid()) ==> Valid()
    {
      fields := fields[i := fields[i].(value := value)];
    }

    /**
     * `handleSubmit` up to the `await`: the button is disabled, the old
     * message is cleared and the send starts.
     */
    method HandleSubmit()
      modifies this
      ensures isSubmitting && submitStatus == Idle && inFlight == old(inFlight) + 1
      ensures fields == old(fields)
    {
      isSubmitting := true;
      submitStatus := Idle;
      inFlight := inFlight + 1;
    }

    /**
     * A press of the submit button: the browser fires the submit event only
     * when the button is enabled and every required control is filled.
     */
    method PressSubmit()
      requires Valid()
      modifies this
      ensures Valid()
      ensures old(isSubmitting) || !RequiredFilled(fields) ==>
        isSubmitting == old(isSubmitting) && submitStatus == old(submitStatus) && inFlight == old(inFlight)
      ensures !old(isSubmitting) && RequiredFilled(fields) ==>
        isSubmitting && submitStatus == Idle && inFlight == 1
      ensures fields == old(fields)
    {
      if isSubmitting || !RequiredFilled(fields) {
        return;
      }
      HandleSubmit();
    }

    /**
     * `handleSubmit` after the `await`: a resolved send sets success and
     * resets the form, a rejected one sets error, and either way the button
     * is enabled again.
     */
    method Settle(outcome: SendOutcome)
      requires inFlight > 0
      modifies this
      ensures submitStatus == SettledStatus(outcome, true)
      ensures submitStatus.Success? <==> outcome.Sent?
      ensures fields == if outcome.Sent? then ResetFields(old(fields)) else old(fields)
      ensures !isSubmitting && inFlight == old(inFlight) - 1
      ensures old(Valid()) ==> Valid() && StatusMessage().Some?
      ensures old(Valid()) && outcome.Sent? ==> !RequiredFilled(fields)
    {
      if Valid() {
        ContactResetBlocksResubmission(fields);
      }
      inFlight := inFlight - 1;
      if outcome == Sent {
        submitStatus := Success;
        fields := ResetFields(fields);
      } else {
        submitStatus := Error;
      }
      isSubmitting := false;
    }
  }

  /** The contact form's controls; the hidden `to_name` control holds "Admin". */
  function ContactFields(): seq<Field> {
    [
      Field("from_name", "", true, ""),
      Field("to_name", "Admin", false, "Admin"),
      Field("email", "", true, ""),
      Field("message", "", true, "")
    ]
  }

  /** After a successful send the form has to be filled in again before it can be sent once more. */
  lemma ContactResetBlocksResubmission(fields: seq<Field>)
    requires SameControls(fields, ContactFields())
    ensures !RequiredFilled(ResetFields(fields))
    ensures !RequiredFilled(ContactFields())
  {
    ResetBlocksResubmission(fields, 0);
  }
}
