/**
 * What the contact form (src/components/home/Contact.tsx) and the project
 * form (src/components/ui/ProjectForm.tsx) share: the submit status, the
 * outcome of the e-mail send, the form's fields and what `reset()` does to
 * them, and how a settled send decides the status.
 *
 * The send itself (`emailjs.sendForm`) is a network call: the model only sees
 * whether its promise resolved (`Sent`) or rejected (`Failed`).
 */
module FormSubmission {

  /** `submitStatus`. */
  datatype SubmitStatus = Idle | Success | Error

  /** How the `emailjs.sendForm` promise settled. */
  datatype SendOutcome = Sent | Failed

  /** One form control: its `name`, the value `reset()` restores, whether it is `required`, and what it holds now. */
  datatype Field = Field(name: string, defaultValue: string, required: bool, value: string)

  /** Two lists of controls are the same form: position by position the same name, default and required flag. */
  predicate SameControls(a: seq<Field>, b: seq<Field>) {
    |a| == |b| &&
    forall i :: 0 <= i < |a| ==>
      a[i].name == b[i].name && a[i].defaultValue == b[i].defaultValue && a[i].required == b[i].required
  }

  /** `form.reset()`: every control goes back to its default value. */
  function ResetFields(fields: seq<Field>): (r: seq<Field>)
    ensures |r| == |fields| && SameControls(r, fields)
    ensures forall i :: 0 <= i < |r| ==>
      r[i].name == fields[i].name && r[i].defaultValue == fields[i].defaultValue &&
      r[i].required == fields[i].required && r[i].value == fields[i].defaultValue
  {
    seq(|fields|, i requires 0 <= i < |fields| => fields[i].(value := fields[i].defaultValue))
  }

  /** Resetting twice is resetting once, and only the values change. */
  lemma ResetFieldsIdempotent(fields: seq<Field>)
    ensures ResetFields(ResetFields(fields)) == ResetFields(fields)
  {
  }

  /** The browser submits the form only when every required control holds something. */
  predicate RequiredFilled(fields: seq<Field>) {
    forall i :: 0 <= i < |fields| && fields[i].required ==> fields[i].value != ""
  }

  /** After a reset, a required control with an empty default has to be filled in again before the next submission. */
  lemma ResetBlocksResubmission(fields: seq<Field>, i: int)
    requires 0 <= i < |fields| && fields[i].required && fields[i].defaultValue == ""
    ensures !RequiredFilled(ResetFields(fields))
  {
    assert ResetFields(fields)[i].value == "";
  }

  /** Editing control `i` changes its value and nothing else. */
  function EditField(fields: seq<Field>, i: int, value: string): (r: seq<Field>)
    requires 0 <= i < |fields|
    ensures |r| == |fields| && r[i].value == value && r[i].name == fields[i].name
    ensures r[i].defaultValue == fields[i].defaultValue && r[i].required == fields[i].required
    ensures SameControls(r, fields)
    ensures forall j :: 0 <= j < |r| && j != i ==> r[j] == fields[j]
  {
    fields[i := fields[i].(value := value)]
  }

  /**
   * The status once the send has settled. A resolved send sets "success"
   * and then calls `formRef.current.reset()`; if no form element is mounted
   * when the send settles (the project modal is closed, and still closed,
   * while its component stays on screen), that call throws and the `catch`
   * overwrites the status with "error". A rejected send is "error".
   */
  function SettledStatus(outcome: SendOutcome, formMounted: bool): (s: SubmitStatus)
    ensures s.Success? <==> (outcome.Sent? && formMounted)
    ensures s.Error? <==> (outcome.Failed? || !formMounted)
  {
    if outcome == Sent && formMounted then Success else Error
  }

  /** A settled send always leaves a message on screen. */
  lemma SettledShowsMessage(outcome: SendOutcome, formMounted: bool)
    ensures SettledStatus(outcome, formMounted) != Idle
  {
  }

  /** A send that went through is still reported as an error when no form element is mounted as it settles. */
  lemma SentAfterUnmountReportsError()
    ensures SettledStatus(Sent, false) == Error
  {
  }
}
