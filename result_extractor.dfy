/**
 * How `book_appointment` turns the agent run's terminal state into an
 * `AppointmentResult`: a structured output wins outright; otherwise the run's
 * success signal and final text are wrapped; an exception becomes a failed
 * result carrying the exception's text.
 */
module ResultExtractor {
  import opened Wrappers

  datatype AppointmentResult = AppointmentResult(
    success: bool,
    confirmationNumber: Option<string>,
    appointmentDate: Option<string>,
    appointmentTime: Option<string>,
    message: string)

  /**
   * What the agent run ended with: a value of the output schema, or a history
   * without one (its `is_successful()` and `final_result()`), or an exception
   * raised inside the `try` block, given by `str(e)`.
   */
  datatype RunOutcome =
    | Structured(r: AppointmentResult)
    | Unstructured(isSuccessful: Option<bool>, finalResult: Option<string>)
    | Fault(errText: string)

  const NoDetailsMessage: string := "Appointment booking completed but no confirmation details captured"
  const ErrorPrefix: string := "Error during appointment booking: "

  /** Python's `signal or False` for a `bool | None`. */
  function SignalOrFalse(signal: Option<bool>): (b: bool)
    ensures b <==> signal == Some(true)
  {
    match signal
    case Some(v) => v
    case None => false
  }

  /**
   * Python's `text or fallback` for a `str | None`: None and "" are falsy.
   * The result is one of the two candidates, the text whenever it carries
   * something, and it is empty only if the fallback is.
   */
  function TextOr(text: Option<string>, fallback: string): (s: string)
    ensures s == fallback || text == Some(s)
    ensures fallback != "" ==> s != ""
    ensures text.Some? && text.value != "" ==> s == text.value
    ensures text.None? || text.value == "" ==> s == fallback
  {
    if text.Some? && text.value != "" then text.value else fallback
  }

  /** The result built when the run left no structured output. */
  function FallbackResult(isSuccessful: Option<bool>, finalResult: Option<string>): AppointmentResult
  {
    AppointmentResult(SignalOrFalse(isSuccessful), None, None, None, TextOr(finalResult, NoDetailsMessage))
  }

  /** The result built in the `except Exception as e` handler. */
  function ErrorResult(errText: string): AppointmentResult
  {
    AppointmentResult(false, None, None, None, ErrorPrefix + errText)
  }

  /** The invariant a result built by the code itself keeps: failure sets no confirmation detail. */
  predicate NoDetailsOnFailure(r: AppointmentResult)
  {
    !r.success ==> r.confirmationNumber.None? && r.appointmentDate.None? && r.appointmentTime.None?
  }

  /**
   * The priority rule.  A structured output is returned exactly as the run
   * produced it.  Without one, success is true exactly when the run's signal
   * is True (None counts as False) and the message is the final text when that
   * is non-empty, the fixed sentence otherwise.  An exception gives a failed
   * result whose message is the fixed prefix followed by the exception text.
   * Every result built here, rather than taken from the run, sets no
   * confirmation detail and has a non-empty message.
   */
  function Extract(o: RunOutcome): (r: AppointmentResult)
    ensures o.Structured? ==> r == o.r
    ensures o.Unstructured? ==> (r.success <==> o.isSuccessful == Some(true))
    ensures o.Unstructured? && o.finalResult.Some? && o.finalResult.value != "" ==> r.message == o.finalResult.value
    ensures o.Unstructured? && (o.finalResult.None? || o.finalResult.value == "") ==> r.message == NoDetailsMessage
    ensures o.Fault? ==>
              !r.success && |r.message| == |ErrorPrefix| + |o.errText| &&
              r.message[..|ErrorPrefix|] == ErrorPrefix && r.message[|ErrorPrefix|..] == o.errText
    ensures !o.Structured? ==>
              r.confirmationNumber.None? && r.appointmentDate.None? && r.appointmentTime.None? && r.message != ""
  {
    match o
    case Structured(r) => r
    case Unstructured(ok, text) => FallbackResult(ok, text)
    case Fault(e) => ErrorResult(e)
  }

  // ---------------------------------------------------------------- properties

  /** Every result the code builds itself keeps the invariant. */
  lemma BuiltResultsKeepInvariant(o: RunOutcome)
    requires !o.Structured?
    ensures NoDetailsOnFailure(Extract(o))
  {
  }

  /**
   * A structured output is not checked: a failed result that still carries a
   * confirmation number is passed through unchanged.
   */
  lemma StructuredNotChecked()
    ensures var r := AppointmentResult(false, Some("ABC123"), None, None, "");
      Extract(Structured(r)) == r && !NoDetailsOnFailure(Extract(Structured(r))) && Extract(Structured(r)).message == ""
  {
  }

  /** The extracted result shows which path produced it only through its fields: a structured failure can look like a fault. */
  lemma SameResultFromStructuredAndFault(e: string)
    ensures Extract(Structured(ErrorResult(e))) == Extract(Fault(e))
  {
  }
}
