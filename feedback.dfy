/**
 * The second studio's feedback form: the fields are validated in a fixed
 * order and the mail is sent only once both checks pass. The mail delivery
 * itself is an oracle reporting success or failure.
 */
module Feedback {

  /** The message the form shows after "Send Feedback". */
  datatype Submission = MissingFields | InvalidEmail | Sent | SendFailed

  predicate AllFilled(name: string, email: string, message: string) {
    name != "" && email != "" && message != ""
  }

  /**
   * The form handler. `send` stands for `_send_feedback_email` and is
   * consulted only when every field is filled and the email holds an '@'.
   */
  function SubmitFeedback(
    name: string, email: string, feedbackType: string, message: string,
    send: (string, string, string, string) -> bool): (r: Submission)
    ensures r == MissingFields <==> !AllFilled(name, email, message)
    ensures r == InvalidEmail <==> AllFilled(name, email, message) && '@' !in email
    ensures r == Sent <==> AllFilled(name, email, message) && '@' in email
                           && send(name, email, feedbackType, message)
    ensures r == SendFailed <==> AllFilled(name, email, message) && '@' in email
                                 && !send(name, email, feedbackType, message)
  {
    if !AllFilled(name, email, message) then MissingFields
    else if '@' !in email then InvalidEmail
    else if send(name, email, feedbackType, message) then Sent
    else SendFailed
  }

  /** A rejected form never reaches the mail server: any other sender gives the same answer. */
  lemma RejectionIgnoresSender(
    name: string, email: string, feedbackType: string, message: string,
    send: (string, string, string, string) -> bool,
    other: (string, string, string, string) -> bool)
    requires SubmitFeedback(name, email, feedbackType, message, send) in {MissingFields, InvalidEmail}
    ensures SubmitFeedback(name, email, feedbackType, message, other)
         == SubmitFeedback(name, email, feedbackType, message, send)
  {
  }

  /** An empty field is reported before a missing '@', even when both apply. */
  lemma MissingFieldsReportedFirst(
    name: string, feedbackType: string, message: string,
    send: (string, string, string, string) -> bool)
    ensures SubmitFeedback(name, "", feedbackType, message, send) == MissingFields
  {
  }
}
