/** The response branch of the contact form's submit handler: how the reply
    to the POST request, or its failure, turns into one dialog message and
    possibly a reset of the form. */
module ContactForm {
  import opened Options
  import Modal

  const FallbackError := "An unexpected error occurred."
  const ConnectionError := "There was a problem connecting to the server. Please ensure the backend is running and try again later."
  const ErrorPrefix := "Error: "

  /** The body of a reply once parsed as JSON. `NullBody` is the JSON `null`;
      any other value is described by the truthiness of its `success` field
      and by its `message` field when that is a string. */
  datatype Body = NullBody | Record(success: bool, message: Option<string>)

  /** What the request produced: a response with its `ok` flag and parsed
      body, or a rejected `fetch` or a body that is not JSON. */
  datatype Outcome = Responded(ok: bool, body: Body) | Failed

  /** What the handler does to the page, in order. */
  datatype Action = ShowModal(text: string) | ResetForm

  /** `result.message || default`: an absent or empty message is falsy. */
  function OrFallback(message: Option<string>): (text: string)
    ensures message.Some? && message.value != "" ==> text == message.value
    ensures message.None? || message.value == "" ==> text == FallbackError
  {
    if message.Some? && message.value != "" then message.value else FallbackError
  }

  /** The text of `showModal(result.message)`: a missing message sets the
      paragraph's text to the empty string. */
  function SuccessText(message: Option<string>): (text: string)
    ensures message.Some? ==> text == message.value
    ensures message.None? ==> text == ""
  {
    if message.Some? then message.value else ""
  }

  /** The reply reports success both at the HTTP and at the application level. */
  predicate Succeeded(o: Outcome) {
    o.Responded? && o.ok && o.body.Record? && o.body.success
  }

  function CountModals(trace: seq<Action>): nat
    decreases |trace|
  {
    if trace == [] then 0
    else CountModals(trace[..|trace| - 1]) + (if trace[|trace| - 1].ShowModal? then 1 else 0)
  }

  /** The handler's actions for one submission. Reading `success` or
      `message` of a `null` body throws, and the handler then takes its
      connection-failure path. */
  function Submit(o: Outcome): (trace: seq<Action>)
    ensures CountModals(trace) == 1 && trace[0].ShowModal?
    ensures ResetForm in trace <==> Succeeded(o)
    ensures Succeeded(o) ==> trace == [ShowModal(SuccessText(o.body.message)), ResetForm]
    ensures o.Responded? && o.body.Record? && !Succeeded(o) ==>
      trace == [ShowModal(ErrorPrefix + OrFallback(o.body.message))]
    ensures o.Failed? || o.body.NullBody? ==> trace == [ShowModal(ConnectionError)]
  {
    match o
    case Failed => [ShowModal(ConnectionError)]
    case Responded(_, NullBody) => [ShowModal(ConnectionError)]
    case Responded(ok, Record(success, message)) =>
      if ok && success then
        var one := [ShowModal(SuccessText(message))];
        assert one[..0] == [];
        assert CountModals(one) == 1;
        assert (one + [ResetForm])[..1] == one;
        one + [ResetForm]
      else [ShowModal(ErrorPrefix + OrFallback(message))]
  }

  /** The text of the one dialog a submission shows. */
  function ModalText(o: Outcome): (text: string)
    ensures ShowModal(text) in Submit(o)
    ensures forall a :: a in Submit(o) && a.ShowModal? ==> a.text == text
  {
    Submit(o)[0].text
  }

  /** The dialog's text on each of the handler's three paths. */
  lemma ModalTextCases(o: Outcome)
    ensures Succeeded(o) ==> ModalText(o) == SuccessText(o.body.message)
    ensures o.Failed? || o.body.NullBody? ==> ModalText(o) == ConnectionError
    ensures o.Responded? && o.body.Record? && !Succeeded(o) ==>
      ModalText(o) == ErrorPrefix + OrFallback(o.body.message)
  {
  }

  /** A successful reply with message "Sent" shows "Sent" and resets the form. */
  lemma SubmitSent()
    ensures Submit(Responded(true, Record(true, Some("Sent")))) == [ShowModal("Sent"), ResetForm]
  {
  }

  /** A refusal shows the server's message after the prefix, whether the
      HTTP status or the success flag refused, and does not reset. */
  lemma SubmitBadEmail(ok: bool)
    ensures Submit(Responded(ok, Record(false, Some("Bad email")))) == [ShowModal("Error: Bad email")]
    ensures Submit(Responded(false, Record(true, Some("Bad email")))) == [ShowModal("Error: Bad email")]
  {
    assert ErrorPrefix + "Bad email" == "Error: Bad email";
  }

  /** A refusal without a message falls back to the generic text. */
  lemma SubmitNoMessage(ok: bool)
    ensures Submit(Responded(ok, Record(false, None))) == [ShowModal(ErrorPrefix + FallbackError)]
    ensures Submit(Responded(ok, Record(false, Some("")))) == [ShowModal(ErrorPrefix + FallbackError)]
  {
  }

  /** A server that cannot be reached shows the connection message and does
      not reset. */
  lemma SubmitUnreachable()
    ensures Submit(Failed) == [ShowModal(ConnectionError)]
  {
  }

  /** Every message shown on a failed submission is either the connection
      message or starts with the error prefix. */
  lemma FailureTexts(o: Outcome)
    requires !Succeeded(o)
    ensures ModalText(o) == ConnectionError || ModalText(o)[..|ErrorPrefix|] == ErrorPrefix
  {
    if o.Responded? && o.body.Record? {
      assert ModalText(o) == ErrorPrefix + OrFallback(o.body.message);
    }
  }

  /** The four fields of the form. */
  datatype Fields = Fields(name: string, email: string, subject: string, message: string)

  /** The form element; `reset` restores the fields' default values. */
  class Form {
    var fields: Fields
    const defaults: Fields

    constructor (defaults0: Fields)
      ensures fields == defaults0 && defaults == defaults0
    {
      fields, defaults := defaults0, defaults0;
    }

    method Reset()
      modifies this
      ensures fields == defaults
    {
      fields := defaults;
    }
  }

  /** The continuation of the submit handler once the request has produced
      its outcome: one dialog, and a reset of the form on success only. */
  method OnOutcome(page: Modal.Page, form: Form, o: Outcome)
    requires page.Valid()
    modifies page, page.modal, form
    ensures page.Valid()
    ensures page.View() == Modal.Shown(old(page.View()), ModalText(o))
    ensures form.fields == if Succeeded(o) then form.defaults else old(form.fields)
  {
    // Every path of the handler calls `showModal` exactly once; only the
    // success path goes on to reset the form.
    var text := ModalText(o);
    page.ShowModal(text);
    if Succeeded(o) {
      form.Reset();
    }
  }
}
