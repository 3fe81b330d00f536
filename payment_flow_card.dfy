/**
 * The payment card's state logic: the form validator, the status machine
 * driven by payment-status events for the current payment, the form reset,
 * and the submission through the API. Amounts are in cents.
 */
module PaymentFlowCard {
  import opened Wrappers

  datatype Status = Idle | Validating | Processing | Success | Failed

  /**
   * The amount field as `parseFloat` reads it: empty, not a number (NaN),
   * or a number of cents.
   */
  datatype AmountInput = Blank | NotANumber | Amount(cents: int)

  datatype FormData = FormData(amount: AmountInput, description: string, kind: string)

  datatype FormErrors = FormErrors(amount: Option<string>, description: Option<string>, kind: Option<string>)

  /**
   * The payment shown after submission; a field the source leaves undefined
   * is `None`.
   */
  datatype PaymentData = PaymentData(
    id: Option<string>,
    amount: Option<int>,
    description: Option<string>,
    kind: Option<string>,
    status: Status,
    transactionId: Option<string>)

  /** A payment-status event as the card reads it. */
  datatype StatusEvent = StatusEvent(paymentId: string, status: string, transactionId: Option<string>)

  /** The `payment` object of a submission's response body. */
  datatype PaymentJson = PaymentJson(id: string, amount: Option<int>, description: Option<string>,
                                     kind: Option<string>, transactionId: Option<string>)

  /** The submission's response: not ok, or a body that may lack the `payment` key. */
  datatype ApiResponse = NotOk | Body(payment: Option<PaymentJson>)

  const MaxAmount := 1000000  // $10,000 in cents
  const MaxDescription := 255
  const AmountPositiveMessage := "Please enter a valid amount greater than 0"
  const AmountMaxMessage := "Amount cannot exceed $10,000"
  const KindMessage := "Please select a payment type"
  const DescriptionMessage := "Description cannot exceed 255 characters"

  const NoErrors := FormErrors(None, None, None)
  const DefaultForm := FormData(Blank, "", "payment")

  /**
   * The errors `validateForm` reports: the "cannot exceed" check runs second
   * and overwrites the "greater than 0" one; NaN fails neither comparison.
   */
  function ExpectedErrors(f: FormData): FormErrors
  {
    FormErrors(
      if f.amount.Amount? && f.amount.cents > MaxAmount then Some(AmountMaxMessage)
      else if f.amount.Blank? || (f.amount.Amount? && f.amount.cents <= 0) then Some(AmountPositiveMessage)
      else None,
      if |f.description| > MaxDescription then Some(DescriptionMessage) else None,
      if f.kind == "" then Some(KindMessage) else None)
  }

  /**
   * A form is valid exactly when the amount is present and, when it is a
   * number, within 0 < amount <= $10,000, the type is set and the
   * description is at most 255 characters. A non-numeric amount passes.
   */
  lemma ValidIff(f: FormData)
    ensures ExpectedErrors(f) == NoErrors <==>
      !f.amount.Blank?
      && (f.amount.Amount? ==> 0 < f.amount.cents <= MaxAmount)
      && f.kind != ""
      && |f.description| <= MaxDescription
    ensures f.amount == NotANumber && f.kind != "" && |f.description| <= MaxDescription
      ==> ExpectedErrors(f) == NoErrors
  {
  }

  /** The amount message names the upper bound exactly when the amount exceeds it. */
  lemma AmountMessageChoice(f: FormData)
    ensures ExpectedErrors(f).amount == Some(AmountMaxMessage) <==> f.amount.Amount? && f.amount.cents > MaxAmount
    ensures ExpectedErrors(f).amount == Some(AmountPositiveMessage)
      <==> f.amount.Blank? || (f.amount.Amount? && f.amount.cents <= 0)
  {
  }

  /**
   * How a status event for the current payment moves the card: the new
   * status, progress and reset delay; `None` for statuses it ignores.
   */
  function Transition(status: string): (r: Option<(Status, nat, Option<nat>)>)
    ensures r.Some? <==> status in {"processing", "completed", "failed"}
    ensures r.Some? ==> r.value.1 <= 100
  {
    match status
    case "processing" => Some((Processing, 70, None))
    case "completed" => Some((Success, 100, Some(8000)))
    case "failed" => Some((Failed, 0, Some(5000)))
    case _ => None
  }

  /** `isProcessing`: a submission is in flight. */
  function IsProcessing(s: Status): bool
  {
    s == Validating || s == Processing
  }

  /**
   * Of the statuses the client declares, `processing` keeps the card busy,
   * `completed` and `failed` settle it, and `pending` and `refunded` are
   * ignored; only the settling ones schedule a reset.
   */
  lemma TransitionTable()
    ensures Transition("processing").Some? && IsProcessing(Transition("processing").value.0)
    ensures Transition("completed").Some? && !IsProcessing(Transition("completed").value.0)
      && Transition("completed").value.0 == Success && Transition("completed").value.1 == 100
    ensures Transition("failed").Some? && !IsProcessing(Transition("failed").value.0)
      && Transition("failed").value.0 == Failed && Transition("failed").value.1 == 0
    ensures Transition("pending").None? && Transition("refunded").None?
    ensures forall s :: Transition(s).Some? ==> (Transition(s).value.2.None? <==> IsProcessing(Transition(s).value.0))
  {
  }

  /** The payment the card shows after a successful submission, still processing. */
  function ShownPayment(p: PaymentJson): (d: PaymentData)
    ensures d.id == Some(p.id) && d.status == Processing
  {
    PaymentData(Some(p.id), p.amount, p.description, p.kind, Processing, p.transactionId)
  }

  /** JavaScript truthiness of an optional id: present and not empty. */
  predicate Truthy(id: Option<string>)
  {
    id.Some? && id.value != ""
  }

  /** The event is about the current payment: an id is set, truthy, and equal to the event's. */
  predicate IsCurrent(current: Option<string>, ev: StatusEvent)
  {
    Truthy(current) && current.value == ev.paymentId
  }

  /** The card's state; its status message is not modelled. */
  class FlowCard {
    var formData: FormData
    var status: Status
    var errors: FormErrors
    var progress: int
    var paymentData: Option<PaymentData>
    var currentPaymentId: Option<string>

    ghost predicate Valid()
      reads this
    {
      0 <= progress <= 100
    }

    constructor ()
      ensures Valid() && formData == DefaultForm && status == Idle
      ensures errors == NoErrors && progress == 0 && paymentData == None && currentPaymentId == None
    {
      formData, status := DefaultForm, Idle;
      errors, progress, paymentData, currentPaymentId := NoErrors, 0, None, None;
    }

    /** `validateForm`: the errors are filled field by field; the form is valid when there are none. */
    method ValidateForm() returns (ok: bool)
      modifies this`errors
      ensures errors == ExpectedErrors(formData)
      ensures ok <==> errors == NoErrors
    {
      var e := NoErrors;
      var amount := formData.amount;
      if amount.Blank? || (amount.Amount? && amount.cents <= 0) {
        e := e.(amount := Some(AmountPositiveMessage));
      }
      if amount.Amount? && amount.cents > MaxAmount {
        e := e.(amount := Some(AmountMaxMessage));
      }
      if formData.kind == "" {
        e := e.(kind := Some(KindMessage));
      }
      if |formData.description| > MaxDescription {
        e := e.(description := Some(DescriptionMessage));
      }
      errors := e;
      ok := e == NoErrors;
    }

    /** `resetForm`: back to idle with the default form; errors and the current id are kept. */
    method ResetForm()
      modifies this
      ensures Valid()
      ensures status == Idle && progress == 0 && paymentData == None
      ensures formData == DefaultForm
      ensures errors == old(errors) && currentPaymentId == old(currentPaymentId)
    {
      status, progress, paymentData := Idle, 0, None;
      formData := DefaultForm;
    }

    /** The reset timer: the current payment is forgotten and the form reset. */
    method OnResetTimer()
      modifies this
      ensures Valid()
      ensures currentPaymentId == None && status == Idle && progress == 0 && paymentData == None
      ensures formData == DefaultForm && errors == old(errors)
    {
      currentPaymentId := None;
      ResetForm();
    }

    /**
     * The payment-status listener: an event for another payment, or while no
     * payment is current, changes nothing; otherwise the event's status moves
     * the card as `Transition` says, a completion marks the shown payment as
     * a success with the event's transaction id, and the reset delay is returned.
     */
    method OnPaymentStatus(ev: StatusEvent) returns (resetDelay: Option<nat>)
      requires Valid()
      modifies this
      ensures Valid()
      ensures formData == old(formData) && errors == old(errors) && currentPaymentId == old(currentPaymentId)
      ensures !(IsCurrent(old(currentPaymentId), ev) && Transition(ev.status).Some?) ==>
        (resetDelay == None && status == old(status) && progress == old(progress) && paymentData == old(paymentData))
      ensures IsCurrent(old(currentPaymentId), ev) && Transition(ev.status).Some? ==>
        (status, progress, resetDelay) == Transition(ev.status).value
      ensures IsCurrent(old(currentPaymentId), ev) && ev.status == "completed" ==>
        (paymentData.Some? && paymentData.value.status == Success
         && paymentData.value.transactionId == ev.transactionId)
      ensures IsCurrent(old(currentPaymentId), ev) && ev.status == "completed" && old(paymentData).Some? ==>
        (paymentData.Some? && paymentData.value.id == old(paymentData).value.id
         && paymentData.value.amount == old(paymentData).value.amount
         && paymentData.value.description == old(paymentData).value.description
         && paymentData.value.kind == old(paymentData).value.kind)
      ensures IsCurrent(old(currentPaymentId), ev) && ev.status == "completed" && old(paymentData).None? ==>
        (paymentData.Some? && paymentData.value.id.None? && paymentData.value.amount.None?
         && paymentData.value.description.None? && paymentData.value.kind.None?)
      ensures IsCurrent(old(currentPaymentId), ev) && ev.status != "completed" ==> paymentData == old(paymentData)
    {
      resetDelay := None;
      if !IsCurrent(currentPaymentId, ev) {
        return;
      }
      match ev.status {
        case "processing" =>
          status, progress := Processing, 70;
        case "completed" =>
          status, progress := Success, 100;
          var prev := if paymentData.Some? then paymentData.value
                      else PaymentData(None, None, None, None, Idle, None);
          paymentData := Some(prev.(status := Success, transactionId := ev.transactionId));
          resetDelay := Some(8000);
        case "failed" =>
          status, progress := Failed, 0;
          resetDelay := Some(5000);
        case _ =>
      }
    }

    /**
     * `processPayment` with a session token, from validation to the API's
     * answer. An invalid form changes nothing but the errors. A response that
     * is not ok, or whose body has no `payment` object, fails the card, clears
     * the current payment and schedules a reset after 5 s; otherwise the card
     * keeps processing at 90% and waits for the status event.
     */
    method SubmitWithToken(response: ApiResponse) returns (resetDelay: Option<nat>)
      requires Valid()
      modifies this
      ensures Valid() && formData == old(formData)
      ensures errors == ExpectedErrors(formData)
      ensures errors != NoErrors ==>
        (status == old(status) && progress == old(progress) && paymentData == old(paymentData)
         && currentPaymentId == old(currentPaymentId) && resetDelay == None)
      ensures errors == NoErrors && (response.NotOk? || response.payment.None?) ==>
        (status == Failed && progress == 0 && currentPaymentId == None && resetDelay == Some(5000)
         && paymentData == old(paymentData))
      ensures errors == NoErrors && response.Body? && response.payment.Some? ==>
        (status == Processing && progress == 90 && resetDelay == None
         && currentPaymentId == Some(response.payment.value.id)
         && paymentData == Some(ShownPayment(response.payment.value)))
    {
      resetDelay := None;
      var ok := ValidateForm();
      if !ok {
        return;
      }
      status, progress := Validating, 10;
      progress := 30;
      status := Processing;
      progress := 60;
      if response.NotOk? || response.payment.None? {
        status, progress, currentPaymentId := Failed, 0, None;
        resetDelay := Some(5000);
        return;
      }
      var p := response.payment.value;
      currentPaymentId := Some(p.id);
      progress := 90;
      paymentData := Some(ShownPayment(p));
    }
  }
}
