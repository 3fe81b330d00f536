/** The `PaymentStatusChanged` broadcast event: its channel, its name, its payload and its message. */
module PaymentStatusChanged {
  import opened Broadcasting
  import opened Payments
  import Numerals

  /** The event as dispatched, with the payment as it was at dispatch. */
  datatype Event = Event(payment: Payment)

  /** `broadcastWith()`. */
  datatype Payload = Payload(paymentId: nat, status: string, message: string)

  const EventName := "payment.status.updated"
  const ChannelPrefix := "payment."

  const MessagePending := "Payment initiated"
  const MessageProcessing := "Payment being processed"
  const MessageCompleted := "Payment processed successfully"
  const MessageOther := "Payment status updated"

  /** `broadcastOn()`: the public channel `payment.<payment id>`. */
  function BroadcastOn(e: Event): Channel
  {
    Channel(ChannelPrefix + Numerals.NatToString(e.payment.id), false)
  }

  /** `broadcastAs()`: always `payment.status.updated`. */
  function BroadcastAs(e: Event): (name: string)
    ensures name == EventName
  {
    EventName
  }

  /**
   * `getStatusMessage()`: total over status strings; pending, processing and
   * completed get their own messages and every other status, including the
   * declared `successful`, `failed` and `refunded`, gets the generic one.
   */
  function StatusMessage(status: string): (m: string)
    ensures m == MessagePending <==> status == "pending"
    ensures m == MessageProcessing <==> status == "processing"
    ensures m == MessageCompleted <==> status == "completed"
    ensures m == MessageOther <==> status != "pending" && status != "processing" && status != "completed"
  {
    match status
    case "pending" => MessagePending
    case "processing" => MessageProcessing
    case "completed" => MessageCompleted
    case _ => MessageOther
  }

  /** `broadcastWith()`: the payment's id and current status, and the status message. */
  function BroadcastWith(e: Event): (p: Payload)
    ensures p.paymentId == e.payment.id && p.status == e.payment.status
    ensures p.message == StatusMessage(e.payment.status)
  {
    Payload(e.payment.id, e.payment.status, StatusMessage(e.payment.status))
  }

  /** Of the declared statuses only `pending` has a message of its own. */
  lemma DeclaredStatusMessages()
    ensures forall s :: s in Statuses() && s != StatusPending ==> StatusMessage(s) == MessageOther
  {
  }
}
