/**
 * What reaches the client of what the server broadcasts: the event names
 * the client routes, the channels it subscribes to, and how a balance
 * update shows up on the balance card.
 */
module Delivery {
  import opened Wrappers
  import opened Numerals
  import opened Transactions
  import BalanceUpdated
  import PaymentStatusChanged
  import WebSocket
  import PaymentBalanceCard

  /** The server's balance updates reach the client's `balanceUpdated` listeners. */
  lemma BalanceUpdatesRouted()
    ensures WebSocket.Route(BalanceUpdated.EventName) == Some(WebSocket.BalanceLocal)
  {
  }

  /**
   * The server names status changes `payment.status.updated`, which the
   * client re-emits under that same name, never as `paymentStatusChanged`:
   * the status listeners are not invoked by them.
   */
  lemma StatusUpdatesNotRouted()
    ensures WebSocket.Route(PaymentStatusChanged.EventName) == Some(PaymentStatusChanged.EventName)
    ensures WebSocket.Route(PaymentStatusChanged.EventName) != Some(WebSocket.PaymentStatusLocal)
  {
  }

  /** The client subscribes to `customer.<id>`: the channel balance updates for that user go to. */
  lemma ClientSubscribesToOwnBalanceChannel(e: BalanceUpdated.Event)
    ensures BalanceUpdated.BroadcastOn(e).name == "customer." + NatToString(e.userId)
  {
  }

  /**
   * The client's second subscription, `payments.<id>`, is never the channel
   * of any payment's status changes, `payment.<payment id>`.
   */
  lemma ClientNeverSubscribesToStatusChannel(customerId: string, e: PaymentStatusChanged.Event)
    ensures "payments." + customerId != PaymentStatusChanged.BroadcastOn(e).name
  {
    var digits := NatToString(e.payment.id);
    var name := PaymentStatusChanged.BroadcastOn(e).name;
    assert name == "payment." + digits;
    assert name[7] == '.';
    assert ("payments." + customerId)[7] == 's';
  }

  /**
   * The `data` member of a frame as the listener receives it. On the Pusher
   * protocol, which Laravel Reverb speaks, a channel event carries its
   * payload JSON-encoded as a string; the client parses the frame once and
   * hands `data` on as it is (`Encoded`). `Decoded` is the object the
   * listener's type declares.
   */
  datatype WireData = Encoded(json: string) | Decoded(payload: BalanceUpdated.Payload)

  /** A numeric property read off the data: a number, or `undefined`. */
  datatype JsValue = Num(n: int) | Undefined

  /** `event.balance`: a string has no such property. */
  function ReadBalance(d: WireData): JsValue
  {
    match d
    case Encoded(_) => Undefined
    case Decoded(p) => Num(p.balance)
  }

  /** `event.change`: a string has no such property. */
  function ReadChange(d: WireData): JsValue
  {
    match d
    case Encoded(_) => Undefined
    case Decoded(p) => Num(p.change)
  }

  /** The activity entry the card's listener adds: its kind, its amount (`None` for NaN) and its description. */
  datatype Shown = Shown(kind: PaymentBalanceCard.Kind, amount: Option<int>, description: string)

  /**
   * The listener's entry for `event.change`: none for a zero change. An
   * undefined change passes `!== 0`, fails `> 0`, and `Math.abs` of it is NaN.
   */
  function ShownEntry(change: JsValue): Option<Shown>
  {
    match change
    case Undefined => Some(Shown(PaymentBalanceCard.Debit, None, "Payment processed"))
    case Num(c) =>
      if c == 0 then None
      else
        var a := PaymentBalanceCard.EntryFor(c);
        Some(Shown(a.kind, Some(a.amount), a.description))
  }

  /**
   * Were the payload decoded, the update for a positive amount would appear
   * on the card as a "Payment processed" debit of that amount for a debit
   * and as a "Payment received" credit of that amount for a credit.
   */
  lemma EntryShownForUpdate(e: BalanceUpdated.Event)
    requires e.transaction.kind in Types() && e.transaction.amount > 0
    ensures var d := Decoded(BalanceUpdated.BroadcastWith(e));
      ReadBalance(d) == Num(e.balance)
      && ShownEntry(ReadChange(d)) ==
         if e.transaction.kind == TypeDebit
         then Some(Shown(PaymentBalanceCard.Debit, Some(e.transaction.amount), "Payment processed"))
         else Some(Shown(PaymentBalanceCard.Credit, Some(e.transaction.amount), "Payment received"))
  {
    BalanceUpdated.ChangeIsSignedAmount(e);
  }

  /**
   * As the client hands the data on, every balance update, a credit
   * included, leaves the card's balance undefined and adds a "Payment
   * processed" debit whose amount is not a number; decoded, a credit of a
   * positive amount would show as a credit of that amount.
   */
  lemma EncodedUpdateShownAsDebit(e: BalanceUpdated.Event, json: string)
    requires e.transaction.kind == TypeCredit && e.transaction.amount > 0
    ensures ReadBalance(Encoded(json)) == Undefined
    ensures ShownEntry(ReadChange(Encoded(json))) == Some(Shown(PaymentBalanceCard.Debit, None, "Payment processed"))
    ensures ShownEntry(ReadChange(Decoded(BalanceUpdated.BroadcastWith(e))))
      == Some(Shown(PaymentBalanceCard.Credit, Some(e.transaction.amount), "Payment received"))
  {
    EntryShownForUpdate(e);
  }
}
