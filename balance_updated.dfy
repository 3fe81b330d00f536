/** The `BalanceUpdated` broadcast event: its channel, its name and its payload. */
module BalanceUpdated {
  import opened Wrappers
  import opened Broadcasting
  import opened Transactions
  import Numerals

  /** The event as dispatched: the user's id and balance at dispatch, and the entry. */
  datatype Event = Event(userId: nat, balance: int, transaction: Transaction)

  /** The nested `transaction` object; `amount` is the entry's `decimal:2` text. */
  datatype TransactionView = TransactionView(id: nat, kind: string, amount: string, description: string)

  /** `broadcastWith()`; `change` is in cents. */
  datatype Payload = Payload(balance: int, change: int, transaction: TransactionView)

  const EventName := "balance.updated"
  const ChannelPrefix := "customer."

  /** `broadcastOn()`: the public channel `customer.<user id>`. */
  function BroadcastOn(e: Event): Channel
  {
    Channel(ChannelPrefix + Numerals.NatToString(e.userId), false)
  }

  /** `broadcastAs()`: always `balance.updated`. */
  function BroadcastAs(e: Event): (name: string)
    ensures name == EventName
  {
    EventName
  }

  /** `broadcastWith()`: the balance, the signed change and a copy of the entry. */
  function BroadcastWith(e: Event): Payload
  {
    var t := e.transaction;
    Payload(
      e.balance,
      if t.kind == TypeCredit then t.amount else -t.amount,
      TransactionView(t.id, t.kind, AmountText(t), t.description))
  }

  /**
   * The payload reports the user's balance, copies the entry's id, type and
   * description, and its amount text reads back as the entry's amount.
   */
  lemma PayloadCopiesEntry(e: Event)
    ensures BroadcastWith(e).balance == e.balance
    ensures BroadcastWith(e).transaction.id == e.transaction.id
    ensures BroadcastWith(e).transaction.kind == e.transaction.kind
    ensures BroadcastWith(e).transaction.description == e.transaction.description
    ensures Numerals.ParseDecimal2(BroadcastWith(e).transaction.amount) == Some(e.transaction.amount)
  {
  }

  /**
   * For an entry of a declared type the broadcast change is exactly what the
   * entry adds to its owner's balance; its magnitude is the entry amount and
   * it is positive exactly for a credit of a positive amount.
   */
  lemma ChangeIsSignedAmount(e: Event)
    requires e.transaction.kind in Types()
    ensures BroadcastWith(e).change == Signed(e.transaction)
    ensures e.transaction.amount >= 0 ==>
      (BroadcastWith(e).change == e.transaction.amount || BroadcastWith(e).change == -e.transaction.amount)
    ensures e.transaction.amount > 0 ==> (BroadcastWith(e).change > 0 <==> e.transaction.kind == TypeCredit)
  {
  }

  /** Two events share a channel exactly when they are about the same user. */
  lemma {:induction false} ChannelIdentifiesUser(e1: Event, e2: Event)
    ensures BroadcastOn(e1) == BroadcastOn(e2) <==> e1.userId == e2.userId
  {
    var s1, s2 := Numerals.NatToString(e1.userId), Numerals.NatToString(e2.userId);
    if BroadcastOn(e1) == BroadcastOn(e2) {
      assert (ChannelPrefix + s1)[|ChannelPrefix|..] == s1;
      assert (ChannelPrefix + s2)[|ChannelPrefix|..] == s2;
      Numerals.DigitsValueOfNatToString(e1.userId);
      Numerals.DigitsValueOfNatToString(e2.userId);
    }
  }
}
