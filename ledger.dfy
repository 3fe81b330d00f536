/**
 * The server's persistent state: the users, payments and transactions
 * tables and the log of broadcast events, as one value (`Tables`) and as the
 * mutable store the request handlers update step by step (`Ledger`).
 * Row ids are 1-based positions in their table.
 */
module Database {
  import opened Payments
  import opened Transactions
  import opened Users
  import BalanceUpdated
  import PaymentStatusChanged

  /** A dispatched broadcast event. */
  datatype Event =
    | Balance(balance: BalanceUpdated.Event)
    | Status(status: PaymentStatusChanged.Event)

  datatype Tables = Tables(
    users: seq<User>,
    payments: seq<Payment>,
    transactions: seq<Transaction>,
    events: seq<Event>)

  /**
   * Referential integrity: ids are positions, every foreign key names an
   * existing row, and every entry has a declared type.
   */
  predicate WellFormed(t: Tables)
  {
    (forall i :: 0 <= i < |t.payments| ==>
      t.payments[i].id == i + 1 && 1 <= t.payments[i].customerId <= |t.users|)
    && (forall i :: 0 <= i < |t.transactions| ==>
      t.transactions[i].id == i + 1
      && 1 <= t.transactions[i].userId <= |t.users|
      && 1 <= t.transactions[i].paymentId <= |t.payments|
      && t.transactions[i].kind in Types())
  }

  /** How far user `uid`'s stored balance is from the net of their entries. */
  function Drift(t: Tables, uid: nat): int
    requires 1 <= uid <= |t.users|
  {
    t.users[uid - 1].balance - Net(t.transactions, uid)
  }

  /** Every stored balance equals the net of its owner's entries. */
  predicate Reconciled(t: Tables)
  {
    forall uid :: 1 <= uid <= |t.users| ==> Drift(t, uid) == 0
  }

  /**
   * The tables and the event log, updated one row at a time.
   * `statusColumn` is the list of values the payments' `status` column
   * accepts; saving any other value is refused by the database.
   */
  class Ledger {
    const statusColumn: seq<string>
    var users: seq<User>
    var payments: seq<Payment>
    var transactions: seq<Transaction>
    var events: seq<Event>

    function State(): Tables
      reads this
    {
      Tables(users, payments, transactions, events)
    }

    constructor (t: Tables, column: seq<string>)
      ensures State() == t && statusColumn == column
    {
      statusColumn := column;
      users, payments, transactions, events := t.users, t.payments, t.transactions, t.events;
    }

    /** Rolling back a database transaction: the tables return to a snapshot. */
    method Restore(t: Tables)
      modifies this
      ensures State() == t
    {
      users, payments, transactions, events := t.users, t.payments, t.transactions, t.events;
    }

    /** `create()` on a relation: the row gets the next id and is appended. */
    method InsertTransaction(owner: nat, paymentId: nat, kind: string, amount: int, description: string)
      returns (tx: Transaction)
      modifies this
      ensures tx == Transaction(|old(transactions)| + 1, owner, paymentId, kind, amount, description)
      ensures State() == old(State()).(transactions := old(transactions) + [tx])
    {
      tx := Transaction(|transactions| + 1, owner, paymentId, kind, amount, description);
      transactions := transactions + [tx];
    }

    /** `create()` on a customer's payments: the row gets the next id and is appended. */
    method InsertPayment(p: Payment) returns (row: Payment)
      modifies this
      ensures row == p.(id := |old(payments)| + 1)
      ensures State() == old(State()).(payments := old(payments) + [row])
    {
      row := p.(id := |payments| + 1);
      payments := payments + [row];
    }

    /** `$user->balance += $delta; $user->save()`: only that user's balance changes. */
    method AddToBalance(uid: nat, delta: int) returns (u: User)
      requires 1 <= uid <= |users|
      modifies this
      ensures State() == old(State()).(users := Adjust(old(users), uid, delta))
      ensures u == users[uid - 1]
    {
      users := Adjust(users, uid, delta);
      u := users[uid - 1];
    }

    /**
     * `$payment->status = ...; $payment->save()`: the row changes when the
     * column accepts the value; otherwise the save is refused and nothing changes.
     */
    method SetStatus(pid: nat, status: string) returns (p: Payment, saved: bool)
      requires 1 <= pid <= |payments|
      modifies this
      ensures p == old(payments)[pid - 1].(status := status)
      ensures saved <==> status in statusColumn
      ensures saved ==> State() == old(State()).(payments := old(payments)[pid - 1 := p])
      ensures !saved ==> State() == old(State())
    {
      p := payments[pid - 1].(status := status);
      saved := status in statusColumn;
      if saved {
        payments := payments[pid - 1 := p];
      }
    }

    /** `event(...)`: the event joins the broadcast log. */
    method Dispatch(e: Event)
      modifies this
      ensures State() == old(State()).(events := old(events) + [e])
    {
      events := events + [e];
    }
  }
}
