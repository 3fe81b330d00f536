/**
 * `PaymentService`: processing a pending payment (debit the payer, mark it
 * processing, broadcast) and completing it (mark it completed, credit an
 * internal recipient, broadcast), each inside a database transaction that
 * rolls back when a step throws.
 *
 * Two things are parameters. The payer is reached through a relation of the
 * payment: `"user"` as the service is written, `"customer"` for the relation
 * the payment declares. The payments' `status` column accepts a list of
 * values: the four declared statuses as the schema is written, and those
 * plus the two the service writes as corrected. Every property of the
 * completed flow below is stated for the corrected pair; what the code as
 * written does is stated separately.
 */
module PaymentService {
  import opened Wrappers
  import opened Payments
  import opened Transactions
  import opened Users
  import opened Database
  import BalanceUpdated
  import PaymentStatusChanged

  const StatusProcessing := "processing"
  const StatusCompleted := "completed"

  /** The relation the service reads the payer through, as written. */
  const PayerRelationAsWritten := "user"

  /** The values the `status` column accepts as the schema is written: the declared statuses. */
  const StatusColumnAsWritten := Statuses()

  /** The column corrected to accept the statuses the service writes as well. */
  const StatusColumn := Statuses() + [StatusProcessing, StatusCompleted]

  /** The corrected column accepts both statuses the service writes. */
  lemma StatusColumnAccepts()
    ensures StatusProcessing in StatusColumn && StatusCompleted in StatusColumn
  {
    assert StatusColumn[4] == StatusProcessing && StatusColumn[5] == StatusCompleted;
  }

  /** Why a step threw: the payer relation read as null, or the database refused a status. */
  datatype Fault = PayerUnresolved | StatusRejected

  /** How a call ended: normally, or by an exception that rolled its transaction back. */
  datatype Outcome = Done | Threw(fault: Fault)

  /** The debit entry `processPayment` writes for payment `p` paid by `payer`. */
  function DebitEntry(t: Tables, p: Payment, payer: nat): Transaction
  {
    Transaction(|t.transactions| + 1, payer, p.id, TypeDebit, p.amount, "Payment to " + p.recipient)
  }

  /** The credit entry `completePayment` writes for recipient `rid`. */
  function CreditEntry(t: Tables, p: Payment, rid: nat, payerName: string): Transaction
  {
    Transaction(|t.transactions| + 1, rid, p.id, TypeCredit, p.amount, "Payment from " + payerName)
  }

  /**
   * `completePayment`: the payment becomes completed; when the recipient
   * email belongs to a user, that user gets a credit entry, their balance
   * grows by the amount and a balance update is dispatched; finally the
   * status change is dispatched. A refused status save, or reading the
   * payer's name through an undeclared relation, throws, and the
   * transaction rolls back.
   */
  function Complete(t: Tables, pid: nat, relation: string, column: seq<string>): (r: Result<Tables, Fault>)
    requires WellFormed(t) && 1 <= pid <= |t.payments|
    ensures r.Ok? ==> WellFormed(r.value) && |r.value.payments| == |t.payments| && |r.value.users| == |t.users|
  {
    var p := t.payments[pid - 1].(status := StatusCompleted);
    var ps := t.payments[pid - 1 := p];
    var done := Status(PaymentStatusChanged.Event(p));
    if StatusCompleted !in column then Err(StatusRejected)
    else match FindByEmail(t.users, p.recipient)
    case None => Ok(Tables(t.users, ps, t.transactions, t.events + [done]))
    case Some(rid) =>
      match Related(p, relation)
      case None => Err(PayerUnresolved)
      case Some(payer) =>
        var credit := CreditEntry(t, p, rid, t.users[payer - 1].name);
        var us := Adjust(t.users, rid, p.amount);
        Ok(Tables(us, ps, t.transactions + [credit],
          t.events + [Balance(BalanceUpdated.Event(rid, us[rid - 1].balance, credit)), done]))
  }

  /** The tables after the processing half of `processPayment`, before it completes the payment. */
  function Debited(t: Tables, pid: nat, payer: nat): (r: Tables)
    requires WellFormed(t) && 1 <= pid <= |t.payments| && 1 <= payer <= |t.users|
    ensures WellFormed(r) && |r.payments| == |t.payments| && |r.users| == |t.users|
  {
    var p := t.payments[pid - 1];
    var debit := DebitEntry(t, p, payer);
    var us := Adjust(t.users, payer, -p.amount);
    var q := p.(status := StatusProcessing);
    Tables(us, t.payments[pid - 1 := q], t.transactions + [debit],
      t.events + [Balance(BalanceUpdated.Event(payer, us[payer - 1].balance, debit)),
                  Status(PaymentStatusChanged.Event(q))])
  }

  /**
   * `processPayment`: a debit entry for the payer, the payer's balance
   * lowered by the amount, the payment marked processing, a balance update
   * and a status change dispatched, then `completePayment`; any exception
   * rolls all of it back.
   */
  function Process(t: Tables, pid: nat, relation: string, column: seq<string>): (r: Result<Tables, Fault>)
    requires WellFormed(t) && 1 <= pid <= |t.payments|
    ensures r.Ok? ==> WellFormed(r.value) && |r.value.payments| == |t.payments| && |r.value.users| == |t.users|
  {
    match Related(t.payments[pid - 1], relation)
    case None => Err(PayerUnresolved)
    case Some(payer) =>
      if StatusProcessing !in column then Err(StatusRejected)
      else Complete(Debited(t, pid, payer), pid, relation, column)
  }

  /**
   * As written, processing throws at its first step, whatever the payment
   * and whatever the column accepts, and so changes nothing.
   */
  lemma ProcessAsWrittenThrows(t: Tables, pid: nat, column: seq<string>)
    requires WellFormed(t) && 1 <= pid <= |t.payments|
    ensures Process(t, pid, PayerRelationAsWritten, column) == Err(PayerUnresolved)
  {
  }

  /**
   * With the payer relation corrected but the column as written, processing
   * still throws: the database refuses the `processing` status.
   */
  lemma ProcessColumnAsWrittenThrows(t: Tables, pid: nat)
    requires WellFormed(t) && 1 <= pid <= |t.payments|
    ensures Process(t, pid, CustomerRelation, StatusColumnAsWritten) == Err(StatusRejected)
  {
  }

  /**
   * Completing a payment on its own, as written, throws at the status save;
   * with only the column corrected it works for an external recipient and
   * throws for an internal one, at the payer's name.
   */
  lemma CompleteAsWrittenThrows(t: Tables, pid: nat)
    requires WellFormed(t) && 1 <= pid <= |t.payments|
    ensures Complete(t, pid, PayerRelationAsWritten, StatusColumnAsWritten) == Err(StatusRejected)
    ensures Complete(t, pid, PayerRelationAsWritten, StatusColumn).Err?
      <==> FindByEmail(t.users, t.payments[pid - 1].recipient).Some?
  {
    StatusColumnAccepts();
  }

  /** Corrected, completing never throws and keeps the tables well formed. */
  lemma CompleteSucceeds(t: Tables, pid: nat)
    requires WellFormed(t) && 1 <= pid <= |t.payments|
    ensures Complete(t, pid, CustomerRelation, StatusColumn).Ok?
    ensures WellFormed(Complete(t, pid, CustomerRelation, StatusColumn).value)
  {
    StatusColumnAccepts();
  }

  /**
   * Corrected, processing never throws and keeps the tables well formed;
   * the payment ends `completed`, no other payment changes, and `completed`
   * is not one of the declared statuses.
   */
  lemma ProcessSucceeds(t: Tables, pid: nat)
    requires WellFormed(t) && 1 <= pid <= |t.payments|
    ensures Process(t, pid, CustomerRelation, StatusColumn).Ok?
    ensures WellFormed(Process(t, pid, CustomerRelation, StatusColumn).value)
    ensures Process(t, pid, CustomerRelation, StatusColumn).value.payments
      == t.payments[pid - 1 := t.payments[pid - 1].(status := StatusCompleted)]
    ensures Process(t, pid, CustomerRelation, StatusColumn).value.payments[pid - 1].status !in Statuses()
  {
    StatusColumnAccepts();
    var p := t.payments[pid - 1];
    CompleteSucceeds(Debited(t, pid, p.customerId), pid);
  }

  /** The internal recipient of payment `pid`, if the recipient email belongs to a user. */
  function RecipientOf(t: Tables, pid: nat): Option<nat>
    requires 1 <= pid <= |t.payments|
  {
    FindByEmail(t.users, t.payments[pid - 1].recipient)
  }

  /**
   * Corrected processing is the debit half followed by completion, and the
   * debit half leaves the payment's recipient, amount and owner as they were.
   */
  lemma ProcessUnfolds(t: Tables, pid: nat)
    requires WellFormed(t) && 1 <= pid <= |t.payments|
    ensures var p := t.payments[pid - 1];
      var mid := Debited(t, pid, p.customerId);
      Process(t, pid, CustomerRelation, StatusColumn) == Complete(mid, pid, CustomerRelation, StatusColumn)
      && RecipientOf(mid, pid) == RecipientOf(t, pid)
      && mid.payments[pid - 1].amount == p.amount
      && mid.payments[pid - 1].customerId == p.customerId
      && mid.users == Adjust(t.users, p.customerId, -p.amount)
  {
    StatusColumnAccepts();
    var p := t.payments[pid - 1];
    var mid := Debited(t, pid, p.customerId);
    assert mid.payments[pid - 1] == p.(status := StatusProcessing);
    assert mid.users == Adjust(t.users, p.customerId, -p.amount);
    FindByEmailIgnoresBalance(t.users, p.customerId - 1, t.users[p.customerId - 1].balance - p.amount, p.recipient);
  }

  /**
   * The entries processing writes: the old entries stay, a debit of the
   * amount for the payer follows, and, exactly when the recipient is a
   * user, a credit of the same amount for that user; both name the payment.
   */
  lemma ProcessEntries(t: Tables, pid: nat)
    requires WellFormed(t) && 1 <= pid <= |t.payments|
    ensures Process(t, pid, CustomerRelation, StatusColumn).Ok?
    ensures var p, n := t.payments[pid - 1], |t.transactions|;
      var txs := Process(t, pid, CustomerRelation, StatusColumn).value.transactions;
      |txs| == n + 1 + (if RecipientOf(t, pid).Some? then 1 else 0)
      && txs[..n] == t.transactions
      && txs[n] == Transaction(n + 1, p.customerId, pid, TypeDebit, p.amount, "Payment to " + p.recipient)
      && (RecipientOf(t, pid).Some? ==>
            txs[n + 1] == Transaction(n + 2, RecipientOf(t, pid).value, pid, TypeCredit, p.amount,
                                      "Payment from " + t.users[p.customerId - 1].name))
  {
    StatusColumnAccepts();
    var p := t.payments[pid - 1];
    var mid := Debited(t, pid, p.customerId);
    FindByEmailIgnoresBalance(t.users, p.customerId - 1, t.users[p.customerId - 1].balance - p.amount, p.recipient);
    CompleteSucceeds(mid, pid);
  }

  /** Completing credits an internal recipient and changes no other user. */
  lemma CompleteBalances(t: Tables, pid: nat, uid: nat)
    requires WellFormed(t) && 1 <= pid <= |t.payments| && 1 <= uid <= |t.users|
    ensures Complete(t, pid, CustomerRelation, StatusColumn).Ok?
    ensures var p, us := t.payments[pid - 1], Complete(t, pid, CustomerRelation, StatusColumn).value.users;
      |us| == |t.users|
      && us[uid - 1].balance == t.users[uid - 1].balance + (if RecipientOf(t, pid) == Some(uid) then p.amount else 0)
      && us[uid - 1].name == t.users[uid - 1].name
      && us[uid - 1].email == t.users[uid - 1].email
  {
    StatusColumnAccepts();
  }

  /**
   * The balances processing leaves: the payer loses the amount, an internal
   * recipient gains it, nobody else changes, and nobody's name or email
   * changes. Processing does not look at the payer's balance.
   */
  lemma ProcessBalances(t: Tables, pid: nat, uid: nat)
    requires WellFormed(t) && 1 <= pid <= |t.payments| && 1 <= uid <= |t.users|
    ensures Process(t, pid, CustomerRelation, StatusColumn).Ok?
    ensures var p, us := t.payments[pid - 1], Process(t, pid, CustomerRelation, StatusColumn).value.users;
      |us| == |t.users|
      && us[uid - 1].balance == t.users[uid - 1].balance
           - (if uid == p.customerId then p.amount else 0)
           + (if RecipientOf(t, pid) == Some(uid) then p.amount else 0)
      && us[uid - 1].name == t.users[uid - 1].name
      && us[uid - 1].email == t.users[uid - 1].email
  {
    var p := t.payments[pid - 1];
    var mid := Debited(t, pid, p.customerId);
    ProcessUnfolds(t, pid);
    CompleteBalances(mid, pid, uid);
  }

  /**
   * Money is conserved between users: the sum of all balances is unchanged
   * when the recipient is a user, and drops by the amount when it is not.
   */
  lemma ProcessTotal(t: Tables, pid: nat)
    requires WellFormed(t) && 1 <= pid <= |t.payments|
    ensures Process(t, pid, CustomerRelation, StatusColumn).Ok?
    ensures TotalBalance(Process(t, pid, CustomerRelation, StatusColumn).value.users)
      == TotalBalance(t.users) - (if RecipientOf(t, pid).Some? then 0 else t.payments[pid - 1].amount)
  {
    StatusColumnAccepts();
    var p := t.payments[pid - 1];
    var mid := Debited(t, pid, p.customerId);
    assert mid.users == Adjust(t.users, p.customerId, -p.amount);
    TotalBalanceAdjust(t.users, p.customerId, -p.amount);
    FindByEmailIgnoresBalance(t.users, p.customerId - 1, t.users[p.customerId - 1].balance - p.amount, p.recipient);
    assert RecipientOf(mid, pid) == RecipientOf(t, pid);
    assert mid.payments[pid - 1].amount == p.amount;
    CompleteTotal(mid, pid);
  }

  /** Completing raises the sum of all balances by the amount exactly when the recipient is a user. */
  lemma CompleteTotal(t: Tables, pid: nat)
    requires WellFormed(t) && 1 <= pid <= |t.payments|
    ensures Complete(t, pid, CustomerRelation, StatusColumn).Ok?
    ensures TotalBalance(Complete(t, pid, CustomerRelation, StatusColumn).value.users)
      == TotalBalance(t.users) + (if RecipientOf(t, pid).Some? then t.payments[pid - 1].amount else 0)
  {
    StatusColumnAccepts();
    var p := t.payments[pid - 1];
    match RecipientOf(t, pid)
    case None =>
    case Some(rid) => TotalBalanceAdjust(t.users, rid, p.amount);
  }

  /** The debit half moves the payer's balance and net alike. */
  lemma DebitedKeepsDrift(t: Tables, pid: nat, payer: nat, uid: nat)
    requires WellFormed(t) && 1 <= pid <= |t.payments| && 1 <= payer <= |t.users| && 1 <= uid <= |t.users|
    ensures Drift(Debited(t, pid, payer), uid) == Drift(t, uid)
  {
    NetAppend(t.transactions, DebitEntry(t, t.payments[pid - 1], payer), uid);
  }

  /** Completing moves an internal recipient's balance and net alike. */
  lemma CompleteKeepsDrift(t: Tables, pid: nat, uid: nat)
    requires WellFormed(t) && 1 <= pid <= |t.payments| && 1 <= uid <= |t.users|
    ensures Complete(t, pid, CustomerRelation, StatusColumn).Ok?
    ensures Drift(Complete(t, pid, CustomerRelation, StatusColumn).value, uid) == Drift(t, uid)
  {
    StatusColumnAccepts();
    var p := t.payments[pid - 1].(status := StatusCompleted);
    var r := Complete(t, pid, CustomerRelation, StatusColumn).value;
    match FindByEmail(t.users, p.recipient)
    case None =>
      assert r.users == t.users && r.transactions == t.transactions;
    case Some(rid) =>
      var credit := CreditEntry(t, p, rid, t.users[p.customerId - 1].name);
      assert r.users == Adjust(t.users, rid, p.amount) && r.transactions == t.transactions + [credit];
      NetAppend(t.transactions, credit, uid);
  }

  /**
   * Every balance moves exactly as its owner's entries do: the gap between a
   * stored balance and the net of its owner's entries is unchanged.
   */
  lemma ProcessKeepsDrift(t: Tables, pid: nat, uid: nat)
    requires WellFormed(t) && 1 <= pid <= |t.payments| && 1 <= uid <= |t.users|
    ensures Process(t, pid, CustomerRelation, StatusColumn).Ok?
    ensures |Process(t, pid, CustomerRelation, StatusColumn).value.users| == |t.users|
    ensures Drift(Process(t, pid, CustomerRelation, StatusColumn).value, uid) == Drift(t, uid)
  {
    StatusColumnAccepts();
    var p := t.payments[pid - 1];
    var mid := Debited(t, pid, p.customerId);
    DebitedKeepsDrift(t, pid, p.customerId, uid);
    CompleteKeepsDrift(mid, pid, uid);
  }

  /** Processing keeps reconciled tables reconciled. */
  lemma ProcessReconciles(t: Tables, pid: nat)
    requires WellFormed(t) && 1 <= pid <= |t.payments| && Reconciled(t)
    ensures Process(t, pid, CustomerRelation, StatusColumn).Ok?
    ensures Reconciled(Process(t, pid, CustomerRelation, StatusColumn).value)
  {
    StatusColumnAccepts();
    var r := Process(t, pid, CustomerRelation, StatusColumn).value;
    forall uid | 1 <= uid <= |r.users|
      ensures Drift(r, uid) == 0
    {
      ProcessKeepsDrift(t, pid, uid);
    }
  }

  /**
   * The events processing dispatches, in order: the payer's balance update
   * for the debit, the `processing` status change, the recipient's balance
   * update for the credit when the recipient is a user, and the `completed`
   * status change. The two status changes carry their own messages.
   */
  lemma ProcessEvents(t: Tables, pid: nat)
    requires WellFormed(t) && 1 <= pid <= |t.payments|
    ensures Process(t, pid, CustomerRelation, StatusColumn).Ok?
    ensures var r, n, k := Process(t, pid, CustomerRelation, StatusColumn).value, |t.events|, |t.transactions|;
      var extra := if RecipientOf(t, pid).Some? then 1 else 0;
      |r.events| == n + 3 + extra
      && r.events[..n] == t.events
      && r.events[n].Balance? && r.events[n].balance.transaction == r.transactions[k]
      && r.events[n].balance.userId == t.payments[pid - 1].customerId
      && r.events[n].balance.balance == t.users[t.payments[pid - 1].customerId - 1].balance - t.payments[pid - 1].amount
      && r.events[n + 1].Status?
      && r.events[n + 1].status.payment.id == pid
      && PaymentStatusChanged.BroadcastWith(r.events[n + 1].status).message == PaymentStatusChanged.MessageProcessing
      && (extra == 1 ==> r.events[n + 2].Balance? && r.events[n + 2].balance.transaction == r.transactions[k + 1])
      && (extra == 1 ==> r.events[n + 2].balance.userId == RecipientOf(t, pid).value
                         && r.events[n + 2].balance.balance == r.users[RecipientOf(t, pid).value - 1].balance)
      && r.events[n + 2 + extra].Status?
      && r.events[n + 2 + extra].status.payment == r.payments[pid - 1]
      && r.events[n + 2 + extra].status.payment.id == pid
      && PaymentStatusChanged.BroadcastWith(r.events[n + 2 + extra].status).message == PaymentStatusChanged.MessageCompleted
  {
    var p := t.payments[pid - 1];
    var mid := Debited(t, pid, p.customerId);
    ProcessUnfolds(t, pid);
    CompleteEvents(mid, pid);
    var n, k := |t.events|, |t.transactions|;
    assert mid.events[..n] == t.events && |mid.events| == n + 2;
    assert mid.events[n].balance.balance == t.users[p.customerId - 1].balance - p.amount;
    assert mid.events[n + 1].status.payment.id == pid;
    assert mid.transactions[k] == DebitEntry(t, p, p.customerId) && |mid.transactions| == k + 1;
  }

  /**
   * The events completion dispatches after the earlier ones: the
   * recipient's balance update for the credit when the recipient is a user,
   * then the `completed` status change; earlier entries stay in place.
   */
  lemma CompleteEvents(t: Tables, pid: nat)
    requires WellFormed(t) && 1 <= pid <= |t.payments|
    ensures Complete(t, pid, CustomerRelation, StatusColumn).Ok?
    ensures var r, n, k := Complete(t, pid, CustomerRelation, StatusColumn).value, |t.events|, |t.transactions|;
      var extra := if RecipientOf(t, pid).Some? then 1 else 0;
      |r.events| == n + 1 + extra
      && r.events[..n] == t.events
      && |r.transactions| == k + extra
      && r.transactions[..k] == t.transactions
      && (extra == 1 ==> r.events[n].Balance? && r.events[n].balance.transaction == r.transactions[k])
      && (extra == 1 ==> r.events[n].balance.userId == RecipientOf(t, pid).value
                         && r.events[n].balance.balance == r.users[RecipientOf(t, pid).value - 1].balance)
      && r.events[n + extra].Status?
      && r.events[n + extra].status.payment == r.payments[pid - 1]
      && r.events[n + extra].status.payment.id == pid
      && PaymentStatusChanged.BroadcastWith(r.events[n + extra].status).message == PaymentStatusChanged.MessageCompleted
  {
    StatusColumnAccepts();
  }

  /**
   * Processing performs no balance check of its own: a payer whose balance
   * is below the amount, paying anyone but themselves, ends below zero.
   */
  lemma ProcessMayOverdraw(t: Tables, pid: nat)
    requires WellFormed(t) && 1 <= pid <= |t.payments|
    requires t.users[t.payments[pid - 1].customerId - 1].balance < t.payments[pid - 1].amount
    requires RecipientOf(t, pid) != Some(t.payments[pid - 1].customerId)
    ensures Process(t, pid, CustomerRelation, StatusColumn).Ok?
    ensures Process(t, pid, CustomerRelation, StatusColumn).value.users[t.payments[pid - 1].customerId - 1].balance < 0
  {
    StatusColumnAccepts();
    ProcessBalances(t, pid, t.payments[pid - 1].customerId);
  }

  /**
   * A payment to the payer's own email debits and credits the same user:
   * their balance ends where it started, with two new entries.
   */
  lemma SelfPaymentLeavesBalance(t: Tables, pid: nat)
    requires WellFormed(t) && 1 <= pid <= |t.payments|
    requires RecipientOf(t, pid) == Some(t.payments[pid - 1].customerId)
    ensures Process(t, pid, CustomerRelation, StatusColumn).Ok?
    ensures var uid := t.payments[pid - 1].customerId;
      Process(t, pid, CustomerRelation, StatusColumn).value.users[uid - 1].balance == t.users[uid - 1].balance
  {
    StatusColumnAccepts();
    ProcessBalances(t, pid, t.payments[pid - 1].customerId);
  }

  /**
   * The payment service; `payerRelation` is the relation it reads the payer
   * through. What the `status` column accepts is the ledger's.
   */
  class PaymentService {
    const payerRelation: string

    constructor (relation: string)
      ensures payerRelation == relation
    {
      payerRelation := relation;
    }

    /** `completePayment`: the store ends as `Complete` says, or rolled back when it throws. */
    method CompletePayment(db: Ledger, pid: nat) returns (o: Outcome)
      requires WellFormed(db.State()) && 1 <= pid <= |db.payments|
      modifies db
      ensures Complete(old(db.State()), pid, payerRelation, db.statusColumn).Ok? ==>
        o == Done && db.State() == Complete(old(db.State()), pid, payerRelation, db.statusColumn).value
      ensures Complete(old(db.State()), pid, payerRelation, db.statusColumn).Err? ==>
        o == Threw(Complete(old(db.State()), pid, payerRelation, db.statusColumn).error) && db.State() == old(db.State())
    {
      var snapshot := db.State();
      var p, saved := db.SetStatus(pid, StatusCompleted);
      if !saved {
        return Threw(StatusRejected);
      }
      var recipient := FindByEmail(db.users, p.recipient);
      if recipient.Some? {
        var payer := Related(p, payerRelation);
        if payer.None? {
          db.Restore(snapshot);
          return Threw(PayerUnresolved);
        }
        var credit := db.InsertTransaction(recipient.value, p.id, TypeCredit, p.amount,
                                           "Payment from " + db.users[payer.value - 1].name);
        var u := db.AddToBalance(recipient.value, p.amount);
        db.Dispatch(Balance(BalanceUpdated.Event(recipient.value, u.balance, credit)));
      }
      db.Dispatch(Status(PaymentStatusChanged.Event(p)));
      o := Done;
    }

    /** `processPayment`: the store ends as `Process` says, or rolled back when it throws. */
    method ProcessPayment(db: Ledger, pid: nat) returns (o: Outcome)
      requires WellFormed(db.State()) && 1 <= pid <= |db.payments|
      modifies db
      ensures Process(old(db.State()), pid, payerRelation, db.statusColumn).Ok? ==>
        o == Done && db.State() == Process(old(db.State()), pid, payerRelation, db.statusColumn).value
      ensures Process(old(db.State()), pid, payerRelation, db.statusColumn).Err? ==>
        o == Threw(Process(old(db.State()), pid, payerRelation, db.statusColumn).error) && db.State() == old(db.State())
    {
      var snapshot := db.State();
      var p := db.payments[pid - 1];
      var payer := Related(p, payerRelation);
      if payer.None? {
        return Threw(PayerUnresolved);
      }
      var debit := db.InsertTransaction(payer.value, p.id, TypeDebit, p.amount, "Payment to " + p.recipient);
      var u := db.AddToBalance(payer.value, -p.amount);
      var q, saved := db.SetStatus(pid, StatusProcessing);
      if !saved {
        db.Restore(snapshot);
        return Threw(StatusRejected);
      }
      db.Dispatch(Balance(BalanceUpdated.Event(payer.value, u.balance, debit)));
      db.Dispatch(Status(PaymentStatusChanged.Event(q)));
      assert db.State() == Debited(snapshot, pid, payer.value);
      o := CompletePayment(db, pid);
      if o.Threw? {
        db.Restore(snapshot);
      }
    }
  }
}
