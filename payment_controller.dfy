/**
 * The payments controller: `index` (the caller's payments, newest first, a
 * page at a time), `show` (one payment with its customer) and `store`
 * (validate, check the balance, create the payment pending and process it,
 * all in one database transaction).
 */
module PaymentController {
  import opened Wrappers
  import opened Payments
  import opened Users
  import opened Database
  import opened CreatePaymentRequest
  import PaymentService

  /** What `store` answers. */
  datatype Response =
    | Created(payment: Payment)      // 201 with the payment
    | Invalid(fields: set<string>)   // 422 with the failing fields
    | Insufficient                   // 422 "Insufficient balance"
    | ServerError                    // 500, the transaction rolled back

  const InsufficientMessage := "Insufficient balance"

  function StatusCode(r: Response): (code: int)
    ensures code == 201 <==> r.Created?
    ensures code == 422 <==> r.Invalid? || r.Insufficient?
    ensures code == 500 <==> r.ServerError?
  {
    match r
    case Created(_) => 201
    case Invalid(_) => 422
    case Insufficient => 422
    case ServerError => 500
  }

  /**
   * `$data['description']` as written: validated data holds only the keys
   * the request sent, so an omitted description is an undefined array key,
   * which the framework turns into an exception.
   */
  function DescriptionAsWritten(v: Input): Result<Option<string>, Input>
  {
    match v
    case Absent => Err(v)
    case Text(s) => Ok(Some(s))
    case _ => Ok(None)
  }

  /** The description column for a validated field: the text, or null when omitted or null. */
  function Description(v: Input): (d: Option<string>)
    ensures d.Some? <==> v.Text?
    ensures d.Some? ==> d.value == v.s
  {
    if v.Text? then Some(v.s) else None
  }

  /**
   * The two readings differ exactly on an omitted description: as written it
   * throws, corrected it stores null; on every other input they agree.
   */
  lemma DescriptionAsWrittenDiffers(v: Input)
    ensures DescriptionAsWritten(v).Err? <==> v.Absent?
    ensures !v.Absent? ==> DescriptionAsWritten(v) == Ok(Description(v))
    ensures v.Absent? ==> Description(v) == None
  {
  }

  /**
   * The row `store` creates: the next id, owned by the caller, pending; the
   * validated currency is not passed on, so the column stays null.
   */
  function PendingRow(t: Tables, uid: nat, data: Validated): (p: Payment)
    ensures p.id == |t.payments| + 1 && p.customerId == uid && p.status == StatusPending
    ensures p.amount == data.amount && p.recipient == data.recipient
    ensures p.currency == None && p.description == Description(data.description)
  {
    Payment(|t.payments| + 1, uid, data.amount, None, data.recipient, Description(data.description), StatusPending)
  }

  /** The tables with the pending row appended. */
  function WithPending(t: Tables, uid: nat, data: Validated): (r: Tables)
    requires WellFormed(t) && 1 <= uid <= |t.users|
    ensures WellFormed(r) && r.payments == t.payments + [PendingRow(t, uid, data)]
    ensures r.users == t.users && r.transactions == t.transactions && r.events == t.events
  {
    t.(payments := t.payments + [PendingRow(t, uid, data)])
  }

  /**
   * `store` for the authenticated user `uid`: the response and the tables
   * after it. A failing rule answers 422 with the fields; a balance below the
   * amount answers 422; otherwise the payment is created and processed, and
   * an exception anywhere rolls everything back and answers 500.
   */
  function Stored(t: Tables, uid: nat, req: PaymentRequest, relation: string, column: seq<string>): (Response, Tables)
    requires WellFormed(t) && 1 <= uid <= |t.users|
  {
    match Validate(req)
    case Err(fields) => (Invalid(fields), t)
    case Ok(data) =>
      if !HasSufficientBalance(t.users[uid - 1], data.amount) then (Insufficient, t)
      else
        var t1 := WithPending(t, uid, data);
        match PaymentService.Process(t1, |t1.payments|, relation, column)
        case Err(_) => (ServerError, t)
        case Ok(r) => (Created(r.payments[|t.payments|]), r)
  }

  /**
   * Corrected, `store` answers 422 with exactly the failing fields when a
   * rule fails, 422 when the balance is below the amount, and 201 otherwise,
   * never 500; whenever it does not answer 201 the tables are unchanged.
   */
  lemma StoreResponses(t: Tables, uid: nat, req: PaymentRequest)
    requires WellFormed(t) && 1 <= uid <= |t.users|
    ensures var (resp, r) := Stored(t, uid, req, CustomerRelation, PaymentService.StatusColumn);
      (resp.Invalid? <==> Validate(req).Err?)
      && (resp.Invalid? ==> resp.fields == FailingFields(req))
      && (resp.Insufficient? <==> Validate(req).Ok? && t.users[uid - 1].balance < Validate(req).value.amount)
      && !resp.ServerError?
      && (!resp.Created? ==> r == t)
  {
    match Validate(req)
    case Err(_) =>
    case Ok(data) =>
      if HasSufficientBalance(t.users[uid - 1], data.amount) {
        var t1 := WithPending(t, uid, data);
        PaymentService.ProcessSucceeds(t1, |t1.payments|);
      }
  }

  /**
   * Corrected, a created payment is the next row, owned by the caller, with
   * the validated amount, recipient and description, no currency, and status
   * `completed`; it is the only new payment.
   */
  lemma StoreCreates(t: Tables, uid: nat, req: PaymentRequest)
    requires WellFormed(t) && 1 <= uid <= |t.users|
    ensures var (resp, r) := Stored(t, uid, req, CustomerRelation, PaymentService.StatusColumn);
      resp.Created? ==>
        Validate(req).Ok?
        && resp.payment == PendingRow(t, uid, Validate(req).value).(status := PaymentService.StatusCompleted)
        && r.payments == t.payments + [resp.payment]
  {
    match Validate(req)
    case Err(_) =>
    case Ok(data) =>
      if HasSufficientBalance(t.users[uid - 1], data.amount) {
        var t1 := WithPending(t, uid, data);
        PaymentService.ProcessSucceeds(t1, |t1.payments|);
      }
  }

  /**
   * The balance guard holds: a caller whose balance was not negative still
   * has a balance that is not negative, whatever the request; everybody
   * else's balance only grows.
   */
  lemma StoreNeverOverdraws(t: Tables, uid: nat, req: PaymentRequest, other: nat)
    requires WellFormed(t) && 1 <= uid <= |t.users| && 1 <= other <= |t.users| && other != uid
    ensures var r := Stored(t, uid, req, CustomerRelation, PaymentService.StatusColumn).1;
      |r.users| == |t.users|
      && (t.users[uid - 1].balance >= 0 ==> r.users[uid - 1].balance >= 0)
      && r.users[other - 1].balance >= t.users[other - 1].balance
  {
    match Validate(req)
    case Err(_) =>
    case Ok(data) =>
      if HasSufficientBalance(t.users[uid - 1], data.amount) {
        var t1 := WithPending(t, uid, data);
        PaymentService.ProcessBalances(t1, |t1.payments|, uid);
        PaymentService.ProcessBalances(t1, |t1.payments|, other);
      }
  }

  /**
   * A balance exactly equal to the amount passes the guard: the payment is
   * created and, for a recipient who is not a user, the payer ends at zero.
   */
  lemma StoreExactBalance(t: Tables, uid: nat, req: PaymentRequest)
    requires WellFormed(t) && 1 <= uid <= |t.users|
    requires Validate(req).Ok? && t.users[uid - 1].balance == Validate(req).value.amount
    requires FindByEmail(t.users, Validate(req).value.recipient).None?
    ensures var (resp, r) := Stored(t, uid, req, CustomerRelation, PaymentService.StatusColumn);
      resp.Created? && r.users[uid - 1].balance == 0
  {
    var data := Validate(req).value;
    var t1 := WithPending(t, uid, data);
    var pid := |t1.payments|;
    assert t1.payments[pid - 1] == PendingRow(t, uid, data);
    assert PaymentService.RecipientOf(t1, pid) == None;
    PaymentService.ProcessSucceeds(t1, pid);
    PaymentService.ProcessBalances(t1, pid, uid);
  }

  /** `store` keeps the tables well formed and reconciled tables reconciled. */
  lemma StoreReconciles(t: Tables, uid: nat, req: PaymentRequest)
    requires WellFormed(t) && 1 <= uid <= |t.users| && Reconciled(t)
    ensures var r := Stored(t, uid, req, CustomerRelation, PaymentService.StatusColumn).1;
      WellFormed(r) && Reconciled(r)
  {
    match Validate(req)
    case Err(_) =>
    case Ok(data) =>
      if HasSufficientBalance(t.users[uid - 1], data.amount) {
        var t1 := WithPending(t, uid, data);
        assert Reconciled(t1) by {
          forall u | 1 <= u <= |t1.users| ensures Drift(t1, u) == 0 {
            assert Drift(t1, u) == Drift(t, u);
          }
        }
        PaymentService.ProcessReconciles(t1, |t1.payments|);
      }
  }

  /**
   * As written (payer read through `user`, whatever the status column
   * accepts), and with only the relation corrected (the column as
   * written), no request is ever created: a request that passes validation
   * and the balance guard answers 500 and leaves the tables unchanged.
   */
  lemma StoreAsWrittenNeverCreates(t: Tables, uid: nat, req: PaymentRequest, column: seq<string>)
    requires WellFormed(t) && 1 <= uid <= |t.users|
    ensures var (resp, r) := Stored(t, uid, req, PaymentService.PayerRelationAsWritten, column);
      !resp.Created? && r == t
      && (Validate(req).Ok? && HasSufficientBalance(t.users[uid - 1], Validate(req).value.amount) ==> resp == ServerError)
    ensures var (resp, r) := Stored(t, uid, req, CustomerRelation, PaymentService.StatusColumnAsWritten);
      !resp.Created? && r == t
      && (Validate(req).Ok? && HasSufficientBalance(t.users[uid - 1], Validate(req).value.amount) ==> resp == ServerError)
  {
    match Validate(req)
    case Err(_) =>
    case Ok(data) =>
      if HasSufficientBalance(t.users[uid - 1], data.amount) {
        var t1 := WithPending(t, uid, data);
        PaymentService.ProcessAsWrittenThrows(t1, |t1.payments|, column);
        PaymentService.ProcessColumnAsWrittenThrows(t1, |t1.payments|);
      }
  }

  /** Payments per page of `paginate()`. */
  const PerPage := 15

  /** `latest()`: newest first; rows are created in id order. */
  function Latest(ps: seq<Payment>): (r: seq<Payment>)
    ensures |r| == |ps|
    ensures forall k :: 0 <= k < |ps| ==> r[k] == ps[|ps| - 1 - k]
  {
    if ps == [] then [] else Latest(ps[1..]) + [ps[0]]
  }

  /** The `page` query parameter: a page below 1 reads as page 1. */
  function CurrentPage(page: int): (p: nat)
    ensures p >= 1 && (page >= 1 ==> p == page) && (page < 1 ==> p == 1)
  {
    if page >= 1 then page else 1
  }

  /** `paginate()`: the rows of page `page`, 15 to a page. */
  function Paged(rows: seq<Payment>, page: int): seq<Payment>
  {
    var start := (CurrentPage(page) - 1) * PerPage;
    if start >= |rows| then []
    else rows[start .. if start + PerPage <= |rows| then start + PerPage else |rows|]
  }

  /** Entry m of page q + 1 is row 15q + m. */
  lemma PagedEntry(rows: seq<Payment>, q: nat, m: nat)
    requires m < PerPage && q * PerPage + m < |rows|
    ensures m < |Paged(rows, q + 1)| && Paged(rows, q + 1)[m] == rows[q * PerPage + m]
  {
    assert CurrentPage(q + 1) - 1 == q;
  }

  /** `index`: page `page` of the caller's payments, newest first. */
  function Index(ps: seq<Payment>, uid: nat, page: int): seq<Payment>
  {
    Paged(Latest(PaymentsOf(ps, uid)), page)
  }

  /** A page is at most 15 of the rows. */
  lemma PagedWithin(rows: seq<Payment>, page: int)
    ensures |Paged(rows, page)| <= PerPage
    ensures forall p :: p in Paged(rows, page) ==> p in rows
  {
    var start := (CurrentPage(page) - 1) * PerPage;
    if start < |rows| {
      var end := if start + PerPage <= |rows| then start + PerPage else |rows|;
      var r := rows[start..end];
      assert Paged(rows, page) == r;
      forall p | p in r ensures p in rows {
        var k :| 0 <= k < |r| && r[k] == p;
        assert rows[start + k] == p;
      }
    }
  }

  /** `Latest` keeps the same rows. */
  lemma LatestSameRows(rows: seq<Payment>)
    ensures forall p :: p in Latest(rows) ==> p in rows
  {
    var r := Latest(rows);
    forall p | p in r ensures p in rows {
      var k :| 0 <= k < |r| && r[k] == p;
      assert rows[|rows| - 1 - k] == p;
    }
  }

  /** A page holds at most 15 payments, all of them the caller's. */
  lemma IndexOwnedOnly(ps: seq<Payment>, uid: nat, page: int)
    ensures |Index(ps, uid, page)| <= PerPage
    ensures forall p :: p in Index(ps, uid, page) ==> p in ps && p.customerId == uid
  {
    var mine := PaymentsOf(ps, uid);
    PagedWithin(Latest(mine), page);
    LatestSameRows(mine);
  }

  /** Ids strictly increase along the table. */
  predicate IdsIncreasing(ps: seq<Payment>)
  {
    forall i, j :: 0 <= i < j < |ps| ==> ps[i].id < ps[j].id
  }

  /** Ids strictly decrease along the list. */
  predicate IdsDecreasing(ps: seq<Payment>)
  {
    forall i, j :: 0 <= i < j < |ps| ==> ps[i].id > ps[j].id
  }

  /** Filtering by owner keeps increasing ids increasing. */
  lemma {:induction false} PaymentsOfIncreasing(ps: seq<Payment>, uid: nat)
    requires IdsIncreasing(ps)
    ensures IdsIncreasing(PaymentsOf(ps, uid))
  {
    if ps != [] {
      PaymentsOfIncreasing(ps[1..], uid);
      var rest := PaymentsOf(ps[1..], uid);
      forall p | p in rest ensures ps[0].id < p.id {
        var k :| 1 <= k < |ps| && ps[k] == p;
      }
    }
  }

  /** Reversing increasing ids makes them decrease. */
  lemma LatestDecreasing(rows: seq<Payment>)
    requires IdsIncreasing(rows)
    ensures IdsDecreasing(Latest(rows))
  {
    var r := Latest(rows);
    forall i, j | 0 <= i < j < |r| ensures r[i].id > r[j].id {
      assert r[i] == rows[|rows| - 1 - i] && r[j] == rows[|rows| - 1 - j];
    }
  }

  /** A page of a decreasing list decreases. */
  lemma PagedDecreasing(rows: seq<Payment>, page: int)
    requires IdsDecreasing(rows)
    ensures IdsDecreasing(Paged(rows, page))
  {
    var start := (CurrentPage(page) - 1) * PerPage;
    if start < |rows| {
      var end := if start + PerPage <= |rows| then start + PerPage else |rows|;
      var r := rows[start..end];
      assert Paged(rows, page) == r;
      forall i, j | 0 <= i < j < |r| ensures r[i].id > r[j].id {
        assert r[i] == rows[start + i] && r[j] == rows[start + j];
      }
    }
  }

  /** In well-formed tables every page lists the caller's payments newest first. */
  lemma IndexNewestFirst(t: Tables, uid: nat, page: int)
    requires WellFormed(t)
    ensures IdsDecreasing(Index(t.payments, uid, page))
  {
    assert IdsIncreasing(t.payments);
    var mine := PaymentsOf(t.payments, uid);
    PaymentsOfIncreasing(t.payments, uid);
    LatestDecreasing(mine);
    PagedDecreasing(Latest(mine), page);
  }

  /**
   * Every payment of the caller is on some page: the k-th newest is entry
   * k mod 15 of page k div 15 + 1.
   */
  lemma IndexCovers(ps: seq<Payment>, uid: nat, k: nat)
    requires k < |PaymentsOf(ps, uid)|
    ensures var page := Index(ps, uid, k / PerPage + 1);
      k % PerPage < |page| && page[k % PerPage] == Latest(PaymentsOf(ps, uid))[k]
  {
    var mine := PaymentsOf(ps, uid);
    PagedCovers(Latest(mine), k);
  }

  /** Row k of a list is entry k mod 15 of page k div 15 + 1. */
  lemma PagedCovers(rows: seq<Payment>, k: nat)
    requires k < |rows|
    ensures k % PerPage < |Paged(rows, k / PerPage + 1)|
    ensures Paged(rows, k / PerPage + 1)[k % PerPage] == rows[k]
  {
    var q, m := k / PerPage, k % PerPage;
    DivideByPage(k);
    PagedEntry(rows, q, m);
  }

  lemma DivideByPage(k: nat)
    ensures k == (k / PerPage) * PerPage + k % PerPage && 0 <= k % PerPage < PerPage
  {
  }

  /** `show`: the payment with its customer loaded, or 404; the caller is not consulted. */
  function Show(t: Tables, id: int): (r: Result<(Payment, User), int>)
    requires WellFormed(t)
    ensures r.Err? <==> forall p :: p in t.payments ==> p.id != id
    ensures r.Err? ==> r.error == 404
    ensures r.Ok? ==> r.value.0 in t.payments && r.value.0.id == id
    ensures r.Ok? ==> r.value.1 == t.users[r.value.0.customerId - 1]
  {
    match FindById(t.payments, id)
    case None => Err(404)
    case Some(p) =>
      assert exists i :: 0 <= i < |t.payments| && t.payments[i] == p;
      Ok((p, t.users[p.customerId - 1]))
  }

  /** The controller, holding the payment service it was constructed with. */
  class PaymentController {
    const paymentService: PaymentService.PaymentService

    constructor (service: PaymentService.PaymentService)
      ensures paymentService == service
    {
      paymentService := service;
    }

    /** `store`: the response and the new tables are as `Stored` says. */
    method Store(db: Ledger, uid: nat, req: PaymentRequest) returns (resp: Response)
      requires WellFormed(db.State()) && 1 <= uid <= |db.users|
      modifies db
      ensures (resp, db.State()) == Stored(old(db.State()), uid, req, paymentService.payerRelation, db.statusColumn)
    {
      var validated := Validate(req);
      if validated.Err? {
        return Invalid(validated.error);
      }
      var data := validated.value;
      if !HasSufficientBalance(db.users[uid - 1], data.amount) {
        return Insufficient;
      }
      var snapshot := db.State();
      var row := db.InsertPayment(PendingRow(snapshot, uid, data));
      assert db.State() == WithPending(snapshot, uid, data);
      var o := paymentService.ProcessPayment(db, row.id);
      if o.Threw? {
        db.Restore(snapshot);
        return ServerError;
      }
      resp := Created(db.payments[row.id - 1]);
    }
  }
}
