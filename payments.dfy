/** The `Payment` model: status constants, the declared status list, its columns and its one relation. */
module Payments {
  import opened Wrappers
  import Numerals

  const StatusPending := "pending"
  const StatusSuccessful := "successful"
  const StatusFailed := "failed"
  const StatusRefunded := "refunded"

  /**
   * `Payment::statuses()`: the four declared statuses in declaration order.
   * The statuses the payment service writes are not among them.
   */
  function Statuses(): (r: seq<string>)
    ensures |r| == 4
    ensures r[0] == StatusPending && r[1] == StatusSuccessful && r[2] == StatusFailed && r[3] == StatusRefunded
    ensures forall i, j :: 0 <= i < j < |r| ==> r[i] != r[j]
    ensures "processing" !in r && "completed" !in r
  {
    [StatusPending, StatusSuccessful, StatusFailed, StatusRefunded]
  }

  /**
   * A row of the payments table. `amount` is in cents (the column is a
   * 2-decimal fixed-point number); `currency` and `description` are nullable.
   */
  datatype Payment = Payment(
    id: nat,
    customerId: nat,
    amount: int,
    currency: Option<string>,
    recipient: string,
    description: Option<string>,
    status: string)

  const CustomerRelation := "customer"

  /**
   * The dynamic relation property `$payment->{relation}`. The model declares
   * one relation, `customer`, a belongs-to through `customer_id`; any other
   * name is neither a column nor a relation and reads as null.
   */
  function Related(p: Payment, relation: string): (r: Option<nat>)
    ensures r.Some? <==> relation == CustomerRelation
    ensures r.Some? ==> r.value == p.customerId
  {
    if relation == CustomerRelation then Some(p.customerId) else None
  }

  /**
   * An integer key attribute `$payment->{column}`: the table has `id` and
   * `customer_id`; any other name reads as null.
   */
  function KeyColumn(p: Payment, column: string): (r: Option<nat>)
    ensures column == "id" ==> r == Some(p.id)
    ensures column == "customer_id" ==> r == Some(p.customerId)
    ensures column != "id" && column != "customer_id" ==> r == None
  {
    if column == "id" then Some(p.id)
    else if column == "customer_id" then Some(p.customerId)
    else None
  }

  /** Route-model binding and `findOrFail`: the first payment with that id, if any. */
  function FindById(ps: seq<Payment>, id: int): (r: Option<Payment>)
    ensures r.Some? ==> r.value in ps && r.value.id == id
    ensures r.None? ==> forall p :: p in ps ==> p.id != id
  {
    if ps == [] then None
    else if ps[0].id == id then Some(ps[0])
    else FindById(ps[1..], id)
  }

  /** The `decimal:2` cast of the amount: its text reads back as the same cents. */
  function AmountText(p: Payment): (s: string)
    ensures Numerals.ParseDecimal2(s) == Some(p.amount)
    ensures s[|s| - 3] == '.'
  {
    Numerals.Decimal2RoundTrip(p.amount);
    Numerals.Decimal2(p.amount)
  }
}
