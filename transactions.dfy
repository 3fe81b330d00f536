/** The `Transaction` model (a ledger entry): type constants, the declared type list and the entry row. */
module Transactions {
  import opened Wrappers
  import Numerals

  const TypeCredit := "credit"
  const TypeDebit := "debit"

  /** `Transaction::types()`: credit, then debit; the two are distinct. */
  function Types(): (r: seq<string>)
    ensures |r| == 2 && r[0] == TypeCredit && r[1] == TypeDebit
    ensures r[0] != r[1]
  {
    [TypeCredit, TypeDebit]
  }

  /**
   * A row of the transactions table: it belongs to the user `userId` and to
   * the payment `paymentId`; `amount` is in cents.
   */
  datatype Transaction = Transaction(
    id: nat,
    userId: nat,
    paymentId: nat,
    kind: string,
    amount: int,
    description: string)

  /** What an entry contributes to its owner's balance: + for a credit, - for a debit. */
  function Signed(t: Transaction): int
  {
    if t.kind == TypeCredit then t.amount
    else if t.kind == TypeDebit then -t.amount
    else 0
  }

  /** The net of all entries owned by `uid`: credits minus debits. */
  function Net(txs: seq<Transaction>, uid: nat): int
  {
    if txs == [] then 0
    else Net(txs[..|txs| - 1], uid) + (if txs[|txs| - 1].userId == uid then Signed(txs[|txs| - 1]) else 0)
  }

  /** Appending an entry moves only its owner's net, by its signed amount. */
  lemma NetAppend(txs: seq<Transaction>, t: Transaction, uid: nat)
    ensures Net(txs + [t], uid) == Net(txs, uid) + (if t.userId == uid then Signed(t) else 0)
  {
    assert (txs + [t])[..|txs|] == txs;
  }

  /** The `decimal:2` cast of the amount: its text reads back as the same cents. */
  function AmountText(t: Transaction): (s: string)
    ensures Numerals.ParseDecimal2(s) == Some(t.amount)
    ensures s[|s| - 3] == '.'
  {
    Numerals.Decimal2RoundTrip(t.amount);
    Numerals.Decimal2(t.amount)
  }
}
