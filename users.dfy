/**
 * The `User` model as the payment flow sees it: the balance check, the two
 * has-many relations, the lookup by email and the sum of all balances.
 * A user's id is its 1-based position in the users table.
 */
module Users {
  import opened Wrappers
  import opened Payments
  import opened Transactions

  datatype User = User(name: string, email: string, balance: int)

  /** `hasSufficientBalance`: the balance covers the amount; an equal balance is enough. */
  function HasSufficientBalance(u: User, amount: int): (r: bool)
    ensures r <==> amount <= u.balance
  {
    u.balance >= amount
  }

  /** Sufficiency is monotone: a larger balance or a smaller amount stays sufficient. */
  lemma SufficientBalanceMonotone(u: User, amount: int, b: int, a: int)
    requires HasSufficientBalance(u, amount) && b >= u.balance && a <= amount
    ensures HasSufficientBalance(u.(balance := b), a)
  {
  }

  /** `payments()`: the payments whose `customer_id` is `uid`, in table order. */
  function PaymentsOf(ps: seq<Payment>, uid: nat): (r: seq<Payment>)
    ensures forall p :: p in r <==> p in ps && p.customerId == uid
    ensures |r| <= |ps|
  {
    if ps == [] then []
    else (if ps[0].customerId == uid then [ps[0]] else []) + PaymentsOf(ps[1..], uid)
  }

  /** `transactions()`: the entries whose `user_id` is `uid`, in table order. */
  function TransactionsOf(txs: seq<Transaction>, uid: nat): (r: seq<Transaction>)
    ensures forall t :: t in r <==> t in txs && t.userId == uid
    ensures |r| <= |txs|
  {
    if txs == [] then []
    else (if txs[0].userId == uid then [txs[0]] else []) + TransactionsOf(txs[1..], uid)
  }

  /**
   * `User::where('email', $email)->first()`: the id of the first user, in
   * table order, whose email is exactly `email`, or none.
   */
  function FindByEmail(us: seq<User>, email: string): (r: Option<nat>)
    ensures r.Some? ==> 1 <= r.value <= |us| && us[r.value - 1].email == email
    ensures r.Some? ==> forall j :: 0 <= j < r.value - 1 ==> us[j].email != email
    ensures r.None? ==> forall j :: 0 <= j < |us| ==> us[j].email != email
  {
    if us == [] then None
    else if us[0].email == email then Some(1)
    else match FindByEmail(us[1..], email)
      case None => None
      case Some(k) => Some(k + 1)
  }

  /** The lookup reads emails only: changing a balance does not change who is found. */
  lemma FindByEmailIgnoresBalance(us: seq<User>, i: nat, b: int, email: string)
    requires i < |us|
    ensures FindByEmail(us[i := us[i].(balance := b)], email) == FindByEmail(us, email)
  {
    var vs := us[i := us[i].(balance := b)];
    assert forall j :: 0 <= j < |us| ==> vs[j].email == us[j].email;
    var r1, r2 := FindByEmail(vs, email), FindByEmail(us, email);
    if r1.Some? {
      assert us[r1.value - 1].email == email;
    }
    if r2.Some? {
      assert vs[r2.value - 1].email == email;
    }
  }

  /** Adds `delta` to the balance of user `uid` (`$user->balance += $delta; $user->save()`). */
  function Adjust(us: seq<User>, uid: nat, delta: int): (r: seq<User>)
    requires 1 <= uid <= |us|
    ensures |r| == |us|
    ensures r[uid - 1].balance == us[uid - 1].balance + delta
    ensures r[uid - 1].name == us[uid - 1].name && r[uid - 1].email == us[uid - 1].email
    ensures forall j :: 0 <= j < |us| && j != uid - 1 ==> r[j] == us[j]
  {
    us[uid - 1 := us[uid - 1].(balance := us[uid - 1].balance + delta)]
  }

  /** The sum of all balances. */
  function TotalBalance(us: seq<User>): int
  {
    if us == [] then 0 else us[0].balance + TotalBalance(us[1..])
  }

  /** Adjusting one balance by `delta` moves the total by exactly `delta`. */
  lemma {:induction false} TotalBalanceAdjust(us: seq<User>, uid: nat, delta: int)
    requires 1 <= uid <= |us|
    ensures TotalBalance(Adjust(us, uid, delta)) == TotalBalance(us) + delta
  {
    var r := Adjust(us, uid, delta);
    if uid == 1 {
      assert r[1..] == us[1..];
    } else {
      assert r[1..] == Adjust(us[1..], uid - 1, delta);
      TotalBalanceAdjust(us[1..], uid - 1, delta);
    }
  }
}
