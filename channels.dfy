/**
 * The channel authorisation callbacks: who may join `customer.{userId}` and
 * `payment.{paymentId}`, the HTTP status the authorisation endpoint answers
 * with, and who receives what is broadcast on a channel.
 */
module Channels {
  import opened Wrappers
  import opened Numerals
  import opened Payments
  import opened Broadcasting
  import BalanceUpdated
  import PaymentStatusChanged

  datatype AuthError =
    | NoMatchingChannel   // no registered pattern matches the name
    | NotAnInteger        // the parameter cannot be passed as an `int`
    | ModelNotFound       // `findOrFail` found no payment

  const CustomerPattern := "customer."
  const PaymentPattern := "payment."

  /** The column the payment callback compares, as written: `$payment->user_id`. */
  const PaymentOwnerColumnAsWritten := "user_id"
  /** The column that holds a payment's owner. */
  const PaymentOwnerColumn := "customer_id"

  /** Matches `prefix{param}`: the parameter is the non-empty, dot-free rest of the name. */
  function MatchParameter(prefix: string, name: string): (r: Option<string>)
    ensures r.Some? ==> name == prefix + r.value && r.value != [] && '.' !in r.value
  {
    if |prefix| < |name| && name[..|prefix|] == prefix && '.' !in name[|prefix|..] then
      Some(name[|prefix|..])
    else None
  }

  lemma MatchParameterOf(prefix: string, param: string)
    requires param != [] && '.' !in param
    ensures MatchParameter(prefix, prefix + param) == Some(param)
  {
    assert (prefix + param)[..|prefix|] == prefix;
    assert (prefix + param)[|prefix|..] == param;
  }

  /** `customer.{userId}`: `(int) $user->id === $userId`. */
  function AuthorizeCustomer(userId: nat, param: string): (r: Result<bool, AuthError>)
    ensures r.Err? <==> ParseInt(param).None?
    ensures r.Ok? ==> (r.value <==> ParseInt(param) == Some(userId))
  {
    match ParseInt(param)
    case None => Err(NotAnInteger)
    case Some(id) => Ok(id == userId)
  }

  /**
   * `payment.{paymentId}`: find the payment or fail, then compare the
   * attribute `ownerColumn` of the payment with the user's id (strictly, so a
   * null attribute never matches).
   */
  function AuthorizePayment(userId: nat, ps: seq<Payment>, param: string, ownerColumn: string): Result<bool, AuthError>
  {
    match ParseInt(param)
    case None => Err(NotAnInteger)
    case Some(id) =>
      match FindById(ps, id)
      case None => Err(ModelNotFound)
      case Some(p) => Ok(KeyColumn(p, ownerColumn) == Some(userId))
  }

  /**
   * As written, the payment callback reads `user_id`, which payments do not
   * have: every existing payment is refused to everyone, its owner included,
   * and a missing payment is an error rather than a refusal.
   */
  lemma PaymentChannelAsWrittenDeniesOwner(userId: nat, ps: seq<Payment>, p: Payment)
    requires p in ps
    ensures AuthorizePayment(userId, ps, NatToString(p.id), PaymentOwnerColumnAsWritten) == Ok(false)
  {
    ParseIntOfNatToString(p.id);
  }

  /** Read through `customer_id`, the payment channel admits exactly the payment's owner. */
  lemma PaymentChannelOwnerOnly(userId: nat, ps: seq<Payment>, id: nat)
    ensures FindById(ps, id).None? ==>
      AuthorizePayment(userId, ps, NatToString(id), PaymentOwnerColumn) == Err(ModelNotFound)
    ensures FindById(ps, id).Some? ==>
      AuthorizePayment(userId, ps, NatToString(id), PaymentOwnerColumn)
        == Ok(FindById(ps, id).value.customerId == userId)
  {
    ParseIntOfNatToString(id);
  }

  /**
   * The broadcasting authorisation endpoint: the first registered pattern
   * that matches the channel name decides; no match is a refusal. The payment
   * callback reads the owner through `customer_id`.
   */
  function Authorize(userId: nat, ps: seq<Payment>, name: string): Result<bool, AuthError>
  {
    match MatchParameter(CustomerPattern, name)
    case Some(param) => AuthorizeCustomer(userId, param)
    case None =>
      match MatchParameter(PaymentPattern, name)
      case Some(param) => AuthorizePayment(userId, ps, param, PaymentOwnerColumn)
      case None => Err(NoMatchingChannel)
  }

  /** The endpoint's HTTP status: 200 granted, 403 refused, 404 missing payment, 500 bad parameter. */
  function HttpStatus(r: Result<bool, AuthError>): int
  {
    match r
    case Ok(granted) => if granted then 200 else 403
    case Err(NoMatchingChannel) => 403
    case Err(NotAnInteger) => 500
    case Err(ModelNotFound) => 404
  }

  /** A user may join `customer.<id>` exactly when `<id>` is their own id. */
  lemma CustomerChannelOwnerOnly(userId: nat, ps: seq<Payment>, id: nat)
    ensures Authorize(userId, ps, CustomerPattern + NatToString(id)) == Ok(userId == id)
  {
    MatchParameterOf(CustomerPattern, NatToString(id));
    ParseIntOfNatToString(id);
  }

  /** The endpoint answers 200 for the user's own customer channel and 403 for the next id. */
  lemma CustomerChannelStatuses(userId: nat, ps: seq<Payment>)
    ensures HttpStatus(Authorize(userId, ps, CustomerPattern + NatToString(userId))) == 200
    ensures HttpStatus(Authorize(userId, ps, CustomerPattern + NatToString(userId + 1))) == 403
  {
    CustomerChannelOwnerOnly(userId, ps, userId);
    CustomerChannelOwnerOnly(userId, ps, userId + 1);
  }

  /**
   * Whether a client authenticated as `userId` receives what is broadcast on
   * `ch`: a public channel needs no authorisation, a private one needs the
   * endpoint to grant it.
   */
  function MayReceive(userId: nat, ps: seq<Payment>, ch: Channel): bool
  {
    !ch.isPrivate || Authorize(userId, ps, ch.name) == Ok(true)
  }

  /** As written, balance updates go to a public channel: every user receives every user's updates. */
  lemma BalanceBroadcastReachesEveryone(e: BalanceUpdated.Event, userId: nat, ps: seq<Payment>)
    ensures MayReceive(userId, ps, BalanceUpdated.BroadcastOn(e))
  {
  }

  /** The same channel made private. */
  function PrivateBalanceChannel(e: BalanceUpdated.Event): Channel
  {
    BalanceUpdated.BroadcastOn(e).(isPrivate := true)
  }

  /** On the private channel only the user the update is about receives it. */
  lemma PrivateBalanceChannelOwnerOnly(e: BalanceUpdated.Event, userId: nat, ps: seq<Payment>)
    ensures MayReceive(userId, ps, PrivateBalanceChannel(e)) <==> userId == e.userId
  {
    CustomerChannelOwnerOnly(userId, ps, e.userId);
  }

  /** As written, payment status updates go to a public channel too. */
  lemma StatusBroadcastReachesEveryone(e: PaymentStatusChanged.Event, userId: nat, ps: seq<Payment>)
    ensures MayReceive(userId, ps, PaymentStatusChanged.BroadcastOn(e))
  {
  }

  /** The payment's channel made private. */
  function PrivateStatusChannel(e: PaymentStatusChanged.Event): Channel
  {
    PaymentStatusChanged.BroadcastOn(e).(isPrivate := true)
  }

  /**
   * On the private payment channel, when the payment is the only one with its
   * id, only its owner receives its status updates.
   */
  lemma PrivateStatusChannelOwnerOnly(e: PaymentStatusChanged.Event, userId: nat, ps: seq<Payment>)
    requires e.payment in ps
    requires forall p :: p in ps && p.id == e.payment.id ==> p == e.payment
    ensures MayReceive(userId, ps, PrivateStatusChannel(e)) <==> userId == e.payment.customerId
  {
    var param := NatToString(e.payment.id);
    MatchParameterOf(PaymentPattern, param);
    assert MatchParameter(CustomerPattern, PaymentPattern + param).None? by {
      assert (PaymentPattern + param)[..|CustomerPattern|] != CustomerPattern by {
        assert (PaymentPattern + param)[0] == 'p';
      }
    }
    PaymentChannelOwnerOnly(userId, ps, e.payment.id);
  }
}
