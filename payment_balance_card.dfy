/**
 * The balance card's state logic: the reducer for incoming balance updates,
 * the state update after fetching the balance, the bounded newest-first
 * recent-activity list, and the relative-time label. Amounts are in cents;
 * times are elapsed milliseconds.
 */
module PaymentBalanceCard {
  import opened Wrappers
  import Numerals

  datatype Kind = Credit | Debit

  /** An entry of the recent-activity list; its id and timestamp are not modelled. */
  datatype Activity = Activity(kind: Kind, amount: int, description: string, status: string)

  /**
   * A balance update as the card reads it: the new balance, the
   * `previous_balance` field (absent when the sender leaves it out) and the
   * signed change.
   */
  datatype BalanceEvent = BalanceEvent(balance: int, previousBalance: Option<int>, change: int)

  /** What the balance endpoint returned: the balance and, if present, `recent_transactions`. */
  datatype FetchedBalance = FetchedBalance(balance: int, recent: Option<seq<Activity>>)

  /** The most entries the list keeps after an update. */
  const RecentLimit := 5

  const FetchFailed := "Failed to fetch balance"

  /** The entry a nonzero change adds: a credit when positive, with the change's magnitude. */
  function EntryFor(change: int): (a: Activity)
    requires change != 0
    ensures a.kind == Credit <==> change > 0
    ensures a.amount > 0 && (a.amount == change || a.amount == -change)
    ensures a.status == "completed"
  {
    if change > 0 then Activity(Credit, change, "Payment received", "completed")
    else Activity(Debit, -change, "Payment processed", "completed")
  }

  /** `[entry, ...prev.slice(0, 4)]`: the new entry first, then the four newest old ones in order. */
  function Prepend(list: seq<Activity>, entry: Activity): (r: seq<Activity>)
    ensures |r| == if |list| < RecentLimit then |list| + 1 else RecentLimit
    ensures r[0] == entry
    ensures forall k :: 1 <= k < |r| ==> r[k] == list[k - 1]
  {
    [entry] + (if |list| <= RecentLimit - 1 then list else list[..RecentLimit - 1])
  }

  /** The list after a series of updates, oldest first, each prepended in turn. */
  function Replay(list: seq<Activity>, entries: seq<Activity>): seq<Activity>
  {
    if entries == [] then list
    else Prepend(Replay(list, entries[..|entries| - 1]), entries[|entries| - 1])
  }

  /** After any series of updates the list holds at most five entries. */
  lemma ReplayBounded(list: seq<Activity>, entries: seq<Activity>)
    requires entries != []
    ensures |Replay(list, entries)| <= RecentLimit
  {
  }

  /**
   * After any series of updates the i-th entry of the list, for i below
   * five, is the i-th newest update.
   */
  lemma {:induction false} ReplayNewestFirst(list: seq<Activity>, entries: seq<Activity>, i: nat)
    requires i < |entries| && i < RecentLimit
    ensures i < |Replay(list, entries)| && Replay(list, entries)[i] == entries[|entries| - 1 - i]
  {
    var init := entries[..|entries| - 1];
    if i > 0 {
      ReplayNewestFirst(list, init, i - 1);
      assert init[|init| - 1 - (i - 1)] == entries[|entries| - 1 - i];
    }
  }

  /** A label's unit. */
  datatype Unit = Minutes | Hours | Days

  function UnitMinutes(u: Unit): nat
  {
    match u
    case Minutes => 1
    case Hours => 60
    case Days => 1440
  }

  function Suffix(u: Unit): string
  {
    match u
    case Minutes => "m ago"
    case Hours => "h ago"
    case Days => "d ago"
  }

  /** Whole minutes elapsed, rounded down (for a negative time too). */
  function ElapsedMinutes(elapsedMs: int): int
  {
    elapsedMs / 60000
  }

  /**
   * The bucket `formatRelativeTime` puts a number of whole minutes in: none
   * below one minute, else minutes below an hour, whole hours below a day,
   * whole days beyond; the count is the time rounded down in that unit.
   */
  function Bucket(minutes: int): (b: Option<(nat, Unit)>)
    ensures b.None? <==> minutes < 1
    ensures b.Some? ==> b.value.0 >= 1
    ensures b.Some? ==>
      b.value.0 * UnitMinutes(b.value.1) <= minutes < (b.value.0 + 1) * UnitMinutes(b.value.1)
    ensures b.Some? ==> (b.value.1 == Minutes <==> minutes < 60)
    ensures b.Some? ==> (b.value.1 == Days <==> minutes >= 1440)
  {
    if minutes < 1 then None
    else if minutes < 60 then Some((minutes, Minutes))
    else if minutes < 1440 then Some((minutes / 60, Hours))
    else Some((minutes / 1440, Days))
  }

  /** `formatRelativeTime` for an elapsed time in milliseconds. */
  function FormatRelativeTime(elapsedMs: int): string
  {
    match Bucket(ElapsedMinutes(elapsedMs))
    case None => "Just now"
    case Some((n, u)) => Numerals.NatToString(n) + Suffix(u)
  }

  /** A counted label starts with a digit, unlike "Just now". */
  lemma LabelStartsWithDigit(n: nat, u: Unit)
    ensures Numerals.IsDigit((Numerals.NatToString(n) + Suffix(u))[0])
    ensures !Numerals.IsDigit("Just now"[0])
  {
    var s := Numerals.NatToString(n);
    assert (s + Suffix(u))[0] == s[0];
  }

  /** Two elapsed times get the same label exactly when they fall in the same bucket. */
  lemma {:induction false} FormatRelativeTimeDistinguishes(ms1: int, ms2: int)
    ensures FormatRelativeTime(ms1) == FormatRelativeTime(ms2)
      <==> Bucket(ElapsedMinutes(ms1)) == Bucket(ElapsedMinutes(ms2))
  {
    var b1, b2 := Bucket(ElapsedMinutes(ms1)), Bucket(ElapsedMinutes(ms2));
    if b1.Some? {
      LabelStartsWithDigit(b1.value.0, b1.value.1);
    }
    if b2.Some? {
      LabelStartsWithDigit(b2.value.0, b2.value.1);
    }
    if FormatRelativeTime(ms1) == FormatRelativeTime(ms2) && b1.Some? && b2.Some? {
      var (n1, u1) := b1.value;
      var (n2, u2) := b2.value;
      var s1, s2 := Numerals.NatToString(n1), Numerals.NatToString(n2);
      assert |s1| == |s2|;
      assert (s1 + Suffix(u1))[|s1|] == Suffix(u1)[0];
      assert (s2 + Suffix(u2))[|s2|] == Suffix(u2)[0];
      assert (s1 + Suffix(u1))[..|s1|] == s1;
      assert (s2 + Suffix(u2))[..|s2|] == s2;
      Numerals.DigitsValueOfNatToString(n1);
      Numerals.DigitsValueOfNatToString(n2);
    }
  }

  /** `getTransactionIcon`: north-east arrow for a credit, south-west for a debit. */
  function Icon(k: Kind): string
  {
    if k == Credit then "\U{2197}" else "\U{2199}"
  }

  /** `getTransactionColor`: green for a credit, red for a debit. */
  function Color(k: Kind): string
  {
    if k == Credit then "text-green-600" else "text-red-600"
  }

  /** The icon and the colour each tell a credit from a debit. */
  lemma IconAndColorDistinguishKinds(k1: Kind, k2: Kind)
    ensures Icon(k1) == Icon(k2) <==> k1 == k2
    ensures Color(k1) == Color(k2) <==> k1 == k2
  {
  }

  /** The card's state. */
  class BalanceCard {
    var current: int
    var previous: Option<int>
    var balanceChange: Option<int>
    var activity: seq<Activity>
    var error: Option<string>
    var isLoading: bool

    constructor ()
      ensures current == 0 && previous == Some(0) && balanceChange == None
      ensures activity == [] && error == None && isLoading
    {
      current, previous, balanceChange := 0, Some(0), None;
      activity, error, isLoading := [], None, true;
    }

    /**
     * The balance-update listener: the balance takes the event's values, the
     * change indicator shows the difference from the old balance when there
     * is one, and a nonzero change adds an entry at the head of the list.
     */
    method OnBalanceUpdate(ev: BalanceEvent)
      modifies this
      ensures current == ev.balance && previous == ev.previousBalance
      ensures balanceChange == if ev.balance != old(current) then Some(ev.balance - old(current)) else old(balanceChange)
      ensures activity == if ev.change != 0 then Prepend(old(activity), EntryFor(ev.change)) else old(activity)
      ensures error == old(error) && isLoading == old(isLoading)
    {
      var change := ev.balance - current;
      if change != 0 {
        balanceChange := Some(change);
      }
      current := ev.balance;
      previous := ev.previousBalance;
      if ev.change != 0 {
        activity := [EntryFor(ev.change)] + if |activity| <= 4 then activity else activity[..4];
      }
    }

    /** The three-second timer: the change indicator disappears. */
    method ClearChangeIndicator()
      modifies this`balanceChange
      ensures balanceChange == None
    {
      balanceChange := None;
    }

    /**
     * `fetchBalance` with the endpoint's answer (`None` for a failed request);
     * without a token nothing happens. On success the old balance becomes the
     * previous one and the list is replaced by the returned entries.
     */
    method FetchBalance(hasToken: bool, response: Option<FetchedBalance>)
      modifies this
      ensures !hasToken ==> (current == old(current) && previous == old(previous)
        && balanceChange == old(balanceChange) && activity == old(activity)
        && error == old(error) && isLoading == old(isLoading))
      ensures hasToken ==> !isLoading
      ensures hasToken && response.None? ==> (error == Some(FetchFailed)
        && current == old(current) && previous == old(previous)
        && balanceChange == old(balanceChange) && activity == old(activity))
      ensures hasToken && response.Some? ==> (error == None
        && current == response.value.balance && previous == Some(old(current))
        && activity == (if response.value.recent.Some? then response.value.recent.value else [])
        && balanceChange == (if response.value.balance != old(current)
                             then Some(response.value.balance - old(current)) else old(balanceChange)))
    {
      if !hasToken {
        return;
      }
      error := None;
      if response.None? {
        error := Some(FetchFailed);
      } else {
        var data := response.value;
        var change := data.balance - current;
        if change != 0 {
          balanceChange := Some(change);
        }
        previous := Some(current);
        current := data.balance;
        activity := if data.recent.Some? then data.recent.value else [];
      }
      isLoading := false;
    }

    /** `fetchTransactions`: a successful answer replaces the list (`None` for a failed request). */
    method FetchTransactions(hasToken: bool, response: Option<Option<seq<Activity>>>)
      modifies this`activity
      ensures activity == if hasToken && response.Some? then
        (if response.value.Some? then response.value.value else []) else old(activity)
    {
      if hasToken && response.Some? {
        activity := if response.value.Some? then response.value.value else [];
      }
    }
  }
}
