/**
 * The client's websocket wrapper: the listener registry behind `on`, its
 * unsubscribe closure and `emit`; the routing of incoming messages; the
 * reconnect policy (capped exponential backoff); `send` gating and the
 * connection-state names.
 *
 * Callbacks are identified by a number; a JavaScript `Set` keeps insertion
 * order, so a set of callbacks is a sequence without repetitions.
 */
module WebSocket {
  import opened Wrappers

  type Callback = nat

  /** The `listeners` map: event name to its callbacks, in registration order. */
  type Registry = map<string, seq<Callback>>

  predicate NoDuplicates(s: seq<Callback>)
  {
    forall i, j :: 0 <= i < j < |s| ==> s[i] != s[j]
  }

  /** The registry invariant: no event maps to an empty set, and no set repeats a callback. */
  predicate RegistryValid(m: Registry)
  {
    forall e :: e in m ==> m[e] != [] && NoDuplicates(m[e])
  }

  /** The callbacks registered for `e`; none when `e` has no entry. */
  function Listeners(m: Registry, e: string): seq<Callback>
  {
    if e in m then m[e] else []
  }

  /** `Set.prototype.delete`: the sequence without `cb`, order kept. */
  function Without(s: seq<Callback>, cb: Callback): (r: seq<Callback>)
    ensures forall x :: x in r <==> x in s && x != cb
    ensures |r| <= |s|
  {
    if s == [] then []
    else (if s[0] == cb then [] else [s[0]]) + Without(s[1..], cb)
  }

  /** `on(e, cb)`: the set for `e` is created if absent and `cb` is added to it. */
  function Subscribed(m: Registry, e: string, cb: Callback): Registry
  {
    var s := Listeners(m, e);
    m[e := if cb in s then s else s + [cb]]
  }

  /** The closure `on` returns: `cb` leaves the set for `e`, and an emptied set is deleted. */
  function Unsubscribed(m: Registry, e: string, cb: Callback): Registry
  {
    if e !in m then m
    else
      var s := Without(m[e], cb);
      if s == [] then m - {e} else m[e := s]
  }

  lemma {:induction false} WithoutKeepsDistinct(s: seq<Callback>, cb: Callback)
    requires NoDuplicates(s)
    ensures NoDuplicates(Without(s, cb))
  {
    if s != [] {
      WithoutKeepsDistinct(s[1..], cb);
      assert s[0] !in s[1..];
    }
  }

  lemma {:induction false} WithoutAbsent(s: seq<Callback>, cb: Callback)
    requires cb !in s
    ensures Without(s, cb) == s
  {
    if s != [] {
      WithoutAbsent(s[1..], cb);
      assert s == [s[0]] + s[1..];
    }
  }

  /** Adding a callback that is not yet in a set keeps the set free of repetitions. */
  lemma AppendKeepsDistinct(s: seq<Callback>, cb: Callback)
    requires NoDuplicates(s) && cb !in s
    ensures NoDuplicates(s + [cb])
  {
    var t := s + [cb];
    forall i, j | 0 <= i < j < |t| ensures t[i] != t[j] {
      if j == |s| { assert t[i] == s[i]; }
    }
  }

  /** `on(e, cb)` keeps the registry invariant. */
  lemma SubscribeKeepsValid(m: Registry, e: string, cb: Callback)
    requires RegistryValid(m)
    ensures RegistryValid(Subscribed(m, e, cb))
  {
    var s := Listeners(m, e);
    if cb !in s {
      AppendKeepsDistinct(s, cb);
    }
  }

  /**
   * After `on(e, cb)` the callback is registered for `e`, the other
   * callbacks of `e` stay in their order, other events are untouched, and
   * the registry invariant still holds.
   */
  lemma SubscribeRegisters(m: Registry, e: string, cb: Callback)
    requires RegistryValid(m)
    ensures var r := Subscribed(m, e, cb);
      RegistryValid(r)
      && (forall x :: x in Listeners(r, e) <==> x in Listeners(m, e) || x == cb)
      && Listeners(r, e)[..|Listeners(m, e)|] == Listeners(m, e)
      && (forall f :: f != e ==> Listeners(r, f) == Listeners(m, f))
      && r.Keys == m.Keys + {e}
  {
    SubscribeKeepsValid(m, e, cb);
    var s := Listeners(m, e);
    var t := if cb in s then s else s + [cb];
    assert Listeners(Subscribed(m, e, cb), e) == t;
    assert t[..|s|] == s;
  }

  /** Registering the same callback twice stores it once. */
  lemma SubscribeIdempotent(m: Registry, e: string, cb: Callback)
    ensures Subscribed(Subscribed(m, e, cb), e, cb) == Subscribed(m, e, cb)
  {
  }

  /**
   * After unsubscribing, `cb` is gone from `e`, every other callback of `e`
   * stays, `e` has an entry exactly when some callback remains, other events
   * are untouched, and the registry invariant still holds.
   */
  lemma UnsubscribeRemoves(m: Registry, e: string, cb: Callback)
    requires RegistryValid(m)
    ensures var r := Unsubscribed(m, e, cb);
      RegistryValid(r)
      && (forall x :: x in Listeners(r, e) <==> x in Listeners(m, e) && x != cb)
      && (e in r <==> exists x :: x in Listeners(m, e) && x != cb)
      && (forall f :: f != e ==> Listeners(r, f) == Listeners(m, f))
  {
    if e in m {
      WithoutKeepsDistinct(m[e], cb);
      var s := Without(m[e], cb);
      if s != [] {
        assert s[0] in m[e] && s[0] != cb;
      }
    }
  }

  /** Calling the unsubscribe closure twice is the same as calling it once. */
  lemma UnsubscribeIdempotent(m: Registry, e: string, cb: Callback)
    requires RegistryValid(m)
    ensures Unsubscribed(Unsubscribed(m, e, cb), e, cb) == Unsubscribed(m, e, cb)
  {
    if e in m {
      var s := Without(m[e], cb);
      if s != [] {
        WithoutAbsent(s, cb);
      }
    }
  }

  /** Registering a new callback and then unsubscribing it restores the registry exactly. */
  lemma SubscribeThenUnsubscribe(m: Registry, e: string, cb: Callback)
    requires RegistryValid(m) && cb !in Listeners(m, e)
    ensures Unsubscribed(Subscribed(m, e, cb), e, cb) == m
  {
    var s := Listeners(m, e);
    WithoutAbsent(s, cb);
    assert Without(s + [cb], cb) == s by {
      WithoutAppend(s, cb);
    }
  }

  lemma {:induction false} WithoutAppend(s: seq<Callback>, cb: Callback)
    ensures Without(s + [cb], cb) == Without(s, cb)
  {
    if s == [] {
      assert [cb][1..] == [];
    } else {
      assert (s + [cb])[1..] == s[1..] + [cb];
      WithoutAppend(s[1..], cb);
    }
  }

  /** Pusher control events the client consumes itself. */
  const ConnectionEstablished := "pusher:connection_established"
  const Pong := "pusher:pong"
  const SubscriptionSucceeded := "pusher_internal:subscription_succeeded"

  const PaymentStatusWire := "payment.status.changed"
  const BalanceWire := "balance.updated"
  const PaymentStatusLocal := "paymentStatusChanged"
  const BalanceLocal := "balanceUpdated"

  /**
   * `handleMessage`: the local event an incoming message is emitted under;
   * none for the three control events.
   */
  function Route(event: string): (r: Option<string>)
    ensures r.None? <==> event in {ConnectionEstablished, Pong, SubscriptionSucceeded}
    ensures event == PaymentStatusWire ==> r == Some(PaymentStatusLocal)
    ensures event == BalanceWire ==> r == Some(BalanceLocal)
    ensures event !in {ConnectionEstablished, Pong, SubscriptionSucceeded, PaymentStatusWire, BalanceWire}
      ==> r == Some(event)
  {
    match event
    case "pusher:connection_established" => None
    case "pusher:pong" => None
    case "pusher_internal:subscription_succeeded" => None
    case "payment.status.changed" => Some(PaymentStatusLocal)
    case "balance.updated" => Some(BalanceLocal)
    case _ => Some(event)
  }

  const MaxReconnectAttempts := 5
  const ReconnectDelay := 1000

  function Pow2(n: nat): (r: nat)
    ensures r >= 1
  {
    if n == 0 then 1 else 2 * Pow2(n - 1)
  }

  /** `scheduleReconnect`'s delay for the `attempt`-th attempt: 1000 * 2^(attempt-1) ms. */
  function BackoffDelay(attempt: nat): nat
    requires attempt >= 1
  {
    ReconnectDelay * Pow2(attempt - 1)
  }

  /** Each attempt waits twice as long as the one before. */
  lemma BackoffDoubles(attempt: nat)
    requires attempt >= 1
    ensures BackoffDelay(attempt + 1) == 2 * BackoffDelay(attempt)
  {
  }

  /**
   * The `onclose` guard and `scheduleReconnect`: after an unclean close with
   * fewer than five attempts so far, the counter grows by one and a reconnect
   * is scheduled after the backoff delay; otherwise nothing happens.
   */
  function OnCloseStep(attempts: nat, wasClean: bool): (r: (nat, Option<nat>))
    ensures r.1.Some? <==> !wasClean && attempts < MaxReconnectAttempts
    ensures r.1.Some? ==> r.0 == attempts + 1 && r.1.value == BackoffDelay(r.0)
    ensures r.1.None? ==> r.0 == attempts
  {
    if !wasClean && attempts < MaxReconnectAttempts then
      (attempts + 1, Some(BackoffDelay(attempts + 1)))
    else (attempts, None)
  }

  /** The delays scheduled by `n` unclean closes in a row, with no successful open between them. */
  function UncleanCloses(attempts: nat, n: nat): seq<Option<nat>>
    decreases n
  {
    if n == 0 then []
    else
      var (next, delay) := OnCloseStep(attempts, false);
      [delay] + UncleanCloses(next, n - 1)
  }

  /**
   * Starting from `attempts` tries, the k-th of a run of unclean closes
   * schedules a reconnect exactly when fewer than five attempts precede it,
   * and then waits 1000 * 2^(attempts + k) ms.
   */
  lemma {:induction false} UncleanClosesSchedule(attempts: nat, n: nat, k: nat)
    requires k < n
    ensures |UncleanCloses(attempts, n)| == n
    ensures UncleanCloses(attempts, n)[k].Some? <==> attempts + k < MaxReconnectAttempts
    ensures UncleanCloses(attempts, n)[k].Some? ==>
      UncleanCloses(attempts, n)[k].value == BackoffDelay(attempts + k + 1)
    decreases n
  {
    var (next, delay) := OnCloseStep(attempts, false);
    if k > 0 {
      UncleanClosesSchedule(next, n - 1, k - 1);
      if attempts >= MaxReconnectAttempts {
        assert next == attempts;
        UncleanClosesLength(next, n - 1);
      }
    } else {
      UncleanClosesLength(next, n - 1);
    }
  }

  lemma {:induction false} UncleanClosesLength(attempts: nat, n: nat)
    ensures |UncleanCloses(attempts, n)| == n
    decreases n
  {
    if n > 0 {
      var (next, _) := OnCloseStep(attempts, false);
      UncleanClosesLength(next, n - 1);
    }
  }

  /** From a fresh connection the delays are 1, 2, 4, 8 and 16 seconds, then no more attempts. */
  lemma BackoffFromFresh()
    ensures UncleanCloses(0, 7) == [Some(1000), Some(2000), Some(4000), Some(8000), Some(16000), None, None]
  {
  }

  /** `WebSocket.readyState` values. */
  const Connecting := 0
  const Open := 1
  const Closing := 2
  const Closed := 3

  /** `connectionState`: the name of the socket's state; `None` is no socket at all. */
  function StateName(readyState: Option<int>): (name: string)
    ensures readyState.None? ==> name == "disconnected"
    ensures readyState == Some(Connecting) ==> name == "connecting"
    ensures readyState == Some(Open) ==> name == "connected"
    ensures readyState == Some(Closing) ==> name == "closing"
    ensures readyState == Some(Closed) ==> name == "disconnected"
    ensures readyState.Some? && !(0 <= readyState.value <= 3) ==> name == "unknown"
  {
    match readyState
    case None => "disconnected"
    case Some(s) =>
      if s == Connecting then "connecting"
      else if s == Open then "connected"
      else if s == Closing then "closing"
      else if s == Closed then "disconnected"
      else "unknown"
  }

  /** A frame the client sends: its event name and, for a subscription, the channel. */
  datatype Frame = Frame(event: string, channel: Option<string>)

  /**
   * The client: its listener registry, its reconnect counter, the state of
   * its socket and the frames it has transmitted.
   */
  class WebSocketClient {
    const customerId: string
    var listeners: Registry
    var reconnectAttempts: nat
    var readyState: Option<int>
    var sent: seq<Frame>

    ghost predicate Valid()
      reads this
    {
      RegistryValid(listeners) && reconnectAttempts <= MaxReconnectAttempts
    }

    constructor (customer: string)
      ensures Valid() && customerId == customer
      ensures listeners == map[] && reconnectAttempts == 0 && readyState == None && sent == []
    {
      customerId := customer;
      listeners := map[];
      reconnectAttempts := 0;
      readyState := None;
      sent := [];
    }

    /** `on(e, cb)`. */
    method On(e: string, cb: Callback)
      requires Valid()
      modifies this
      ensures Valid()
      ensures listeners == Subscribed(old(listeners), e, cb)
      ensures reconnectAttempts == old(reconnectAttempts) && readyState == old(readyState) && sent == old(sent)
    {
      SubscribeRegisters(listeners, e, cb);
      if e !in listeners {
        listeners := listeners[e := []];
      }
      if cb !in listeners[e] {
        listeners := listeners[e := listeners[e] + [cb]];
      }
    }

    /** The unsubscribe closure `on(e, cb)` returns. */
    method Unsubscribe(e: string, cb: Callback)
      requires Valid()
      modifies this
      ensures Valid()
      ensures listeners == Unsubscribed(old(listeners), e, cb)
      ensures reconnectAttempts == old(reconnectAttempts) && readyState == old(readyState) && sent == old(sent)
    {
      UnsubscribeRemoves(listeners, e, cb);
      if e in listeners {
        listeners := listeners[e := Without(listeners[e], cb)];
        if listeners[e] == [] {
          listeners := listeners - {e};
        }
      }
    }

    /**
     * `emit(e, data)`: the callbacks invoked, in order. Each callback
     * registered for `e` is invoked exactly once, and nothing is invoked
     * when `e` has no entry.
     */
    method Emit(e: string) returns (calls: seq<Callback>)
      requires Valid()
      ensures forall cb :: cb in calls <==> cb in Listeners(listeners, e)
      ensures NoDuplicates(calls) && |calls| == |Listeners(listeners, e)|
      ensures e !in listeners ==> calls == []
    {
      calls := [];
      if e in listeners {
        var set_ := listeners[e];
        var i := 0;
        while i < |set_|
          invariant 0 <= i <= |set_|
          invariant calls == set_[..i]
        {
          calls := calls + [set_[i]];
          i := i + 1;
        }
        assert calls == set_;
      }
    }

    /** `handleMessage`: the message is routed, then emitted under its local name. */
    method HandleMessage(event: string) returns (calls: seq<Callback>)
      requires Valid()
      ensures Route(event).None? ==> calls == []
      ensures Route(event).Some? ==>
        (forall cb :: cb in calls <==> cb in Listeners(listeners, Route(event).value))
        && NoDuplicates(calls)
    {
      var local := Route(event);
      if local.None? {
        return [];
      }
      calls := Emit(local.value);
    }

    /** `send`: the frame is transmitted only while the socket is open. */
    method Send(f: Frame)
      modifies this`sent
      ensures sent == if readyState == Some(Open) then old(sent) + [f] else old(sent)
    {
      if readyState == Some(Open) {
        sent := sent + [f];
      }
    }

    /**
     * `onopen`: the counter resets, the client announces itself and
     * subscribes to `customer.<id>` and `payments.<id>`.
     */
    method OnOpen()
      requires Valid()
      modifies this
      ensures Valid()
      ensures reconnectAttempts == 0 && readyState == Some(Open) && listeners == old(listeners)
      ensures sent == old(sent) + [
        Frame(ConnectionEstablished, None),
        Frame("pusher:subscribe", Some("customer." + customerId)),
        Frame("pusher:subscribe", Some("payments." + customerId))]
    {
      readyState := Some(Open);
      reconnectAttempts := 0;
      Send(Frame(ConnectionEstablished, None));
      Send(Frame("pusher:subscribe", Some("customer." + customerId)));
      Send(Frame("pusher:subscribe", Some("payments." + customerId)));
    }

    /**
     * `onclose`: the socket is closed; after an unclean close with fewer than
     * five attempts a reconnect is scheduled after the returned delay.
     */
    method OnClose(wasClean: bool) returns (delay: Option<nat>)
      requires Valid()
      modifies this
      ensures Valid()
      ensures (reconnectAttempts, delay) == OnCloseStep(old(reconnectAttempts), wasClean)
      ensures readyState == Some(Closed) && listeners == old(listeners) && sent == old(sent)
    {
      readyState := Some(Closed);
      delay := None;
      if !wasClean && reconnectAttempts < MaxReconnectAttempts {
        var wait := ScheduleReconnect();
        delay := Some(wait);
      }
    }

    /** `scheduleReconnect`: one more attempt, after the backoff delay. */
    method ScheduleReconnect() returns (delay: nat)
      requires reconnectAttempts < MaxReconnectAttempts
      modifies this`reconnectAttempts
      ensures reconnectAttempts == old(reconnectAttempts) + 1
      ensures delay == BackoffDelay(reconnectAttempts)
    {
      reconnectAttempts := reconnectAttempts + 1;
      delay := ReconnectDelay * Pow2(reconnectAttempts - 1);
    }

    /** `connectionState`. */
    function ConnectionState(): string
      reads this
    {
      StateName(readyState)
    }
  }
}
