/**
 * The mobile client's resilient socket (WebSocketClient.swift), as the `WebSocketClient`
 * class. Each stretch of an actor method between two suspension points is one atomic
 * method: `scheduleReconnect` up to its sleep and the `start()` after it, a `send` up to
 * `task.send` and its resumption, a keepalive turn up to `sendPing` and the resumption of
 * its continuation, a receive's completion. Calls still suspended are recorded, so other
 * steps (`disconnect()` among them) can run before they resume. The transport's outcomes
 * (a frame arrived, a send, ping or receive failed) are parameters; the events handed to
 * the `onEvent` callback are recorded in `events` and the frames written to the socket in
 * `sent`.
 */
module Connection {
  import opened Wrappers

  /** `maxBackoff`, in seconds. */
  const MaxBackoff: nat := 30

  /** `pingInterval`, in seconds; the interval itself is not modelled, each ping is one step. */
  const PingInterval: nat := 15

  datatype State = Disconnected | Connecting | Connected | Failed(reason: string)

  /** A payload the application asks to send: `send(text:)` or `send(data:)`. */
  datatype Payload = Text(text: string) | Binary(data: seq<bv8>)

  /** What goes out on the socket: an application payload or a protocol ping. */
  datatype Frame = PayloadFrame(payload: Payload) | PingFrame

  datatype Event =
    | ConnectedEvent
    | DisconnectedEvent
    | MessageEvent(data: seq<bv8>)
    | TextEvent(text: string)
    | ErrorEvent(error: string)

  function Pow2(n: nat): (r: nat)
    ensures r >= 1
  {
    if n == 0 then 1 else 2 * Pow2(n - 1)
  }

  /** The integer base of the reconnect delay: `min(2^attempts, maxBackoff)` seconds, before jitter. */
  function BackoffBase(attempts: nat): (r: nat)
    ensures 1 <= r <= MaxBackoff
    ensures r == MaxBackoff || r == Pow2(attempts)
    ensures Pow2(attempts) < MaxBackoff ==> r == Pow2(attempts)
  {
    if Pow2(attempts) < MaxBackoff then Pow2(attempts) else MaxBackoff
  }

  lemma {:induction false} Pow2Monotone(m: nat, n: nat)
    requires m <= n
    ensures Pow2(m) <= Pow2(n)
  {
    if m < n {
      Pow2Monotone(m, n - 1);
    }
  }

  /** From the first retry on, the base lies between 2 and 30 seconds. */
  lemma {:induction false} BackoffBounds(attempts: nat)
    requires attempts >= 1
    ensures 2 <= BackoffBase(attempts) <= MaxBackoff
  {
    Pow2Monotone(1, attempts);
  }

  /** The base never shrinks as failures accumulate. */
  lemma {:induction false} BackoffMonotone(m: nat, n: nat)
    requires m <= n
    ensures BackoffBase(m) <= BackoffBase(n)
  {
    Pow2Monotone(m, n);
  }

  /** Once the cap is reached the base stays at 30 seconds. */
  lemma {:induction false} BackoffCapped(attempts: nat)
    requires attempts >= 5
    ensures BackoffBase(attempts) == MaxBackoff
  {
    Pow2Monotone(5, attempts);
    assert Pow2(5) == 32;
  }

  /** The first six retries wait 2, 4, 8, 16, 30 and 30 seconds before jitter. */
  lemma BackoffSchedule()
    ensures [BackoffBase(1), BackoffBase(2), BackoffBase(3), BackoffBase(4), BackoffBase(5), BackoffBase(6)]
         == [2, 4, 8, 16, 30, 30]
  {
    assert Pow2(5) == 32;
    BackoffCapped(6);
  }

  /** The actor's fields other than the two logs, as one value. */
  datatype ClientState = ClientState(
    state: State,
    retryAttempts: nat,
    shouldReconnect: bool,
    hasTask: bool,          // `task != nil`
    listening: bool,        // the receive loop of the current task is awaiting a frame
    pinging: bool,          // the keepalive loop of the current task is running
    pingAwaiting: bool,     // that loop is suspended on its `sendPing` continuation
    hasHandler: bool,       // `onEvent != nil`
    pendingStarts: nat,     // `start()` calls scheduled (by `connect` or after a backoff) and not yet run
    sending: seq<Payload>,  // `send` calls suspended on `task.send`
    staleReceives: nat,     // receives still pending in receive loops that were cancelled
    stalePings: nat)        // pings still pending in keepalive loops that were cancelled

  /**
   * `listenTask?.cancel()` and `pingTask?.cancel()`: both loops of the current task stop,
   * but a receive or a ping they are suspended on is not cancelled with them. It stays
   * pending and still completes later.
   */
  function Cancelled(c: ClientState): ClientState {
    c.(listening := false, pinging := false, pingAwaiting := false,
       staleReceives := c.staleReceives + (if c.listening then 1 else 0),
       stalePings := c.stalePings + (if c.pingAwaiting then 1 else 0))
  }

  /**
   * Nothing runs and nothing will reconnect: the situation `disconnect()` leaves behind.
   * Every step but `connect()` keeps it, except that a frame arriving on a receive left
   * pending by a cancelled loop still sets the state to `connected`.
   */
  predicate Stopped(c: ClientState) {
    && !c.shouldReconnect && !c.hasTask && !c.listening && !c.pinging && !c.pingAwaiting
    && c.state == Disconnected
  }

  /**
   * Stopped, with no send, receive or ping still pending. Every step but `connect()` and
   * `disconnect()` keeps it and then emits and sends nothing. A client that is only
   * stopped can still hear from a pending call: a send or ping that fails reports `error`.
   */
  predicate Quiet(c: ClientState) {
    Stopped(c) && c.sending == [] && c.staleReceives == 0 && c.stalePings == 0
  }

  /** The sequence without its element at index `i`. */
  function Remove<T>(s: seq<T>, i: nat): (r: seq<T>)
    requires i < |s|
    ensures |r| == |s| - 1
    ensures forall k :: 0 <= k < i ==> r[k] == s[k]
    ensures forall k :: i <= k < |r| ==> r[k] == s[k + 1]
  {
    s[..i] + s[i + 1..]
  }

  class WebSocketClient {
    var state: State
    var retryAttempts: nat
    var shouldReconnect: bool
    var hasTask: bool
    var listening: bool
    var pinging: bool
    var pingAwaiting: bool
    var hasHandler: bool
    var pendingStarts: nat
    var sending: seq<Payload>
    var staleReceives: nat
    var stalePings: nat
    var events: seq<Event>
    var sent: seq<Frame>

    function Snapshot(): ClientState
      reads this
    {
      ClientState(state, retryAttempts, shouldReconnect, hasTask, listening, pinging, pingAwaiting,
                  hasHandler, pendingStarts, sending, staleReceives, stalePings)
    }

    /** What `emit(e)` hands to the callback: nothing before `connect` has installed one. */
    function Emitted(e: Event): seq<Event>
      reads this
    {
      if hasHandler then [e] else []
    }

    /** `isConnected()`. */
    predicate IsConnected()
      reads this
      ensures IsConnected() <==> state == Connected
    {
      state.Connected?
    }

    /** `init(url:session:)`: disconnected, no retries yet, reconnecting allowed, nothing pending. */
    constructor ()
      ensures Snapshot() == ClientState(Disconnected, 0, true, false, false, false, false, false, 0, [], 0, 0)
      ensures events == [] && sent == []
    {
      state := Disconnected;
      retryAttempts := 0;
      shouldReconnect := true;
      hasTask := false;
      listening := false;
      pinging := false;
      pingAwaiting := false;
      hasHandler := false;
      pendingStarts := 0;
      sending := [];
      staleReceives := 0;
      stalePings := 0;
      events := [];
      sent := [];
    }

    method Emit(e: Event)
      modifies this
      ensures Snapshot() == old(Snapshot()) && sent == old(sent)
      ensures events == old(events) + old(Emitted(e))
    {
      if hasHandler {
        events := events + [e];
      }
    }

    /** `connect(onEvent:)`: installs the callback, allows reconnecting and schedules one `start()`. */
    method Connect()
      modifies this
      ensures Snapshot() == old(Snapshot()).(shouldReconnect := true, hasHandler := true,
                                             pendingStarts := old(pendingStarts) + 1)
      ensures events == old(events) && sent == old(sent)
    {
      hasHandler := true;
      shouldReconnect := true;
      pendingStarts := pendingStarts + 1;
    }

    /** Cancels both loops of the current task; what they are suspended on stays pending. */
    method CancelLoops()
      modifies this
      ensures Snapshot() == Cancelled(old(Snapshot()))
      ensures events == old(events) && sent == old(sent)
    {
      staleReceives := staleReceives + if listening then 1 else 0;
      stalePings := stalePings + if pingAwaiting then 1 else 0;
      listening, pinging, pingAwaiting := false, false, false;
    }

    /**
     * `start()`, run by a scheduled call: unless reconnecting is off or a connection is
     * already being opened, it cancels the old loops, moves to `connecting`, replaces the
     * task, starts both loops and emits `connected`.
     */
    method Start()
      requires pendingStarts > 0
      modifies this
      ensures Stopped(old(Snapshot())) ==> Stopped(Snapshot()) && events == old(events) && sent == old(sent)
      ensures Quiet(old(Snapshot())) ==> Quiet(Snapshot())
      ensures var ran := old(shouldReconnect) && old(state) != Connecting;
        && (ran ==> Snapshot() == Cancelled(old(Snapshot())).(state := Connecting, hasTask := true, listening := true,
                                                              pinging := true, pendingStarts := old(pendingStarts) - 1)
                    && events == old(events) + old(Emitted(ConnectedEvent)))
        && (!ran ==> Snapshot() == old(Snapshot()).(pendingStarts := old(pendingStarts) - 1)
                     && events == old(events))
      ensures sent == old(sent)
    {
      pendingStarts := pendingStarts - 1;
      if !shouldReconnect || state == Connecting {
        return;
      }
      CancelLoops();
      state := Connecting;
      hasTask := true;
      listening, pinging := true, true;
      Emit(ConnectedEvent);
    }

    /**
     * `disconnect()`: turns reconnecting off, cancels both loops, drops the task and emits
     * `disconnected`. Sends, receives and pings already pending are not withdrawn.
     */
    method Disconnect()
      modifies this
      ensures Snapshot() == Cancelled(old(Snapshot())).(shouldReconnect := false, hasTask := false, state := Disconnected)
      ensures Stopped(Snapshot())
      ensures Quiet(Snapshot()) <==> old(sending) == [] && Snapshot().staleReceives == 0 && Snapshot().stalePings == 0
      ensures events == old(events) + old(Emitted(DisconnectedEvent)) && sent == old(sent)
    {
      shouldReconnect := false;
      CancelLoops();
      hasTask := false;
      state := Disconnected;
      Emit(DisconnectedEvent);
    }

    /** `resetBackoff()`: traffic arrived, so the retry count restarts and the state is `connected`. */
    method ResetBackoff()
      modifies this
      ensures Snapshot() == old(Snapshot()).(retryAttempts := 0, state := Connected)
      ensures events == old(events) && sent == old(sent)
    {
      retryAttempts := 0;
      state := Connected;
    }

    /**
     * The part of `scheduleReconnect()` before its sleep: unless reconnecting is off or the
     * state is already `disconnected`, the state becomes `disconnected`, the attempt count
     * grows by one and a `start()` is scheduled after `base` seconds (times a jitter that
     * is not modelled). The `start()` after the sleep is the separate `Start` step.
     */
    method ScheduleReconnect() returns (base: Option<nat>)
      modifies this
      ensures Stopped(old(Snapshot())) ==> Stopped(Snapshot()) && events == old(events) && sent == old(sent)
      ensures var ran := old(shouldReconnect) && old(state) != Disconnected;
        && (ran ==> Snapshot() == old(Snapshot()).(state := Disconnected, retryAttempts := old(retryAttempts) + 1,
                                                   pendingStarts := old(pendingStarts) + 1)
                    && base == Some(BackoffBase(old(retryAttempts) + 1)))
        && (!ran ==> Snapshot() == old(Snapshot()) && base == None)
      ensures events == old(events) && sent == old(sent)
    {
      if !shouldReconnect || state == Disconnected {
        return None;
      }
      state := Disconnected;
      retryAttempts := retryAttempts + 1;
      base := Some(BackoffBase(retryAttempts));
      pendingStarts := pendingStarts + 1;
    }

    /**
     * `handleFailure(_:)`: the error is emitted first, whatever the state, then a reconnect
     * is attempted.
     */
    method HandleFailure(error: string) returns (base: Option<nat>)
      modifies this
      ensures Stopped(old(Snapshot())) ==> Stopped(Snapshot())
      ensures var ran := old(shouldReconnect) && old(state) != Disconnected;
        && (ran ==> Snapshot() == old(Snapshot()).(state := Disconnected, retryAttempts := old(retryAttempts) + 1,
                                                   pendingStarts := old(pendingStarts) + 1)
                    && base == Some(BackoffBase(old(retryAttempts) + 1)))
        && (!ran ==> Snapshot() == old(Snapshot()) && base == None)
      ensures events == old(events) + old(Emitted(ErrorEvent(error))) && sent == old(sent)
    {
      Emit(ErrorEvent(error));
      base := ScheduleReconnect();
    }

    /**
     * `send(text:)` and `send(data:)` up to their `await`: nothing happens unless the state
     * is `connected` and a task exists; otherwise the payload is handed to the transport
     * and the call is suspended until `SendDone`.
     */
    method Send(payload: Payload)
      modifies this
      ensures Stopped(old(Snapshot())) ==> Stopped(Snapshot())
      ensures Quiet(old(Snapshot())) ==> Quiet(Snapshot())
      ensures var open := old(state) == Connected && old(hasTask);
        && (!open ==> Snapshot() == old(Snapshot()))
        && (open ==> Snapshot() == old(Snapshot()).(sending := old(sending) + [payload]))
      ensures events == old(events) && sent == old(sent)
    {
      if state == Connected && hasTask {
        sending := sending + [payload];
      }
    }

    /**
     * The suspended send at index `i` resumes: a payload the transport accepted is
     * written; a refusal goes through `handleFailure` whatever has happened since the call
     * began, so a send still pending at `disconnect()` that fails reports `error`.
     */
    method SendDone(i: nat, delivered: bool, error: string) returns (base: Option<nat>)
      requires i < |sending|
      modifies this
      ensures Stopped(old(Snapshot())) ==> Stopped(Snapshot())
      ensures delivered ==> Snapshot() == old(Snapshot()).(sending := Remove(old(sending), i))
                            && events == old(events) && sent == old(sent) + [PayloadFrame(old(sending)[i])]
                            && base == None
      ensures !delivered ==>
        var ran := old(shouldReconnect) && old(state) != Disconnected;
        && (ran ==> Snapshot() == old(Snapshot()).(state := Disconnected, retryAttempts := old(retryAttempts) + 1,
                                                   pendingStarts := old(pendingStarts) + 1,
                                                   sending := Remove(old(sending), i))
                    && base == Some(BackoffBase(old(retryAttempts) + 1)))
        && (!ran ==> Snapshot() == old(Snapshot()).(sending := Remove(old(sending), i)) && base == None)
        && events == old(events) + old(Emitted(ErrorEvent(error))) && sent == old(sent)
    {
      var payload := sending[i];
      sending := Remove(sending, i);
      base := None;
      if delivered {
        sent := sent + [PayloadFrame(payload)];
      } else {
        base := HandleFailure(error);
      }
    }

    /**
     * A receive completes with a frame. In the current receive loop the backoff is reset
     * (the state becomes `connected`) and the frame is emitted; a current loop that is not
     * running does nothing. A receive left pending by a cancelled loop (`stale`) does the
     * same, and then that loop sees its cancellation and ends.
     */
    method ReceiveFrame(payload: Payload, stale: bool)
      requires stale ==> staleReceives > 0
      modifies this
      ensures Stopped(old(Snapshot())) ==> Stopped(Snapshot()) || (stale && state == Connected)
      ensures Quiet(old(Snapshot())) ==> Quiet(Snapshot()) && events == old(events)
      ensures var live := stale || old(listening);
        && (!live ==> Snapshot() == old(Snapshot()) && events == old(events))
        && (live ==> Snapshot() == old(Snapshot()).(retryAttempts := 0, state := Connected,
                                                     staleReceives := old(staleReceives) - if stale then 1 else 0)
                     && events == old(events) + old(Emitted(if payload.Text? then TextEvent(payload.text)
                                                            else MessageEvent(payload.data))))
      ensures sent == old(sent)
    {
      if stale {
        staleReceives := staleReceives - 1;
      } else if !listening {
        return;
      }
      ResetBackoff();
      match payload {
        case Text(t) => Emit(TextEvent(t));
        case Binary(d) => Emit(MessageEvent(d));
      }
    }

    /**
     * A receive fails. The current loop, if running, reports the failure through
     * `handleFailure` and ends. A receive left pending by a cancelled loop (`stale`) ends
     * that loop quietly, as `Task.isCancelled` holds there.
     */
    method ReceiveFailure(error: string, stale: bool) returns (base: Option<nat>)
      requires stale ==> staleReceives > 0
      modifies this
      ensures Stopped(old(Snapshot())) ==> Stopped(Snapshot()) && events == old(events) && sent == old(sent)
      ensures Quiet(old(Snapshot())) ==> Quiet(Snapshot())
      ensures stale ==> Snapshot() == old(Snapshot()).(staleReceives := old(staleReceives) - 1)
                        && events == old(events) && base == None
      ensures !stale && !old(listening) ==> Snapshot() == old(Snapshot()) && events == old(events) && base == None
      ensures !stale && old(listening) ==>
        var ran := old(shouldReconnect) && old(state) != Disconnected;
        && (ran ==> Snapshot() == old(Snapshot()).(state := Disconnected, retryAttempts := old(retryAttempts) + 1,
                                                   pendingStarts := old(pendingStarts) + 1, listening := false)
                    && base == Some(BackoffBase(old(retryAttempts) + 1)))
        && (!ran ==> Snapshot() == old(Snapshot()).(listening := false) && base == None)
        && events == old(events) + old(Emitted(ErrorEvent(error)))
      ensures sent == old(sent)
    {
      base := None;
      if stale {
        staleReceives := staleReceives - 1;
        return;
      }
      if !listening {
        return;
      }
      base := HandleFailure(error);
      listening := false;
    }

    /**
     * The keepalive loop wakes from its sleep (it is not suspended on a ping then): while
     * `connected` it sends a ping and suspends on the continuation until `PingDone`;
     * otherwise it goes back to sleep. A cancelled loop is taken to stop here; the one
     * further turn it takes when the cancellation arrives during its sleep is not modelled.
     */
    method PingTick()
      requires !pingAwaiting
      modifies this
      ensures Stopped(old(Snapshot())) ==> Stopped(Snapshot())
      ensures Quiet(old(Snapshot())) ==> Quiet(Snapshot())
      ensures !(old(pinging) && old(state) == Connected) ==> Snapshot() == old(Snapshot())
      ensures old(pinging) && old(state) == Connected ==> Snapshot() == old(Snapshot()).(pingAwaiting := true)
      ensures events == old(events) && sent == old(sent)
    {
      if pinging && IsConnected() {
        pingAwaiting := true;
      }
    }

    /**
     * The ping of the current keepalive loop resumes its continuation. An answered ping
     * has been written and the loop goes back to sleep; a failed one goes through
     * `handleFailure` and ends the loop.
     */
    method PingDone(answered: bool, error: string) returns (base: Option<nat>)
      requires pingAwaiting
      modifies this
      ensures Stopped(old(Snapshot())) ==> Stopped(Snapshot())
      ensures answered ==> Snapshot() == old(Snapshot()).(pingAwaiting := false)
                           && events == old(events) && sent == old(sent) + [PingFrame] && base == None
      ensures !answered ==>
        var ran := old(shouldReconnect) && old(state) != Disconnected;
        && (ran ==> Snapshot() == old(Snapshot()).(pingAwaiting := false, pinging := false, state := Disconnected,
                                                   retryAttempts := old(retryAttempts) + 1,
                                                   pendingStarts := old(pendingStarts) + 1)
                    && base == Some(BackoffBase(old(retryAttempts) + 1)))
        && (!ran ==> Snapshot() == old(Snapshot()).(pingAwaiting := false, pinging := false) && base == None)
        && events == old(events) + old(Emitted(ErrorEvent(error))) && sent == old(sent)
    {
      base := None;
      pingAwaiting := false;
      if answered {
        sent := sent + [PingFrame];
      } else {
        base := HandleFailure(error);
        pinging := false;
      }
    }

    /**
     * A ping left pending by a cancelled keepalive loop resumes its continuation. An
     * answered ping has been written and the loop ends. A failed one still goes through
     * `handleFailure`, as the loop does not check its cancellation there, so a ping pending
     * at `disconnect()` that fails reports `error` afterwards.
     */
    method StalePingDone(answered: bool, error: string) returns (base: Option<nat>)
      requires stalePings > 0
      modifies this
      ensures Stopped(old(Snapshot())) ==> Stopped(Snapshot())
      ensures answered ==> Snapshot() == old(Snapshot()).(stalePings := old(stalePings) - 1)
                           && events == old(events) && sent == old(sent) + [PingFrame] && base == None
      ensures !answered ==>
        var ran := old(shouldReconnect) && old(state) != Disconnected;
        && (ran ==> Snapshot() == old(Snapshot()).(stalePings := old(stalePings) - 1, state := Disconnected,
                                                   retryAttempts := old(retryAttempts) + 1,
                                                   pendingStarts := old(pendingStarts) + 1)
                    && base == Some(BackoffBase(old(retryAttempts) + 1)))
        && (!ran ==> Snapshot() == old(Snapshot()).(stalePings := old(stalePings) - 1) && base == None)
        && events == old(events) + old(Emitted(ErrorEvent(error))) && sent == old(sent)
    {
      base := None;
      stalePings := stalePings - 1;
      if answered {
        sent := sent + [PingFrame];
      } else {
        base := HandleFailure(error);
      }
    }
  }
}
