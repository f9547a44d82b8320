/** The ingestion client (`WebSocketClient`): connects to the upstream feed,
    folds each reading into the store, broadcasts the snapshot with its
    alerts, and on close reconnects while its attempt counter is below
    `MaxAttempts`, otherwise broadcasts the error signal and stops.

    Socket callbacks are events. `Step` is the specification of one event;
    the class `Client` holds the same state in fields and each callback
    method is proved to make exactly the change `Step` describes. */
module WebSocketClient {
  import opened Wire
  import Aggregation
  import AlertEngine

  const MaxAttempts: nat := 2
  const ConnectionError := "WebSocket connection error"

  /** Where the connection loop is.
      Waiting(next): closed, a reconnect with counter `next` is scheduled.
      Closing: `onerror` asked the socket to close; `onclose` follows.
      Stopped: the event loop is not running (before `start`, or after
      `EM.stop`). */
  datatype Phase = Connecting | Open | Closing | Waiting(next: nat) | Stopped

  /** What the transport and the timer deliver, and the `start` entry point. */
  datatype Event =
    | Start
    | Opened
    | Message(reading: Reading)
    | Errored
    | Closed
    | TimerFired

  /** `attempts` is the counter captured by the current socket's callbacks;
      `connects` counts the sockets opened so far; `broadcasts` is what went
      out on `inventory_channel`; `stores` is the persistent store. */
  datatype ClientState = ClientState(
    phase: Phase, attempts: nat, connects: nat, broadcasts: seq<Payload>, stores: Snapshot)

  function Idle(stores: Snapshot): ClientState
  {
    ClientState(Stopped, 0, 0, [], stores)
  }

  /** Which events the transport can deliver in which phase. */
  predicate Enabled(p: Phase, e: Event)
  {
    match e
    case Start => p == Stopped
    case Opened => p == Connecting
    case Message(_) => p == Open
    case Errored => p == Connecting || p == Open
    case Closed => p == Connecting || p == Open || p == Closing
    case TimerFired => p.Waiting?
  }

  /** `connect_to_websocket(attempts)`: a new socket whose callbacks capture
      `attempts`. */
  function Connect(s: ClientState, attempts: nat): ClientState
  {
    s.(phase := Connecting, attempts := attempts, connects := s.connects + 1)
  }

  /** `handle_message`: upsert, re-aggregate, derive alerts, broadcast. */
  function Ingest(s: ClientState, r: Reading): ClientState
  {
    var stores := Aggregation.Upsert(s.stores, r);
    s.(stores := stores, broadcasts := s.broadcasts + [Normal(stores, AlertEngine.GenerateAlerts(stores))])
  }

  /** `handle_close(attempts)`. */
  function AfterClose(s: ClientState): ClientState
  {
    if s.attempts < MaxAttempts then s.(phase := Waiting(s.attempts + 1))
    else s.(phase := Stopped, broadcasts := s.broadcasts + [ErrorSignal(ConnectionError)])
  }

  /** One event; an event the transport cannot deliver in the current phase
      changes nothing. A `start` while the loop runs is among those: in the
      source it would open a second socket beside the first, which this
      one-connection model does not represent. */
  function Step(s: ClientState, e: Event): ClientState
  {
    if !Enabled(s.phase, e) then s
    else match e
      case Start => Connect(s, 0)
      case Opened => s.(phase := Open, attempts := 0)
      case Message(r) => Ingest(s, r)
      case Errored => s.(phase := Closing)
      case Closed => AfterClose(s)
      case TimerFired => Connect(s, s.phase.next)
  }

  function Run(s: ClientState, evs: seq<Event>): ClientState
    decreases |evs|
  {
    if evs == [] then s else Run(Step(s, evs[0]), evs[1..])
  }

  /** The counter never passes `MaxAttempts` and a scheduled reconnect
      carries 1..MaxAttempts. */
  ghost predicate Counters(s: ClientState)
  {
    && s.attempts <= MaxAttempts
    && (s.phase.Waiting? ==> 1 <= s.phase.next <= MaxAttempts)
  }

  /** The reachable states: the counter facts, and (store, model) is a key. */
  ghost predicate Invariant(s: ClientState)
  {
    Counters(s) && UniqueKeys(s.stores)
  }

  lemma StepInvariant(s: ClientState, e: Event)
    requires Invariant(s)
    ensures Invariant(Step(s, e))
  {
    if Enabled(s.phase, e) && e.Message? {
      Aggregation.UpsertKeepsKeys(s.stores, e.reading);
    }
  }

  lemma {:induction false} RunInvariant(s: ClientState, evs: seq<Event>)
    requires Invariant(s)
    ensures Invariant(Run(s, evs))
    decreases |evs|
  {
    if evs != [] {
      StepInvariant(s, evs[0]);
      RunInvariant(Step(s, evs[0]), evs[1..]);
    }
  }

  /** Connections the loop can still open without a successful `onopen`. */
  function Budget(s: ClientState): nat
    requires Counters(s)
  {
    match s.phase
    case Stopped => 0
    case Waiting(n) => MaxAttempts - n + 1
    case _ => MaxAttempts - s.attempts
  }

  function ErrorCount(bs: seq<Payload>): nat
  {
    if bs == [] then 0
    else ErrorCount(bs[..|bs| - 1]) + (if bs[|bs| - 1].ErrorSignal? then 1 else 0)
  }

  /** No successful open and no fresh `start`. */
  predicate Failing(evs: seq<Event>)
  {
    forall i :: 0 <= i < |evs| ==> !evs[i].Opened? && !evs[i].Start?
  }

  lemma StepBudget(s: ClientState, e: Event)
    requires Counters(s) && !e.Opened? && !e.Start?
    ensures Counters(Step(s, e))
    ensures Step(s, e).connects + Budget(Step(s, e)) <= s.connects + Budget(s)
    ensures ErrorCount(Step(s, e).broadcasts) + (if Step(s, e).phase == Stopped then 0 else 1) <=
            ErrorCount(s.broadcasts) + (if s.phase == Stopped then 0 else 1)
  {
    var t := Step(s, e);
    if t.broadcasts != s.broadcasts {
      assert t.broadcasts[..|t.broadcasts| - 1] == s.broadcasts;
    }
  }

  /** Without a successful open, the loop opens at most `Budget(s)` more
      sockets and broadcasts at most one error signal. */
  lemma {:induction false} FailingRunBound(s: ClientState, evs: seq<Event>)
    requires Counters(s) && Failing(evs)
    ensures Run(s, evs).connects <= s.connects + Budget(s)
    ensures ErrorCount(Run(s, evs).broadcasts) <= ErrorCount(s.broadcasts) + (if s.phase == Stopped then 0 else 1)
    decreases |evs|
  {
    if evs != [] {
      StepBudget(s, evs[0]);
      assert Failing(evs[1..]) by {
        forall i | 0 <= i < |evs[1..]| ensures !evs[1..][i].Opened? && !evs[1..][i].Start? {
          assert evs[1..][i] == evs[i + 1];
        }
      }
      FailingRunBound(Step(s, evs[0]), evs[1..]);
    }
  }

  /** A permanently failing upstream sees at most 1 + MaxAttempts = 3
      connection attempts per `start`, and at most one error signal. */
  lemma StartBound(stores: Snapshot, evs: seq<Event>)
    requires Failing(evs)
    ensures Run(Idle(stores), [Start] + evs).connects <= 1 + MaxAttempts
    ensures ErrorCount(Run(Idle(stores), [Start] + evs).broadcasts) <= 1
  {
    var s := Step(Idle(stores), Start);
    assert ([Start] + evs)[1..] == evs;
    FailingRunBound(s, evs);
  }

  /** The bound is reached: close, retry, close, retry, close. */
  lemma PermanentFailure(stores: Snapshot)
    ensures Run(Idle(stores), [Start, Closed, TimerFired, Closed, TimerFired, Closed]) ==
      ClientState(Stopped, MaxAttempts, 1 + MaxAttempts, [ErrorSignal(ConnectionError)], stores)
  {
    var s0 := Idle(stores);
    var s1 := Step(s0, Start);
    var s2 := Step(s1, Closed);
    var s3 := Step(s2, TimerFired);
    var s4 := Step(s3, Closed);
    var s5 := Step(s4, TimerFired);
    var s6 := Step(s5, Closed);
    assert s6 == ClientState(Stopped, MaxAttempts, 1 + MaxAttempts, [ErrorSignal(ConnectionError)], stores);
    assert Run(s6, []) == s6;
    assert Run(s5, [Closed]) == s6;
    assert Run(s4, [TimerFired, Closed]) == s6;
    assert Run(s3, [Closed, TimerFired, Closed]) == s6;
    assert Run(s2, [TimerFired, Closed, TimerFired, Closed]) == s6;
    assert Run(s1, [Closed, TimerFired, Closed, TimerFired, Closed]) == s6;
  }

  /** Once stopped, nothing happens until a fresh `start`. */
  lemma {:induction false} StoppedStaysStopped(s: ClientState, evs: seq<Event>)
    requires s.phase == Stopped
    requires forall i :: 0 <= i < |evs| ==> !evs[i].Start?
    ensures Run(s, evs) == s
  {
    if evs != [] {
      assert Step(s, evs[0]) == s;
      StoppedStaysStopped(s, evs[1..]);
    }
  }

  /** A successful open restores the whole retry budget: from then on a
      failing upstream costs at most `MaxAttempts` reconnects, and the
      close/retry sequence reaches that bound before the error signal. */
  lemma OpenRestoresBudget(s: ClientState, evs: seq<Event>)
    requires Counters(s) && s.phase == Connecting && Failing(evs)
    ensures Step(s, Opened).attempts == 0
    ensures Run(Step(s, Opened), evs).connects <= s.connects + MaxAttempts
    ensures var t := Run(Step(s, Opened), [Closed, TimerFired, Closed, TimerFired, Closed]);
      && t.connects == s.connects + MaxAttempts
      && t.phase == Stopped
      && t.broadcasts == s.broadcasts + [ErrorSignal(ConnectionError)]
  {
    FailingRunBound(Step(s, Opened), evs);
    var s1 := Step(s, Opened);
    var s2 := Step(s1, Closed);
    var s3 := Step(s2, TimerFired);
    var s4 := Step(s3, Closed);
    var s5 := Step(s4, TimerFired);
    var s6 := Step(s5, Closed);
    assert s6.connects == s.connects + MaxAttempts && s6.phase == Stopped;
    assert s6.broadcasts == s.broadcasts + [ErrorSignal(ConnectionError)];
    assert Run(s6, []) == s6;
    assert Run(s5, [Closed]) == s6;
    assert Run(s4, [TimerFired, Closed]) == s6;
    assert Run(s3, [Closed, TimerFired, Closed]) == s6;
    assert Run(s2, [TimerFired, Closed, TimerFired, Closed]) == s6;
  }

  /** The module's state: the reactor phase, the counter the current
      socket's callbacks captured, and what has been connected and broadcast. */
  class Client {
    var phase: Phase
    var attempts: nat
    var connects: nat
    var broadcasts: seq<Payload>
    var stores: Snapshot

    function State(): ClientState
      reads this
    {
      ClientState(phase, attempts, connects, broadcasts, stores)
    }

    ghost predicate Valid()
      reads this
    {
      Counters(State())
    }

    /** The process before `start`: no loop, nothing broadcast. */
    constructor (stores: Snapshot)
      ensures Valid() && State() == Idle(stores)
    {
      phase, attempts, connects, broadcasts := Stopped, 0, 0, [];
      this.stores := stores;
    }

    /** `start`: run the loop with a first connection, counter 0. */
    method Start()
      requires Valid() && phase == Stopped
      modifies this
      ensures Valid() && State() == Step(old(State()), Event.Start)
    {
      ConnectToWebsocket(0);
    }

    /** `connect_to_websocket(n)`. */
    method ConnectToWebsocket(n: nat)
      requires n <= MaxAttempts
      modifies this
      ensures State() == Connect(old(State()), n)
    {
      phase := Connecting;
      attempts := n;
      connects := connects + 1;
    }

    /** `onopen`: the captured counter goes back to 0. */
    method OnOpen()
      requires Valid() && phase == Connecting
      modifies this
      ensures Valid() && State() == Step(old(State()), Opened)
      ensures attempts == 0
    {
      attempts := 0;
      phase := Open;
    }

    /** `onmessage`. */
    method OnMessage(data: Reading)
      requires Valid() && phase == Open
      modifies this
      ensures Valid() && State() == Step(old(State()), Message(data))
      ensures Aggregation.Lookup(stores, data.store, data.model) == Some(data.inventory)
      ensures broadcasts == old(broadcasts) + [Normal(stores, AlertEngine.GenerateAlerts(stores))]
      ensures old(UniqueKeys(stores)) ==> UniqueKeys(stores)
    {
      if UniqueKeys(stores) {
        Aggregation.UpsertKeepsKeys(stores, data);
      }
      Aggregation.UpsertStores(stores, data);
      HandleMessage(data);
    }

    /** `handle_message`: find or create the store and the shoe, overwrite
        the inventory, then broadcast the whole snapshot and its alerts. */
    method HandleMessage(data: Reading)
      modifies this
      ensures State() == Ingest(old(State()), data)
    {
      stores := Aggregation.Upsert(stores, data);
      var aggregated := stores;
      var alerts := AlertEngine.GenerateAlerts(aggregated);
      broadcasts := broadcasts + [Normal(aggregated, alerts)];
    }

    /** `onerror`: ask the socket to close; its `onclose` comes next. */
    method OnError()
      requires Valid() && (phase == Connecting || phase == Open)
      modifies this
      ensures Valid() && State() == Step(old(State()), Errored)
    {
      phase := Closing;
    }

    /** `onclose`: `handle_close` with the captured counter. */
    method OnClose()
      requires Valid() && (phase == Connecting || phase == Open || phase == Closing)
      modifies this
      ensures Valid() && State() == Step(old(State()), Closed)
      ensures old(attempts) < MaxAttempts ==>
        phase == Waiting(old(attempts) + 1) && broadcasts == old(broadcasts) && connects == old(connects)
      ensures old(attempts) >= MaxAttempts ==>
        phase == Stopped && broadcasts == old(broadcasts) + [ErrorSignal(ConnectionError)]
    {
      HandleClose(attempts);
    }

    /** `handle_close(attempts)`: schedule one reconnect with `attempts + 1`,
        or broadcast the error and stop the loop. */
    method HandleClose(n: nat)
      modifies this
      ensures n < MaxAttempts ==> State() == old(State()).(phase := Waiting(n + 1))
      ensures n >= MaxAttempts ==>
        State() == old(State()).(phase := Stopped, broadcasts := old(broadcasts) + [ErrorSignal(ConnectionError)])
    {
      if n < MaxAttempts {
        phase := Waiting(n + 1);
      } else {
        broadcasts := broadcasts + [ErrorSignal(ConnectionError)];
        phase := Stopped;
      }
    }

    /** The reconnect timer (`EM.add_timer`) fires. */
    method OnTimer()
      requires Valid() && phase.Waiting?
      modifies this
      ensures Valid() && State() == Step(old(State()), TimerFired)
    {
      ConnectToWebsocket(phase.next);
    }
  }

  /** Drives a client against an upstream that refuses every connection. */
  method PermanentlyFailingUpstream(stores: Snapshot) returns (connects: nat, sent: seq<Payload>, stopped: bool)
    ensures connects == 1 + MaxAttempts
    ensures sent == [ErrorSignal(ConnectionError)]
    ensures stopped
  {
    var client := new Client(stores);
    client.Start();
    client.OnClose();
    client.OnTimer();
    client.OnClose();
    client.OnTimer();
    client.OnClose();
    connects, sent, stopped := client.connects, client.broadcasts, client.phase == Stopped;
  }

  /** Three readings from an empty store: the snapshot keeps creation order
      of stores and, within a store, of models. */
  lemma ThreeReadings()
    ensures Aggregation.Upsert(Aggregation.Upsert(Aggregation.Upsert([],
        Reading("A", "X", 5)), Reading("A", "Y", 15)), Reading("B", "X", 2)) ==
      [StoreEntry("A", [Shoe("X", 5), Shoe("Y", 15)]), StoreEntry("B", [Shoe("X", 2)])]
  {
    var s1 := Aggregation.Upsert([], Reading("A", "X", 5));
    assert s1 == [StoreEntry("A", [Shoe("X", 5)])];
    var s2 := Aggregation.Upsert(s1, Reading("A", "Y", 15));
    assert Aggregation.FindStore(s1, "A") == Some(0);
    assert Aggregation.FindShoe(s1[0].shoes, "Y") == None by {
      assert s1[0].shoes[0].model != "Y";
    }
    assert Aggregation.SetShoe(s1[0].shoes, "Y", 15) == [Shoe("X", 5), Shoe("Y", 15)];
    assert s2 == [StoreEntry("A", [Shoe("X", 5), Shoe("Y", 15)])];
    assert Aggregation.FindStore(s2, "B") == None by {
      assert s2[0].name != "B";
    }
  }
}
