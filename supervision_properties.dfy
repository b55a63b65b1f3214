/**
 * What the supervision state machine guarantees: the failure accounting and
 * its ceiling, the outcome of each event, the passivity of the given-up state,
 * the watchdog's safety against stale firing and against the success
 * callback, and the scenarios of the service's life.
 */
module SupervisionProperties {
  import opened Wrappers
  import opened BlePlatform
  import opened Supervision

  function Min(a: int, b: int): int {
    if a <= b then a else b
  }

  /** The counter after one more failure, for a state that keeps the invariant. */
  function Counted(attempts: nat): nat {
    Min(attempts + 1, MAX_RECONNECT_ATTEMPTS + 1)
  }

  /**
   * handleFailedConnectionAttempt: once given up nothing changes; otherwise
   * the counter grows by exactly one, retries are given up exactly when it
   * passes the ceiling, and otherwise exactly one retry is scheduled (when a
   * target is configured and the scope is live). The link is untouched.
   */
  lemma FailureAccounting(cfg: Config, s: Supervisor)
    ensures var r := AfterFailure(cfg, s);
      && (s.givenUp ==> r == s)
      && (!s.givenUp ==> r.reconnectAttempts == s.reconnectAttempts + 1)
      && (!s.givenUp ==> (r.givenUp <==> s.reconnectAttempts + 1 > MAX_RECONNECT_ATTEMPTS))
      && (!s.givenUp && r.givenUp ==> r.pendingRetries == s.pendingRetries && r.status == GaveUp)
      && (!r.givenUp ==> r.pendingRetries == s.pendingRetries + (if cfg.target.Some? && s.scopeActive then 1 else 0))
      && r.gatt == s.gatt && r.attempting == s.attempting && r.watchdog == s.watchdog
  {
  }

  /** Under the invariant one failure moves the counter to Counted, whether or not retries were given up. */
  lemma FailureCountsOnce(cfg: Config, s: Supervisor)
    requires Inv(s)
    ensures AfterFailure(cfg, s).reconnectAttempts == Counted(s.reconnectAttempts)
    ensures AfterFailure(cfg, s).givenUp <==> s.reconnectAttempts + 1 > MAX_RECONNECT_ATTEMPTS
  {
  }

  /** Every run of events from a state that keeps the invariant ends in one that does. */
  lemma {:induction false} RunPreservesInv(cfg: Config, s: Supervisor, events: seq<Event>)
    requires Inv(s)
    ensures Inv(Run(cfg, s, events))
    decreases |events|
  {
    if events != [] {
      StepPreservesInv(cfg, s, events[0]);
      RunPreservesInv(cfg, Step(cfg, s, events[0]), events[1..]);
    }
  }

  /** Every state reachable from onCreate keeps the invariant. */
  lemma ReachableSatisfiesInv(cfg: Config, registrationSucceeds: bool, events: seq<Event>)
    ensures Inv(Run(cfg, Created(cfg, registrationSucceeds), events))
  {
    CreatedSatisfiesInv(cfg, registrationSucceeds);
    RunPreservesInv(cfg, Created(cfg, registrationSucceeds), events);
  }

  function Repeat(e: Event, n: nat): (events: seq<Event>)
    ensures |events| == n
  {
    if n == 0 then [] else [e] + Repeat(e, n - 1)
  }

  /** A disconnection reported for the target, clean or with an error. */
  function TargetDisconnected(cfg: Config, gattStatus: int): Event {
    ConnectionStateChange(cfg.target, gattStatus, STATE_DISCONNECTED)
  }

  /**
   * n disconnections in a row move the counter to min(attempts + n, 151) and
   * give up exactly when attempts + n passes the ceiling; after at least one
   * no link and no attempt remain.
   */
  lemma {:induction false} RepeatedDisconnects(cfg: Config, s: Supervisor, gattStatus: int, n: nat)
    requires Inv(s)
    ensures var r := Run(cfg, s, Repeat(TargetDisconnected(cfg, gattStatus), n));
      && Inv(r)
      && r.reconnectAttempts == Min(s.reconnectAttempts + n, MAX_RECONNECT_ATTEMPTS + 1)
      && (r.givenUp <==> s.reconnectAttempts + n > MAX_RECONNECT_ATTEMPTS)
      && (n > 0 ==> r.gatt.None? && !r.attempting && r.watchdog.None?)
    decreases n
  {
    if n > 0 {
      var e := TargetDisconnected(cfg, gattStatus);
      var s1 := Step(cfg, s, e);
      StepPreservesInv(cfg, s, e);
      var reported := if gattStatus == GATT_SUCCESS then Disconnected else DisconnectedWithError(gattStatus);
      FailureCountsOnce(cfg, AfterClose(s.(attempting := false, watchdog := None, status := reported)));
      assert Repeat(e, n)[0] == e && Repeat(e, n)[1..] == Repeat(e, n - 1);
      RepeatedDisconnects(cfg, s1, gattStatus, n - 1);
    }
  }

  /**
   * From a reset counter: 150 disconnections leave the service retrying with
   * the counter at 150; the 151st gives up, and every further one leaves the
   * counter at 151.
   */
  lemma GiveUpAfter151Failures(cfg: Config, s: Supervisor, gattStatus: int, n: nat)
    requires Inv(s) && s.reconnectAttempts == 0
    ensures var r := Run(cfg, s, Repeat(TargetDisconnected(cfg, gattStatus), n));
      && r.reconnectAttempts == Min(n, MAX_RECONNECT_ATTEMPTS + 1)
      && (r.givenUp <==> n >= 151)
  {
    RepeatedDisconnects(cfg, s, gattStatus, n);
  }

  /** While given up, no entry point starts an attempt or schedules a retry; a firing retry only ends. */
  lemma GivenUpIsPassive(cfg: Config, s: Supervisor, radio: RadioView, device: Address, connectedPeers: seq<Address>, gattOpened: bool)
    requires s.givenUp
    ensures AfterFailure(cfg, s) == s
    ensures AfterScheduleRetry(cfg, s) == s
    ensures AfterConnect(cfg, s, radio) == s
    ensures AfterInitiate(cfg, s, device, connectedPeers, gattOpened) == s
    ensures s.pendingRetries > 0 ==> AfterRetryDelay(cfg, s, radio) == s.(pendingRetries := s.pendingRetries - 1)
  {
  }

  /**
   * The events that may leave the given-up state: a successful connection
   * callback, a timeout that finds the device connected, the adapter turning
   * on, and a start command.
   */
  predicate Recovers(e: Event) {
    match e
    case ConnectionStateChange(_, gattStatus, newState) => newState == STATE_CONNECTED && gattStatus == GATT_SUCCESS
    case ConnectTimeoutElapsed(systemReportsConnected) => systemReportsConnected
    case RetryDelayElapsed(_) => false
    case AdapterBroadcast(intent, _) => intent.StateChanged? && ExtraState(intent.extraState) == ADAPTER_STATE_ON
    case StartCommand(_, _) => true
    case Destroy => false
  }

  /** One event that does not recover from giving up keeps it, and opens no link. */
  lemma GivenUpStep(cfg: Config, s: Supervisor, e: Event)
    requires Inv(s) && s.givenUp && !Recovers(e)
    ensures var r := Step(cfg, s, e);
      r.givenUp && r.reconnectAttempts == s.reconnectAttempts
      && (r.gatt == s.gatt || r.gatt.None?) && (r.attempting ==> s.attempting)
  {
  }

  /** After giving up, no link is opened and no attempt starts until an event that recovers. */
  lemma {:induction false} GivenUpUntilRecovery(cfg: Config, s: Supervisor, events: seq<Event>)
    requires Inv(s) && s.givenUp
    requires forall i :: 0 <= i < |events| ==> !Recovers(events[i])
    ensures var r := Run(cfg, s, events);
      r.givenUp && r.reconnectAttempts == s.reconnectAttempts
      && (r.gatt == s.gatt || r.gatt.None?) && (r.attempting ==> s.attempting)
    decreases |events|
  {
    if events != [] {
      GivenUpStep(cfg, s, events[0]);
      StepPreservesInv(cfg, s, events[0]);
      assert forall i :: 0 <= i < |events[1..]| ==> !Recovers(events[1..][i]) by {
        forall i | 0 <= i < |events[1..]| ensures !Recovers(events[1..][i]) {
          assert events[1..][i] == events[i + 1];
        }
      }
      GivenUpUntilRecovery(cfg, Step(cfg, s, events[0]), events[1..]);
    }
  }

  /**
   * onConnectionStateChange: a callback for another device than the target
   * changes nothing; otherwise the attempt ends and the watchdog is
   * cancelled; a successful connection resets the counter and keeps the link;
   * a connection with an error or any disconnection closes the link and
   * counts exactly one failure; any other state only ends the attempt.
   */
  lemma ConnectionStateChangeOutcomes(cfg: Config, s: Supervisor, device: Option<Address>, gattStatus: int, newState: int)
    requires Inv(s)
    ensures var r := AfterConnectionStateChange(cfg, s, device, gattStatus, newState);
      && (cfg.target.Some? && device != cfg.target ==> r == s)
      && (cfg.target.None? || device == cfg.target ==>
            && !r.attempting && r.watchdog.None?
            && (newState == STATE_CONNECTED && gattStatus == GATT_SUCCESS ==>
                  r.reconnectAttempts == 0 && !r.givenUp && r.gatt == s.gatt
                  && r.pendingRetries == s.pendingRetries && r.status == Connected)
            && (newState == STATE_DISCONNECTED || (newState == STATE_CONNECTED && gattStatus != GATT_SUCCESS) ==>
                  r.gatt.None? && r.reconnectAttempts == Counted(s.reconnectAttempts)
                  && (r.givenUp <==> s.reconnectAttempts + 1 > MAX_RECONNECT_ATTEMPTS))
            && (newState != STATE_CONNECTED && newState != STATE_DISCONNECTED ==>
                  r == s.(attempting := false, watchdog := None)))
  {
  }

  /**
   * initiateGattConnection: a no-op while given up or attempting; when the
   * system lists the device as connected and the held link is for it, the
   * counters are reset and no link is opened; otherwise a stale link is
   * replaced by a new attempt on the device, with its watchdog, or, when
   * connectGatt gives nothing, no link remains and one failure is counted.
   */
  lemma InitiateOutcomes(cfg: Config, s: Supervisor, device: Address, connectedPeers: seq<Address>, gattOpened: bool)
    requires Inv(s)
    ensures var r := AfterInitiate(cfg, s, device, connectedPeers, gattOpened);
      && (s.givenUp || s.attempting ==> r == s)
      && (!s.givenUp && !s.attempting && device in connectedPeers && s.gatt == Some(device) ==>
            r.reconnectAttempts == 0 && !r.givenUp && r.gatt == s.gatt && !r.attempting
            && r.watchdog.None? && r.pendingRetries == s.pendingRetries && r.status == Connected)
      && (!s.givenUp && !s.attempting && !(device in connectedPeers && s.gatt == Some(device)) ==>
            (gattOpened ==>
              r.attempting && r.gatt == Some(device) && r.watchdog == (if s.scopeActive then Some(device) else None)
              && r.reconnectAttempts == s.reconnectAttempts && r.givenUp == s.givenUp
              && r.pendingRetries == s.pendingRetries && r.status == Connecting)
            && (!gattOpened ==>
              !r.attempting && r.gatt.None? && r.watchdog.None?
              && r.reconnectAttempts == s.reconnectAttempts + 1
              && (r.givenUp <==> s.reconnectAttempts + 1 > MAX_RECONNECT_ATTEMPTS)))
  {
  }

  /**
   * closeGattInternal leaves no link, no attempt and no watchdog, and nothing
   * else changed; closing twice is closing once, and closing with no link
   * held changes nothing.
   */
  lemma CloseOutcomes(s: Supervisor)
    ensures var r := AfterClose(s);
      && r.gatt.None? && !r.attempting && r.watchdog.None?
      && r.reconnectAttempts == s.reconnectAttempts && r.givenUp == s.givenUp
      && r.pendingRetries == s.pendingRetries && r.status == s.status && r.scopeActive == s.scopeActive
      && r.receiverSet == s.receiverSet && r.receiverListening == s.receiverListening
      && AfterClose(r) == r
    ensures Inv(s) && s.gatt.None? ==> AfterClose(s) == s
  {
  }

  /**
   * The connect-timeout job: with no live job nothing fires; a live job always
   * belongs to the attempt on the held link; when the system does not report
   * the device connected the link is closed and one failure counted;
   * otherwise the attempt ends with the counters reset and no failure.
   */
  lemma ConnectTimeoutOutcomes(cfg: Config, s: Supervisor, systemReportsConnected: bool)
    requires Inv(s)
    ensures var r := AfterConnectTimeout(cfg, s, systemReportsConnected);
      && (s.watchdog.None? ==> r == s)
      && (s.watchdog.Some? ==> s.attempting && s.gatt == s.watchdog)
      && (s.watchdog.Some? && !systemReportsConnected ==>
            r.gatt.None? && !r.attempting && r.watchdog.None? && r.status != Connected
            && r.reconnectAttempts == Counted(s.reconnectAttempts)
            && (r.givenUp <==> s.reconnectAttempts + 1 > MAX_RECONNECT_ATTEMPTS))
      && (s.watchdog.Some? && systemReportsConnected ==>
            !r.attempting && r.watchdog.None? && r.reconnectAttempts == 0 && !r.givenUp
            && r.gatt == s.gatt && r.pendingRetries == s.pendingRetries && r.status == s.status)
  {
  }

  /** A job whose attempt has moved on (ended, or on another link) does nothing when it runs. */
  lemma StaleTimeoutIsNoOp(cfg: Config, s: Supervisor, device: Address, systemReportsConnected: bool)
    requires s.watchdog == Some(device) && (!s.attempting || s.gatt != Some(device))
    ensures AfterConnectTimeout(cfg, s, systemReportsConnected) == s.(watchdog := None)
  {
  }

  /**
   * The success callback and a watchdog that finds the device connected,
   * in either order, end in the same state: connected, counters reset, the
   * link kept, and no retry scheduled.
   */
  lemma WatchdogSuccessRace(cfg: Config, s: Supervisor, device: Option<Address>, reportsLater: bool)
    requires Inv(s) && s.watchdog.Some?
    requires cfg.target.None? || device == cfg.target
    ensures var callbackFirst := AfterConnectTimeout(cfg, AfterConnectionStateChange(cfg, s, device, GATT_SUCCESS, STATE_CONNECTED), reportsLater);
      var timeoutFirst := AfterConnectionStateChange(cfg, AfterConnectTimeout(cfg, s, true), device, GATT_SUCCESS, STATE_CONNECTED);
      && callbackFirst == timeoutFirst
      && timeoutFirst.reconnectAttempts == 0 && !timeoutFirst.givenUp && !timeoutFirst.attempting
      && timeoutFirst.watchdog.None? && timeoutFirst.gatt == s.gatt
      && timeoutFirst.pendingRetries == s.pendingRetries && timeoutFirst.status == Connected
  {
  }

  /**
   * A retry task that wakes up connects only if the scope is live, retries
   * were not given up and the adapter is not disabled; otherwise only the
   * task itself (and perhaps the status) is gone.
   */
  lemma RetryDelayOutcomes(cfg: Config, s: Supervisor, radio: RadioView)
    ensures var r := AfterRetryDelay(cfg, s, radio);
      && (s.pendingRetries == 0 ==> r == s)
      && (s.pendingRetries > 0 && s.scopeActive && !s.givenUp && !AdapterDisabled(cfg, radio) ==>
            r == AfterConnect(cfg, s.(pendingRetries := s.pendingRetries - 1), radio))
      && (s.pendingRetries > 0 && !(s.scopeActive && !s.givenUp && !AdapterDisabled(cfg, radio)) ==>
            r.pendingRetries == s.pendingRetries - 1 && r.gatt == s.gatt && r.attempting == s.attempting
            && r.watchdog == s.watchdog && r.reconnectAttempts == s.reconnectAttempts && r.givenUp == s.givenUp
            && r.scopeActive == s.scopeActive && r.receiverSet == s.receiverSet
            && r.receiverListening == s.receiverListening)
      && (s.pendingRetries > 0 && !(s.scopeActive && !s.givenUp) ==> r.status == s.status)
      && (s.pendingRetries > 0 && s.scopeActive && !s.givenUp && AdapterDisabled(cfg, radio) ==>
            r.status == RetryCancelledBluetoothOff)
  {
  }

  /**
   * connectToTargetDevice: a missing or invalid address and an address the
   * platform rejects only update the status; a device that cannot be
   * obtained counts one failure; a disabled adapter defers.
   */
  lemma ConnectOutcomes(cfg: Config, s: Supervisor, radio: RadioView)
    requires !s.givenUp
    ensures var r := AfterConnect(cfg, s, radio);
      && (cfg.target.None? || !CheckBluetoothAddress(cfg.target.value) ==> r == s.(status := AddressMissingOrInvalid))
      && (cfg.target.Some? && CheckBluetoothAddress(cfg.target.value) ==>
            && (AdapterDisabled(cfg, radio) ==> r == s.(status := ConnectCancelledBluetoothOff))
            && (!AdapterDisabled(cfg, radio) && RemoteDevice(cfg, radio).Malformed? ==> r == s.(status := AddressRejected))
            && (!AdapterDisabled(cfg, radio) && RemoteDevice(cfg, radio).NotFound? ==>
                  r.reconnectAttempts == s.reconnectAttempts + 1 && r.gatt == s.gatt && r.attempting == s.attempting))
  {
  }

  /** A state in which no link, attempt or watchdog exists. */
  predicate Idle(s: Supervisor) {
    s.gatt.None? && !s.attempting && s.watchdog.None?
  }

  lemma UnconfiguredStep(cfg: Config, s: Supervisor, e: Event)
    requires cfg.target.None? && Idle(s)
    ensures Idle(Step(cfg, s, e)) && Step(cfg, s, e).pendingRetries <= s.pendingRetries
  {
  }

  /** Without a configured target no link is ever opened and no retry ever scheduled. */
  lemma {:induction false} UnconfiguredNeverConnects(cfg: Config, s: Supervisor, events: seq<Event>)
    requires cfg.target.None? && Idle(s)
    ensures Idle(Run(cfg, s, events)) && Run(cfg, s, events).pendingRetries <= s.pendingRetries
    decreases |events|
  {
    if events != [] {
      UnconfiguredStep(cfg, s, events[0]);
      UnconfiguredNeverConnects(cfg, Step(cfg, s, events[0]), events[1..]);
    }
  }

  /**
   * Adapter OFF closes the link and leaves the counters alone; adapter ON
   * clears the given-up state and then connects when the adapter reports
   * itself enabled.
   */
  lemma AdapterPowerOutcomes(cfg: Config, s: Supervisor, radio: RadioView)
    requires s.receiverListening
    ensures var r := AfterAdapterBroadcast(cfg, s, StateChanged(Some(ADAPTER_STATE_OFF)), radio);
      r.gatt.None? && !r.attempting && r.watchdog.None? && r.reconnectAttempts == s.reconnectAttempts
      && r.givenUp == s.givenUp && r.pendingRetries == s.pendingRetries && r.status == BluetoothDisabled
    ensures var r := AfterAdapterBroadcast(cfg, s, StateChanged(Some(ADAPTER_STATE_ON)), radio);
      var cleared := s.(givenUp := false, reconnectAttempts := if s.givenUp then 0 else s.reconnectAttempts, status := AdapterOnConnecting);
      r == (if cfg.hasAdapter && radio.enabled then AfterConnect(cfg, cleared, radio) else cleared)
  {
  }

  /**
   * Power cycling during an attempt after giving up: OFF closes the link and
   * keeps the counters; ON then resets them and opens a new attempt.
   */
  lemma PowerCycleRestartsAttempts(cfg: Config, s: Supervisor, off: RadioView, on: RadioView, device: Address)
    requires Inv(s) && s.receiverListening && s.scopeActive && s.givenUp
    requires cfg.hasAdapter && cfg.target.Some? && CheckBluetoothAddress(cfg.target.value)
    requires on.enabled && on.lookup == Found(device) && on.gattOpened
    ensures var offState := AfterAdapterBroadcast(cfg, s, StateChanged(Some(ADAPTER_STATE_OFF)), off);
      var onState := AfterAdapterBroadcast(cfg, offState, StateChanged(Some(ADAPTER_STATE_ON)), on);
      && offState.gatt.None? && !offState.attempting && offState.givenUp && offState.reconnectAttempts == s.reconnectAttempts
      && !onState.givenUp && onState.reconnectAttempts == 0
      && onState.attempting && onState.gatt == Some(device) && onState.watchdog == Some(device)
  {
  }

  /**
   * onStartCommand resets the counters only when retries had been given up;
   * a missing permission or a disabled adapter stops there, otherwise it
   * connects.
   */
  lemma StartCommandOutcomes(cfg: Config, s: Supervisor, permitted: bool, radio: RadioView)
    ensures var r := AfterStartCommand(cfg, s, permitted, radio);
      var reset := s.(givenUp := false, reconnectAttempts := if s.givenUp then 0 else s.reconnectAttempts, status := Initializing);
      && (!permitted ==> r == reset.(status := PermissionsMissing))
      && (permitted && AdapterDisabled(cfg, radio) ==> r == reset.(status := BluetoothDisabled))
      && (permitted && !AdapterDisabled(cfg, radio) ==> r == AfterConnect(cfg, reset, radio))
  {
  }

  /** Registering twice is registering once; unregistering twice is unregistering once. */
  lemma ReceiverRegistrationIdempotent(s: Supervisor, first: bool, second: bool)
    ensures AfterRegister(s, first).receiverSet
    ensures AfterRegister(AfterRegister(s, first), second) == AfterRegister(s, first)
    ensures !AfterUnregister(s).receiverSet && (Inv(s) ==> !AfterUnregister(s).receiverListening)
    ensures AfterUnregister(AfterUnregister(s)) == AfterUnregister(s)
  {
  }

  /**
   * onDestroy leaves no task, no link, no receiver; destroying twice is
   * destroying once.
   */
  lemma DestroyOutcomes(s: Supervisor)
    requires Inv(s)
    ensures var r := AfterDestroy(s);
      && !r.scopeActive && r.pendingRetries == 0 && r.watchdog.None? && r.gatt.None? && !r.attempting
      && !r.receiverSet && !r.receiverListening && r.status == Stopped
      && r.reconnectAttempts == s.reconnectAttempts && r.givenUp == s.givenUp
      && AfterDestroy(r) == r
  {
  }

  /** The state after onDestroy: nothing runs, nothing is held, nothing listens. */
  predicate Quiet(s: Supervisor) {
    Idle(s) && !s.scopeActive && !s.receiverListening && s.pendingRetries == 0
  }

  lemma QuietStep(cfg: Config, s: Supervisor, e: Event)
    requires Quiet(s) && !e.StartCommand?
    ensures Quiet(Step(cfg, s, e))
  {
  }

  /** After onDestroy no event other than a new start can open a link or schedule a task. */
  lemma {:induction false} DestroyedStaysQuiet(cfg: Config, s: Supervisor, events: seq<Event>)
    requires Quiet(s)
    requires forall i :: 0 <= i < |events| ==> !events[i].StartCommand?
    ensures Quiet(Run(cfg, s, events))
    decreases |events|
  {
    if events != [] {
      QuietStep(cfg, s, events[0]);
      assert forall i :: 0 <= i < |events[1..]| ==> !events[1..][i].StartCommand? by {
        forall i | 0 <= i < |events[1..]| ensures !events[1..][i].StartCommand? {
          assert events[1..][i] == events[i + 1];
        }
      }
      DestroyedStaysQuiet(cfg, Step(cfg, s, events[0]), events[1..]);
    }
  }

  const ExampleTarget: Address := "AA:BB:CC:DD:EE:FF"

  /** The example address has the format checkBluetoothAddress accepts, checked one pair and separator at a time. */
  lemma ExampleTargetIsWellFormed()
    ensures CheckBluetoothAddress(ExampleTarget)
  {
    var a := ExampleTarget;
    assert AddressCharsFrom(a, 17);
    assert AddressCharsFrom(a, 14);
    assert AddressCharsFrom(a, 11);
    assert AddressCharsFrom(a, 8);
    assert AddressCharsFrom(a, 5);
    assert AddressCharsFrom(a, 2);
  }

  /** Every well-formed address is kept by the configuration check. */
  lemma WellFormedAddressIsConfigurable(a: string)
    requires CheckBluetoothAddress(a)
    ensures TargetFromConfig(Some(a)) == Some(a)
  {
  }

  /**
   * Start with the radio on, connectGatt returning a link and the callback
   * reporting success: the attempt is armed, then the service is connected
   * with the counter at 0.
   */
  lemma ScenarioFirstConnection()
    ensures var cfg := Config(TargetFromConfig(Some(ExampleTarget)), true);
      var radio := RadioView(true, Found(ExampleTarget), [], true);
      var started := Step(cfg, Created(cfg, true), StartCommand(true, radio));
      var connected := Step(cfg, started, ConnectionStateChange(Some(ExampleTarget), GATT_SUCCESS, STATE_CONNECTED));
      && started.attempting && started.gatt == Some(ExampleTarget) && started.watchdog == Some(ExampleTarget)
      && connected.status == Connected && connected.reconnectAttempts == 0 && !connected.attempting
      && connected.gatt == Some(ExampleTarget)
  {
    ExampleTargetIsWellFormed();
    WellFormedAddressIsConfigurable(ExampleTarget);
  }

  /** A blank configured address leaves the service without a target: starting reports it and opens no link. */
  lemma ScenarioBlankTarget(radio: RadioView)
    ensures TargetFromConfig(Some("")) == None && TargetFromConfig(Some(" ")) == None
    ensures var cfg := Config(TargetFromConfig(Some("")), true);
      var started := Step(cfg, Created(cfg, true), StartCommand(true, radio));
      radio.enabled ==> started.status == AddressMissingOrInvalid && Idle(started) && started.reconnectAttempts == 0
  {
  }
}
