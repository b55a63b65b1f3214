/**
 * The connection-supervision state machine of BluetoothStateMonitorService,
 * on values: the service's fields as one datatype, one function per source
 * routine giving the state it leaves behind, and the serialised event loop
 * (Event, Step, Run) that the radio stack, the timers, the adapter
 * broadcasts and the service lifecycle drive.
 */
module Supervision {
  import opened Wrappers
  import opened BlePlatform

  /** The kind of the last status published to the status holder. */
  datatype Status =
    | NotStarted                   // the holder's initial value
    | NotSupported                 // no Bluetooth adapter
    | Initializing
    | PermissionsMissing
    | BluetoothDisabled
    | AddressMissingOrInvalid      // not retried: a configuration problem
    | AddressRejected              // getRemoteDevice refused the format
    | ConnectCancelledBluetoothOff
    | DeviceUnavailable            // getRemoteDevice returned null
    | Connecting
    | Connected
    | ConnectionError(gattStatus: int)
    | Disconnected
    | DisconnectedWithError(gattStatus: int)
    | GattInitFailed               // connectGatt returned null
    | ConnectTimedOut
    | RetryScheduled(attempt: nat)
    | RetryCancelledBluetoothOff
    | GaveUp
    | TurningOff
    | AdapterOnConnecting
    | TurningOn
    | AdapterError
    | ReceiverError
    | Stopped

  /** What is fixed when the service is created: the target address and whether an adapter exists. */
  datatype Config = Config(target: Option<Address>, hasAdapter: bool)

  /**
   * The supervision state. `gatt` is the held link object, known by the
   * address of its device; `watchdog` is the live connect-timeout job, known
   * by the address it was armed for (None once it is cancelled or has run);
   * `pendingRetries` counts the retry-delay tasks not yet run;
   * `receiverSet` is the receiver reference and `receiverListening` whether
   * the platform accepted its registration.
   */
  datatype Supervisor = Supervisor(
    reconnectAttempts: nat,
    givenUp: bool,
    attempting: bool,
    gatt: Option<Address>,
    watchdog: Option<Address>,
    pendingRetries: nat,
    scopeActive: bool,
    receiverSet: bool,
    receiverListening: bool,
    status: Status)

  /**
   * What holds between events: the counter never passes the ceiling by more
   * than one and reaches it exactly when retries were given up; an attempt
   * always has a link; a live watchdog belongs to the attempt on the held
   * link, and an attempt in a live scope has one; a cancelled scope runs no
   * task; a listening receiver is referenced.
   */
  ghost predicate Inv(s: Supervisor) {
    && s.reconnectAttempts <= MAX_RECONNECT_ATTEMPTS + 1
    && (s.givenUp <==> s.reconnectAttempts == MAX_RECONNECT_ATTEMPTS + 1)
    && (s.attempting ==> s.gatt.Some?)
    && (s.watchdog.Some? ==> s.attempting && s.gatt == s.watchdog)
    && (s.attempting && s.scopeActive ==> s.watchdog.Some?)
    && (!s.scopeActive ==> s.pendingRetries == 0 && s.watchdog.None?)
    && (s.receiverListening ==> s.receiverSet)
  }

  /** bluetoothAdapter?.isEnabled == false: a missing adapter does not count as disabled. */
  predicate AdapterDisabled(cfg: Config, radio: RadioView) {
    cfg.hasAdapter && !radio.enabled
  }

  /** bluetoothAdapter?.getRemoteDevice(target): null without an adapter. */
  function RemoteDevice(cfg: Config, radio: RadioView): Lookup {
    if cfg.hasAdapter then radio.lookup else NotFound
  }

  /** The service as onCreate leaves it. */
  function Created(cfg: Config, registrationSucceeds: bool): Supervisor {
    var initial := Supervisor(0, false, false, None, None, 0, true, false, false, NotStarted);
    if !cfg.hasAdapter then initial.(status := NotSupported)
    else AfterRegister(initial, registrationSucceeds)
  }

  /** closeGattInternal: cancel the watchdog, end the attempt, drop the link. */
  function AfterClose(s: Supervisor): Supervisor {
    s.(watchdog := None, attempting := false, gatt := None)
  }

  /** attemptReconnectAfterDelay: launch one retry task, unless given up, unconfigured or the scope is cancelled. */
  function AfterScheduleRetry(cfg: Config, s: Supervisor): Supervisor {
    if s.givenUp || cfg.target.None? || !s.scopeActive then s
    else s.(pendingRetries := s.pendingRetries + 1, status := RetryScheduled(s.reconnectAttempts))
  }

  /** handleFailedConnectionAttempt: count one failure, then give up or schedule a retry. */
  function AfterFailure(cfg: Config, s: Supervisor): Supervisor {
    if s.givenUp then s
    else
      var counted := s.(reconnectAttempts := s.reconnectAttempts + 1);
      if counted.reconnectAttempts > MAX_RECONNECT_ATTEMPTS then counted.(status := GaveUp, givenUp := true)
      else AfterScheduleRetry(cfg, counted)
  }

  /** initiateGattConnection(device), with the radio's answers. */
  function AfterInitiate(cfg: Config, s: Supervisor, device: Address, connectedPeers: seq<Address>, gattOpened: bool): Supervisor {
    if s.givenUp || s.attempting then s
    else if AnyHasAddress(connectedPeers, device) && s.gatt == Some(device) then
      s.(status := Connected, reconnectAttempts := 0, givenUp := false)
    else
      var opening := (if s.gatt.Some? then AfterClose(s) else s).(attempting := true, status := Connecting);
      if !gattOpened then
        AfterFailure(cfg, opening.(gatt := None, status := GattInitFailed, attempting := false))
      else
        opening.(gatt := Some(device), watchdog := if opening.scopeActive then Some(device) else None)
  }

  /** connectToTargetDevice, with the radio's answers. */
  function AfterConnect(cfg: Config, s: Supervisor, radio: RadioView): Supervisor {
    if s.givenUp then s
    else if cfg.target.None? || !CheckBluetoothAddress(cfg.target.value) then s.(status := AddressMissingOrInvalid)
    else if AdapterDisabled(cfg, radio) then s.(status := ConnectCancelledBluetoothOff)
    else
      match RemoteDevice(cfg, radio)
      case Malformed => s.(status := AddressRejected)
      case NotFound => AfterFailure(cfg, s.(status := DeviceUnavailable))
      case Found(device) => AfterInitiate(cfg, s, device, radio.connectedPeers, radio.gattOpened)
  }

  /** gattCallback.onConnectionStateChange for a link to `device`. */
  function AfterConnectionStateChange(cfg: Config, s: Supervisor, device: Option<Address>, gattStatus: int, newState: int): Supervisor {
    if cfg.target.Some? && device != cfg.target then s
    else
      var concluded := s.(attempting := false, watchdog := None);
      if newState == STATE_CONNECTED then
        if gattStatus == GATT_SUCCESS then concluded.(status := Connected, reconnectAttempts := 0, givenUp := false)
        else AfterFailure(cfg, AfterClose(concluded.(status := ConnectionError(gattStatus))))
      else if newState == STATE_DISCONNECTED then
        var reported := if gattStatus == GATT_SUCCESS then Disconnected else DisconnectedWithError(gattStatus);
        AfterFailure(cfg, AfterClose(concluded.(status := reported)))
      else concluded
  }

  /** The connect-timeout job runs; `systemReportsConnected` is getConnectionState(device, GATT) == STATE_CONNECTED. */
  function AfterConnectTimeout(cfg: Config, s: Supervisor, systemReportsConnected: bool): Supervisor {
    match s.watchdog
    case None => s
    case Some(device) =>
      var fired := s.(watchdog := None);
      if fired.attempting && fired.gatt == Some(device) then
        if !systemReportsConnected then AfterFailure(cfg, AfterClose(fired.(status := ConnectTimedOut)))
        else fired.(attempting := false, reconnectAttempts := 0, givenUp := false)
      else fired
  }

  /** One retry task wakes up after its delay and re-checks before connecting. */
  function AfterRetryDelay(cfg: Config, s: Supervisor, radio: RadioView): Supervisor {
    if s.pendingRetries == 0 then s
    else
      var fired := s.(pendingRetries := s.pendingRetries - 1);
      if !fired.scopeActive || fired.givenUp then fired
      else if AdapterDisabled(cfg, radio) then fired.(status := RetryCancelledBluetoothOff)
      else AfterConnect(cfg, fired, radio)
  }

  /** The adapter-state receiver's onReceive; only a listening receiver is called. */
  function AfterAdapterBroadcast(cfg: Config, s: Supervisor, intent: AdapterIntent, radio: RadioView): Supervisor {
    if !s.receiverListening || !intent.StateChanged? then s
    else
      var state := ExtraState(intent.extraState);
      if state == ADAPTER_STATE_OFF then AfterClose(s.(status := BluetoothDisabled))
      else if state == ADAPTER_STATE_TURNING_OFF then s.(status := TurningOff)
      else if state == ADAPTER_STATE_ON then
        var reset := if s.givenUp then s.(givenUp := false, reconnectAttempts := 0) else s;
        var announced := reset.(status := AdapterOnConnecting);
        if cfg.hasAdapter && radio.enabled then AfterConnect(cfg, announced, radio) else announced
      else if state == ADAPTER_STATE_TURNING_ON then s.(status := TurningOn)
      else if state == ADAPTER_ERROR then s.(status := AdapterError)
      else s
  }

  /** onStartCommand: the give-up state is reset only when retries had been given up. */
  function AfterStartCommand(cfg: Config, s: Supervisor, permitted: bool, radio: RadioView): Supervisor {
    var reset := if s.givenUp then s.(givenUp := false, reconnectAttempts := 0) else s;
    var initializing := reset.(status := Initializing);
    if !permitted then initializing.(status := PermissionsMissing)
    else if AdapterDisabled(cfg, radio) then initializing.(status := BluetoothDisabled)
    else AfterConnect(cfg, initializing, radio)
  }

  /** registerAdapterStateReceiver: only when no receiver is referenced yet; a failed registration still keeps the reference. */
  function AfterRegister(s: Supervisor, registrationSucceeds: bool): Supervisor {
    if s.receiverSet then s
    else if registrationSucceeds then s.(receiverSet := true, receiverListening := true)
    else s.(receiverSet := true, status := ReceiverError)
  }

  /** unregisterAdapterStateReceiver: only when a receiver is referenced. */
  function AfterUnregister(s: Supervisor): Supervisor {
    if !s.receiverSet then s
    else s.(receiverSet := false, receiverListening := false)
  }

  /** onDestroy: unregister, cancel every task of the scope, close the link. */
  function AfterDestroy(s: Supervisor): Supervisor {
    var unregistered := AfterUnregister(s).(status := Stopped);
    AfterClose(unregistered.(scopeActive := false, pendingRetries := 0, watchdog := None))
  }

  /** The events that reach the service, one at a time. */
  datatype Event =
    | ConnectionStateChange(device: Option<Address>, gattStatus: int, newState: int)
    | ConnectTimeoutElapsed(systemReportsConnected: bool)
    | RetryDelayElapsed(radio: RadioView)
    | AdapterBroadcast(intent: AdapterIntent, radio: RadioView)
    | StartCommand(permitted: bool, radio: RadioView)
    | Destroy

  function Step(cfg: Config, s: Supervisor, e: Event): Supervisor {
    match e
    case ConnectionStateChange(device, gattStatus, newState) => AfterConnectionStateChange(cfg, s, device, gattStatus, newState)
    case ConnectTimeoutElapsed(connected) => AfterConnectTimeout(cfg, s, connected)
    case RetryDelayElapsed(radio) => AfterRetryDelay(cfg, s, radio)
    case AdapterBroadcast(intent, radio) => AfterAdapterBroadcast(cfg, s, intent, radio)
    case StartCommand(permitted, radio) => AfterStartCommand(cfg, s, permitted, radio)
    case Destroy => AfterDestroy(s)
  }

  function Run(cfg: Config, s: Supervisor, events: seq<Event>): Supervisor
    decreases |events|
  {
    if events == [] then s else Run(cfg, Step(cfg, s, events[0]), events[1..])
  }

  /** Every event keeps the invariant. */
  lemma StepPreservesInv(cfg: Config, s: Supervisor, e: Event)
    requires Inv(s)
    ensures Inv(Step(cfg, s, e))
  {
    match e
    case ConnectionStateChange(device, gattStatus, newState) =>
      ConnectionStateChangePreservesInv(cfg, s, device, gattStatus, newState);
    case ConnectTimeoutElapsed(connected) =>
      ConnectTimeoutPreservesInv(cfg, s, connected);
    case RetryDelayElapsed(radio) =>
      RetryDelayPreservesInv(cfg, s, radio);
    case AdapterBroadcast(intent, radio) =>
      AdapterBroadcastPreservesInv(cfg, s, intent, radio);
    case StartCommand(permitted, radio) =>
      StartCommandPreservesInv(cfg, s, permitted, radio);
    case Destroy =>
  }

  /** A failure keeps the counter within the ceiling: the count reaches it exactly when giving up. */
  lemma FailurePreservesInv(cfg: Config, s: Supervisor)
    requires Inv(s)
    ensures Inv(AfterFailure(cfg, s)) && AfterFailure(cfg, s).attempting == s.attempting
  {
  }

  lemma InitiatePreservesInv(cfg: Config, s: Supervisor, device: Address, connectedPeers: seq<Address>, gattOpened: bool)
    requires Inv(s)
    ensures Inv(AfterInitiate(cfg, s, device, connectedPeers, gattOpened))
  {
  }

  /** The failure counted for a missing device may happen during an attempt, which it leaves alone. */
  lemma ConnectPreservesInv(cfg: Config, s: Supervisor, radio: RadioView)
    requires Inv(s)
    ensures Inv(AfterConnect(cfg, s, radio))
  {
    if RemoteDevice(cfg, radio).Found? {
      InitiatePreservesInv(cfg, s, RemoteDevice(cfg, radio).address, radio.connectedPeers, radio.gattOpened);
    } else if RemoteDevice(cfg, radio).NotFound? {
      FailurePreservesInv(cfg, s.(status := DeviceUnavailable));
    }
  }

  lemma ConnectionStateChangePreservesInv(cfg: Config, s: Supervisor, device: Option<Address>, gattStatus: int, newState: int)
    requires Inv(s)
    ensures Inv(AfterConnectionStateChange(cfg, s, device, gattStatus, newState))
  {
  }

  lemma ConnectTimeoutPreservesInv(cfg: Config, s: Supervisor, systemReportsConnected: bool)
    requires Inv(s)
    ensures Inv(AfterConnectTimeout(cfg, s, systemReportsConnected))
  {
  }

  lemma RetryDelayPreservesInv(cfg: Config, s: Supervisor, radio: RadioView)
    requires Inv(s)
    ensures Inv(AfterRetryDelay(cfg, s, radio))
  {
  }

  lemma AdapterBroadcastPreservesInv(cfg: Config, s: Supervisor, intent: AdapterIntent, radio: RadioView)
    requires Inv(s)
    ensures Inv(AfterAdapterBroadcast(cfg, s, intent, radio))
  {
    if s.receiverListening && intent.StateChanged? && ExtraState(intent.extraState) == ADAPTER_STATE_ON {
      var reset := if s.givenUp then s.(givenUp := false, reconnectAttempts := 0) else s;
      ConnectPreservesInv(cfg, reset.(status := AdapterOnConnecting), radio);
    }
  }

  lemma StartCommandPreservesInv(cfg: Config, s: Supervisor, permitted: bool, radio: RadioView)
    requires Inv(s)
    ensures Inv(AfterStartCommand(cfg, s, permitted, radio))
  {
    var reset := if s.givenUp then s.(givenUp := false, reconnectAttempts := 0) else s;
    ConnectPreservesInv(cfg, reset.(status := Initializing), radio);
  }

  /** The state onCreate leaves satisfies the invariant. */
  lemma CreatedSatisfiesInv(cfg: Config, registrationSucceeds: bool)
    ensures Inv(Created(cfg, registrationSucceeds))
  {
  }
}
