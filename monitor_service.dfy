/**
 * BluetoothStateMonitorService as an object whose event handlers update its
 * fields in place. Every handler is one atomic, serialised step; the radio
 * stack's answers arrive as parameters; each method is proved to leave the
 * state its Supervision function describes.
 */
module MonitorService {
  import opened Wrappers
  import opened BlePlatform
  import opened Supervision

  class BluetoothStateMonitorService {
    /** TARGET_DEVICE_ADDRESS, loaded once by onCreate. */
    const target: Option<Address>
    /** Whether onCreate found a Bluetooth adapter. */
    const hasAdapter: bool

    var currentReconnectAttempts: nat
    var hasGivenUpRetrying: bool
    var isAttemptingConnection: bool
    /** bluetoothGatt, by the address of its device. */
    var bluetoothGatt: Option<Address>
    /** connectionAttemptJob while it is live, by the address it watches. */
    var connectionAttemptJob: Option<Address>
    /** Retry-delay tasks launched and not yet run; they have no handle. */
    var pendingRetries: nat
    /** serviceScope.isActive. */
    var scopeActive: bool
    /** adapterStateReceiver != null. */
    var adapterStateReceiver: bool
    /** Whether the platform accepted the receiver's registration. */
    var receiverListening: bool
    /** The last status published to the status holder. */
    var status: Status

    function Cfg(): Config {
      Config(target, hasAdapter)
    }

    function Model(): Supervisor
      reads this
    {
      Supervisor(currentReconnectAttempts, hasGivenUpRetrying, isAttemptingConnection, bluetoothGatt,
                 connectionAttemptJob, pendingRetries, scopeActive, adapterStateReceiver, receiverListening, status)
    }

    ghost predicate Valid()
      reads this
    {
      Inv(Model())
    }

    /** onCreate: load the target address, look for the adapter, register the receiver. */
    constructor (loadedAddress: Option<string>, adapterPresent: bool, registrationSucceeds: bool)
      ensures Cfg() == Config(TargetFromConfig(loadedAddress), adapterPresent)
      ensures Valid() && Model() == Created(Cfg(), registrationSucceeds)
    {
      target := TargetFromConfig(loadedAddress);
      hasAdapter := adapterPresent;
      currentReconnectAttempts := 0;
      hasGivenUpRetrying := false;
      isAttemptingConnection := false;
      bluetoothGatt := None;
      connectionAttemptJob := None;
      pendingRetries := 0;
      scopeActive := true;
      adapterStateReceiver := false;
      receiverListening := false;
      status := NotStarted;
      new;
      if !hasAdapter {
        PublishStatusUpdate(NotSupported);
      } else {
        RegisterAdapterStateReceiver(registrationSucceeds);
      }
      CreatedSatisfiesInv(Cfg(), registrationSucceeds);
    }

    method PublishStatusUpdate(message: Status)
      modifies this
      ensures Model() == old(Model()).(status := message)
    {
      status := message;
    }

    method CloseGattInternal()
      modifies this
      ensures Model() == AfterClose(old(Model()))
    {
      connectionAttemptJob := None;
      isAttemptingConnection := false;
      var gattToClose := bluetoothGatt;
      bluetoothGatt := None;
      if gattToClose.None? {
        return;
      }
      // disconnect() and close() on gattToClose are radio calls outside the model
    }

    method AttemptReconnectAfterDelay()
      modifies this
      ensures Model() == AfterScheduleRetry(Cfg(), old(Model()))
    {
      if hasGivenUpRetrying {
        return;
      }
      if target.None? {
        return;
      }
      // a launch in a cancelled scope never runs
      if scopeActive {
        pendingRetries := pendingRetries + 1;
        PublishStatusUpdate(RetryScheduled(currentReconnectAttempts));
      }
    }

    method HandleFailedConnectionAttempt()
      modifies this
      ensures Model() == AfterFailure(Cfg(), old(Model()))
    {
      if hasGivenUpRetrying {
        return;
      }
      currentReconnectAttempts := currentReconnectAttempts + 1;
      if currentReconnectAttempts > MAX_RECONNECT_ATTEMPTS {
        PublishStatusUpdate(GaveUp);
        hasGivenUpRetrying := true;
      } else {
        AttemptReconnectAfterDelay();
      }
    }

    method InitiateGattConnection(device: Address, connectedPeers: seq<Address>, gattOpened: bool)
      modifies this
      ensures Model() == AfterInitiate(Cfg(), old(Model()), device, connectedPeers, gattOpened)
    {
      if hasGivenUpRetrying {
        return;
      }
      if isAttemptingConnection {
        return;
      }
      var isDeviceSystemConnected := AnyHasAddress(connectedPeers, device);
      if isDeviceSystemConnected && bluetoothGatt == Some(device) {
        PublishStatusUpdate(Connected);
        currentReconnectAttempts := 0;
        hasGivenUpRetrying := false;
        return;
      }
      if bluetoothGatt.Some? {
        CloseGattInternal();
      }
      isAttemptingConnection := true;
      PublishStatusUpdate(Connecting);
      bluetoothGatt := if gattOpened then Some(device) else None;
      if bluetoothGatt.None? {
        PublishStatusUpdate(GattInitFailed);
        isAttemptingConnection := false;
        HandleFailedConnectionAttempt();
      } else {
        // the previous job is cancelled and a new one armed, unless the scope is cancelled
        connectionAttemptJob := if scopeActive then Some(device) else None;
      }
    }

    method ConnectToTargetDevice(radio: RadioView)
      modifies this
      ensures Model() == AfterConnect(Cfg(), old(Model()), radio)
    {
      if hasGivenUpRetrying {
        return;
      }
      if target.None? || !CheckBluetoothAddress(target.value) {
        PublishStatusUpdate(AddressMissingOrInvalid);
        return;
      }
      if AdapterDisabled(Cfg(), radio) {
        PublishStatusUpdate(ConnectCancelledBluetoothOff);
        return;
      }
      var device := RemoteDevice(Cfg(), radio);
      match device
      case Malformed =>
        PublishStatusUpdate(AddressRejected);
      case NotFound =>
        PublishStatusUpdate(DeviceUnavailable);
        HandleFailedConnectionAttempt();
      case Found(address) =>
        InitiateGattConnection(address, radio.connectedPeers, radio.gattOpened);
    }

    /** gattCallback.onConnectionStateChange. */
    method OnConnectionStateChange(deviceAddress: Option<Address>, gattStatus: int, newState: int)
      requires Valid()
      modifies this
      ensures Valid()
      ensures Model() == AfterConnectionStateChange(Cfg(), old(Model()), deviceAddress, gattStatus, newState)
    {
      ConnectionStateChangePreservesInv(Cfg(), Model(), deviceAddress, gattStatus, newState);
      if target.Some? && deviceAddress != target {
        return;
      }
      isAttemptingConnection := false;
      connectionAttemptJob := None;
      ghost var concluded := Model();
      if newState == STATE_CONNECTED {
        if gattStatus == GATT_SUCCESS {
          PublishStatusUpdate(Connected);
          currentReconnectAttempts := 0;
          hasGivenUpRetrying := false;
        } else {
          PublishStatusUpdate(ConnectionError(gattStatus));
          CloseGattInternal();
          assert Model() == AfterClose(concluded.(status := ConnectionError(gattStatus)));
          HandleFailedConnectionAttempt();
        }
      } else if newState == STATE_DISCONNECTED {
        if gattStatus == GATT_SUCCESS {
          PublishStatusUpdate(Disconnected);
        } else {
          PublishStatusUpdate(DisconnectedWithError(gattStatus));
        }
        ghost var reported := if gattStatus == GATT_SUCCESS then Disconnected else DisconnectedWithError(gattStatus);
        assert Model() == concluded.(status := reported);
        CloseGattInternal();
        HandleFailedConnectionAttempt();
      }
    }

    /** The connect-timeout job runs after its delay. */
    method OnConnectTimeout(systemReportsConnected: bool)
      requires Valid()
      modifies this
      ensures Valid()
      ensures Model() == AfterConnectTimeout(Cfg(), old(Model()), systemReportsConnected)
    {
      ConnectTimeoutPreservesInv(Cfg(), Model(), systemReportsConnected);
      if connectionAttemptJob.None? {
        return;
      }
      var device := connectionAttemptJob.value;
      connectionAttemptJob := None;
      if isAttemptingConnection && bluetoothGatt == Some(device) {
        if !systemReportsConnected {
          PublishStatusUpdate(ConnectTimedOut);
          CloseGattInternal();
          HandleFailedConnectionAttempt();
        } else {
          isAttemptingConnection := false;
          currentReconnectAttempts := 0;
          hasGivenUpRetrying := false;
        }
      }
    }

    /** One retry task runs after its delay. */
    method OnRetryDelay(radio: RadioView)
      requires Valid()
      modifies this
      ensures Valid()
      ensures Model() == AfterRetryDelay(Cfg(), old(Model()), radio)
    {
      RetryDelayPreservesInv(Cfg(), Model(), radio);
      if pendingRetries == 0 {
        return;
      }
      pendingRetries := pendingRetries - 1;
      if !scopeActive || hasGivenUpRetrying {
        return;
      }
      if AdapterDisabled(Cfg(), radio) {
        PublishStatusUpdate(RetryCancelledBluetoothOff);
      } else {
        ConnectToTargetDevice(radio);
      }
    }

    /** The adapter-state receiver's onReceive. */
    method OnAdapterStateReceive(intent: AdapterIntent, radio: RadioView)
      requires Valid()
      modifies this
      ensures Valid()
      ensures Model() == AfterAdapterBroadcast(Cfg(), old(Model()), intent, radio)
    {
      AdapterBroadcastPreservesInv(Cfg(), Model(), intent, radio);
      if !receiverListening || !intent.StateChanged? {
        return;
      }
      var state := ExtraState(intent.extraState);
      if state == ADAPTER_STATE_OFF {
        PublishStatusUpdate(BluetoothDisabled);
        CloseGattInternal();
      } else if state == ADAPTER_STATE_TURNING_OFF {
        PublishStatusUpdate(TurningOff);
      } else if state == ADAPTER_STATE_ON {
        if hasGivenUpRetrying {
          hasGivenUpRetrying := false;
          currentReconnectAttempts := 0;
        }
        PublishStatusUpdate(AdapterOnConnecting);
        if hasAdapter && radio.enabled {
          ConnectToTargetDevice(radio);
        }
      } else if state == ADAPTER_STATE_TURNING_ON {
        PublishStatusUpdate(TurningOn);
      } else if state == ADAPTER_ERROR {
        PublishStatusUpdate(AdapterError);
      }
    }

    /** onStartCommand; `sticky` is START_STICKY rather than START_NOT_STICKY. */
    method OnStartCommand(permitted: bool, radio: RadioView) returns (sticky: bool)
      requires Valid()
      modifies this
      ensures Valid()
      ensures Model() == AfterStartCommand(Cfg(), old(Model()), permitted, radio)
      ensures sticky == permitted
    {
      ghost var before := Model();
      StartCommandPreservesInv(Cfg(), before, permitted, radio);
      if hasGivenUpRetrying {
        hasGivenUpRetrying := false;
        currentReconnectAttempts := 0;
      }
      PublishStatusUpdate(Initializing);
      ghost var initializing := Model();
      assert initializing == (if before.givenUp then before.(givenUp := false, reconnectAttempts := 0) else before).(status := Initializing);
      if !permitted {
        PublishStatusUpdate(PermissionsMissing);
        return false;
      }
      if AdapterDisabled(Cfg(), radio) {
        PublishStatusUpdate(BluetoothDisabled);
        return true;
      }
      assert AfterStartCommand(Cfg(), before, permitted, radio) == AfterConnect(Cfg(), initializing, radio);
      ConnectToTargetDevice(radio);
      return true;
    }

    method OnDestroy()
      requires Valid()
      modifies this
      ensures Valid()
      ensures Model() == AfterDestroy(old(Model()))
    {
      UnregisterAdapterStateReceiver();
      PublishStatusUpdate(Stopped);
      // serviceScope.cancel(): every retry task and the timeout job are cancelled
      scopeActive := false;
      pendingRetries := 0;
      connectionAttemptJob := None;
      CloseGattInternal();
    }

    method RegisterAdapterStateReceiver(registrationSucceeds: bool)
      modifies this
      ensures Model() == AfterRegister(old(Model()), registrationSucceeds)
    {
      if !adapterStateReceiver {
        adapterStateReceiver := true;
        if registrationSucceeds {
          receiverListening := true;
        } else {
          PublishStatusUpdate(ReceiverError);
        }
      }
    }

    method UnregisterAdapterStateReceiver()
      modifies this
      ensures Model() == AfterUnregister(old(Model()))
    {
      if adapterStateReceiver {
        // unregisterReceiver; its failure for a receiver that never registered is caught
        receiverListening := false;
        adapterStateReceiver := false;
      }
    }
  }
}
