/**
 * What the monitoring service sees of the Android Bluetooth platform: the
 * constants it compares against, the views of the radio that the model takes
 * as inputs, and the two pure checks the service makes on addresses.
 */
module BlePlatform {
  import opened Wrappers

  /** A hardware address in its string form, such as "AA:BB:CC:DD:EE:FF". */
  type Address = string

  /** Automatic retries stop once this many failures have been exceeded. */
  const MAX_RECONNECT_ATTEMPTS: nat := 150

  // BluetoothGatt and BluetoothProfile constants
  const GATT_SUCCESS: int := 0
  const STATE_DISCONNECTED: int := 0
  const STATE_CONNECTED: int := 2

  // BluetoothAdapter power states carried by ACTION_STATE_CHANGED
  const ADAPTER_ERROR: int := -0x8000_0000
  const ADAPTER_STATE_OFF: int := 10
  const ADAPTER_STATE_TURNING_ON: int := 11
  const ADAPTER_STATE_ON: int := 12
  const ADAPTER_STATE_TURNING_OFF: int := 13

  /** The value shipped in the configuration template. */
  const PLACEHOLDER_ADDRESS: string := "YOUR_ESP32_MAC_ADDRESS_HERE"

  /** Kotlin's Char.isWhitespace: Java whitespace or a Unicode space separator. */
  predicate IsWhitespace(c: char) {
    c == ' ' || c == '\t' || c == '\n' || c == '\r' || c == '\U{000B}' || c == '\U{000C}'
    || ('\U{001C}' <= c <= '\U{001F}') || c == '\U{00A0}' || c == '\U{1680}'
    || ('\U{2000}' <= c <= '\U{200A}') || c == '\U{2028}' || c == '\U{2029}'
    || c == '\U{202F}' || c == '\U{205F}' || c == '\U{3000}'
  }

  /** Kotlin's isBlank: empty or whitespace only. */
  predicate IsBlank(s: string) {
    forall i :: 0 <= i < |s| ==> IsWhitespace(s[i])
  }

  /**
   * The target address kept from the configured value (None when the file,
   * the key or the value is missing): the placeholder and blank values are
   * rejected, anything else is kept verbatim.
   */
  function TargetFromConfig(loaded: Option<string>): (target: Option<Address>)
    ensures target.Some? ==> target == loaded && |target.value| > 0
    ensures target.Some? ==> target.value != PLACEHOLDER_ADDRESS && !IsBlank(target.value)
    ensures loaded.Some? && loaded.value != PLACEHOLDER_ADDRESS && !IsBlank(loaded.value) ==> target == loaded
  {
    match loaded
    case None => None
    case Some(address) =>
      if address == PLACEHOLDER_ADDRESS || IsBlank(address) then None else Some(address)
  }

  predicate IsUpperHexDigit(c: char) {
    '0' <= c <= '9' || 'A' <= c <= 'F'
  }

  /**
   * BluetoothAdapter.checkBluetoothAddress, as Android documents it: 17
   * characters, six upper-case hexadecimal pairs separated by colons.
   */
  predicate CheckBluetoothAddress(a: string) {
    |a| == 17 && AddressCharsFrom(a, 0)
  }

  /** Every character of `a` from index `i` on is in its place in the address format. */
  predicate AddressCharsFrom(a: string, i: nat)
    decreases |a| - i
  {
    i >= |a| || ((if i % 3 == 2 then a[i] == ':' else IsUpperHexDigit(a[i])) && AddressCharsFrom(a, i + 1))
  }

  /** What getRemoteDevice gives for the target address. */
  datatype Lookup =
    | Found(address: Address)  // a device object, with the address it reports
    | NotFound                 // null
    | Malformed                // IllegalArgumentException: not retried

  /**
   * The answers the radio stack gives during one event: isEnabled, the
   * getRemoteDevice result, the addresses getConnectedDevices(GATT) lists
   * (empty when the manager is missing), and whether connectGatt returned a
   * link object.
   */
  datatype RadioView = RadioView(enabled: bool, lookup: Lookup, connectedPeers: seq<Address>, gattOpened: bool)

  /** A broadcast delivered to the adapter-state receiver. */
  datatype AdapterIntent =
    | StateChanged(extraState: Option<int>)  // ACTION_STATE_CHANGED, with its EXTRA_STATE if present
    | OtherAction

  /** getIntExtra(EXTRA_STATE, ERROR). */
  function ExtraState(extra: Option<int>): int {
    match extra
    case None => ADAPTER_ERROR
    case Some(state) => state
  }

  /**
   * systemConnectedGattDevices.any { it.address == device.address }: true
   * exactly when the device's address is among the listed ones.
   */
  function AnyHasAddress(peers: seq<Address>, address: Address): (found: bool)
    ensures found <==> address in peers
  {
    if peers == [] then false
    else peers[0] == address || AnyHasAddress(peers[1..], address)
  }
}
