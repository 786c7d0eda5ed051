/**
 * The three records of the bridge device model: identity and firmware
 * metadata, the configuration read back from the device, and its runtime
 * state. `undefined` and `null` are `None`.
 */
module BridgeTypes {
  import opened Common

  /** One configured wireless M-Bus meter: its radio id and its key. */
  datatype MeterConfig = MeterConfig(id: string, key: string)

  datatype DeviceMetadata = DeviceMetadata(
    deviceId: Option<string>,
    deviceAltId: Option<string>,
    versionLong: Option<string>,
    versionTag: Option<string>,
    versionShort: Option<string>,
    lpwanModemType: Option<string>)

  /**
   * `meters` maps a slot index to the meter in that slot; a JavaScript `Map`
   * keyed by safe integers, so by naturals here.
   */
  datatype DeviceConfiguration = DeviceConfiguration(
    stackMode: Option<string>,
    meterType: Option<string>,
    meters: map<nat, MeterConfig>,
    time: Option<nat>,
    listeningStart: Option<nat>,
    listeningCycle: Option<nat>,
    listeningDuration: Option<nat>)

  /** `transmitting` is `null` (None) when no message is being sent. */
  datatype DeviceState = DeviceState(
    runmode: Option<string>,
    mbusEnabled: bool,
    transmitting: Option<string>)

  /** The three records together, as one value. */
  datatype DeviceModel = DeviceModel(
    metadata: DeviceMetadata,
    configuration: DeviceConfiguration,
    state: DeviceState)
}
