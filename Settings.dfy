/**
 * A device entry of the plugin's configuration and the defaults the device
 * applies to it with `||`: a falsy (absent, empty, zero, false, null) value is
 * replaced by the default, any truthy value is kept as it is.
 */
module Settings {
  import opened JsValues

  /** One entry of the `devices` list; an absent key reads as Undefined. */
  datatype DeviceConfig = DeviceConfig(
    name: Value,
    host: Value,
    user: Value,
    passwd: Value,
    refreshInterval: Value,
    disableLogInfo: Value,
    manufacturer: Value,
    modelName: Value,
    serialNumber: Value,
    firmwareRevision: Value)

  /** Poll period in seconds. */
  const DefaultRefreshInterval: Value := Num(5)
  const DefaultManufacturer: Value := Str("Gosund")
  const DefaultModelName: Value := Str("SP111")
  const DefaultSerialNumber: Value := Str("Serial Number")
  const DefaultFirmwareRevision: Value := Str("Firmware Revision")

  /** The device's settings: its configuration entry with the defaults filled in. */
  function Settle(c: DeviceConfig): (s: DeviceConfig)
    // connection data and the log switch are taken as they are
    ensures s.name == c.name && s.host == c.host && s.user == c.user
    ensures s.passwd == c.passwd && s.disableLogInfo == c.disableLogInfo
    // a defaulted setting is never falsy
    ensures Truthy(s.refreshInterval) && Truthy(s.manufacturer) && Truthy(s.modelName)
    ensures Truthy(s.serialNumber) && Truthy(s.firmwareRevision)
    // a truthy value is kept
    ensures Truthy(c.refreshInterval) ==> s.refreshInterval == c.refreshInterval
    ensures Truthy(c.manufacturer) ==> s.manufacturer == c.manufacturer
    ensures Truthy(c.modelName) ==> s.modelName == c.modelName
    ensures Truthy(c.serialNumber) ==> s.serialNumber == c.serialNumber
    ensures Truthy(c.firmwareRevision) ==> s.firmwareRevision == c.firmwareRevision
    // a falsy value gives way to the default
    ensures !Truthy(c.refreshInterval) ==> s.refreshInterval == DefaultRefreshInterval
    ensures !Truthy(c.manufacturer) ==> s.manufacturer == DefaultManufacturer
    ensures !Truthy(c.modelName) ==> s.modelName == DefaultModelName
    ensures !Truthy(c.serialNumber) ==> s.serialNumber == DefaultSerialNumber
    ensures !Truthy(c.firmwareRevision) ==> s.firmwareRevision == DefaultFirmwareRevision
  {
    c.(refreshInterval := Or(c.refreshInterval, DefaultRefreshInterval),
       manufacturer := Or(c.manufacturer, DefaultManufacturer),
       modelName := Or(c.modelName, DefaultModelName),
       serialNumber := Or(c.serialNumber, DefaultSerialNumber),
       firmwareRevision := Or(c.firmwareRevision, DefaultFirmwareRevision))
  }
}
