/**
 * One outlet: the device object that polls the outlet on a timer, keeps the
 * last power value it read, publishes one accessory to the host and answers
 * the host's get and set requests.
 */
module Device {
  import opened Wrappers
  import opened JsValues
  import opened Commands
  import opened Settings
  import opened Polling

  /** What the published accessory carries: its name and its information service. */
  datatype Accessory = Accessory(
    name: Value,
    manufacturer: Value,
    model: Value,
    serialNumber: Value,
    firmwareRevision: Value)

  function AccessoryOf(s: DeviceConfig): Accessory {
    Accessory(s.name, s.manufacturer, s.modelName, s.serialNumber, s.firmwareRevision)
  }

  class TasmotaDevice {
    /** The configuration entry the device was built from. */
    const config: DeviceConfig
    /** The configuration entry with its defaults applied. */
    const settings: DeviceConfig
    /** The request URL up to `&cmnd=`. */
    const url: string

    /** Discovery pending: the next tick requests the device info. */
    var checkDeviceInfo: bool
    /** State refresh pending: the next tick requests the power state. */
    var checkDeviceState: bool
    /** The accessory has not been published yet. */
    var startPrepareAccessory: bool
    /** The last power value read from the outlet. */
    var powerState: bool
    /** The outlet service exists, so read values are pushed to the host. */
    var hasService: bool

    /** Accessories handed to the host, in order. */
    var published: seq<Accessory>
    /** Values pushed to the host's OutletInUse characteristic, in order. */
    var pushed: seq<bool>
    /** URLs of the requests sent to the outlet, in order. */
    var sent: seq<string>

    /**
     * The device between two ticks: exactly one of the two pending flags is set,
     * and the accessory has been published exactly once.
     */
    ghost predicate Valid()
      reads this
    {
      && settings == Settle(config)
      && url == BaseUrl(settings.host, settings.user, settings.passwd)
      && checkDeviceInfo != checkDeviceState
      && !startPrepareAccessory
      && hasService
      && published == [AccessoryOf(settings)]
    }

    /** The polling state the two flags encode. */
    function State(): Poll
      reads this
      requires Valid()
    {
      Poll(if checkDeviceInfo then Discovery else Refresh, powerState)
    }

    /** A device just built: valid, in the initial polling state, nothing polled yet. */
    ghost predicate Started()
      reads this
    {
      && Valid()
      && checkDeviceInfo && !powerState
      && pushed == [] && sent == []
    }

    /**
     * Reads the configuration entry, starts the poll timer (each firing is a
     * call of Tick) and publishes the accessory before any poll has run.
     */
    constructor (entry: DeviceConfig)
      ensures Valid()
      ensures config == entry && settings == Settle(entry)
      ensures checkDeviceInfo && !checkDeviceState && !powerState
      ensures State() == Initial
      ensures published == [AccessoryOf(Settle(entry))]
      ensures pushed == [] && sent == []
      ensures Started()
    {
      config := entry;
      settings := Settle(entry);
      url := BaseUrl(entry.host, entry.user, entry.passwd);
      checkDeviceInfo := true;
      checkDeviceState := false;
      startPrepareAccessory := true;
      powerState := false;
      hasService := false;
      published := [];
      pushed := [];
      sent := [];
      new;
      if startPrepareAccessory {
        PrepareAccessory();
      }
    }

    /** Builds the accessory and its outlet service and publishes it to the host. */
    method PrepareAccessory()
      requires startPrepareAccessory
      modifies this`startPrepareAccessory, this`hasService, this`published
      ensures !startPrepareAccessory && hasService
      ensures published == old(published) + [AccessoryOf(settings)]
    {
      hasService := true;
      startPrepareAccessory := false;
      published := published + [AccessoryOf(settings)];
    }

    /**
     * The state phase: requests the power state. An answer caches the power
     * value, pushes it to the host and keeps the refresh pending; a failure
     * keeps the cached value and hands the next tick back to discovery.
     */
    method UpdateDeviceState(reply: Reply)
      modifies this`powerState, this`checkDeviceState, this`checkDeviceInfo, this`pushed, this`sent
      ensures sent == old(sent) + [url + PowerState]
      ensures reply.Answered? ==> checkDeviceState && checkDeviceInfo == old(checkDeviceInfo)
      ensures reply.Answered? ==> (powerState <==> reply.power == Str("ON"))
      ensures reply.Answered? ==> pushed == old(pushed) + (if hasService then [powerState] else [])
      ensures reply.Failed? ==> !checkDeviceState && checkDeviceInfo
      ensures reply.Failed? ==> powerState == old(powerState) && pushed == old(pushed)
    {
      sent := sent + [url + PowerState];
      match reply
      case Failed =>
        checkDeviceState := false;
        checkDeviceInfo := true;
      case Answered(v) =>
        var on := StatePower(v);
        if hasService {
          pushed := pushed + [on];
        }
        powerState := on;
        checkDeviceState := true;
    }

    /**
     * The info phase: requests the device info (the same power query). An
     * answer clears the discovery flag and runs the state phase with `state`;
     * a failure keeps discovery pending and changes nothing else.
     */
    method GetDeviceInfo(info: Reply, state: Reply)
      modifies this`powerState, this`checkDeviceState, this`checkDeviceInfo, this`pushed, this`sent
      ensures info.Failed? ==> checkDeviceInfo && checkDeviceState == old(checkDeviceState)
      ensures info.Failed? ==> powerState == old(powerState) && pushed == old(pushed)
      ensures info.Failed? ==> sent == old(sent) + [url + PowerState]
      ensures info.Answered? ==> sent == old(sent) + [url + PowerState, url + PowerState]
      ensures info.Answered? && state.Answered? ==> !checkDeviceInfo && checkDeviceState
      ensures info.Answered? && state.Answered? ==> (powerState <==> state.power == Str("ON"))
      ensures info.Answered? && state.Answered? ==>
        pushed == old(pushed) + (if hasService then [powerState] else [])
      ensures info.Answered? && state.Failed? ==> checkDeviceInfo && !checkDeviceState
      ensures info.Answered? && state.Failed? ==> powerState == old(powerState) && pushed == old(pushed)
    {
      sent := sent + [url + PowerState];
      match info
      case Failed =>
        checkDeviceInfo := true;
      case Answered(_) =>
        checkDeviceInfo := false;
        UpdateDeviceState(state);
    }

    /**
     * One firing of the poll timer. Both flags are read before either phase
     * runs, so a tick runs the info phase or the state phase, never both; its
     * effect is the reference machine's TickStep.
     */
    method Tick(first: Reply, second: Reply) returns (ranInfo: bool, ranState: bool)
      requires Valid()
      modifies this`powerState, this`checkDeviceState, this`checkDeviceInfo, this`pushed, this`sent
      ensures Valid()
      ensures ranInfo == old(checkDeviceInfo) && ranState == old(checkDeviceState)
      ensures ranInfo != ranState
      ensures State() == TickStep(old(State()), first, second)
      ensures pushed == old(pushed) + TickReads(old(State()), first, second)
      ensures |sent| == |old(sent)| + TickRequests(old(State()), first)
      ensures sent[..|old(sent)|] == old(sent)
      ensures forall i :: |old(sent)| <= i < |sent| ==> sent[i] == url + PowerState
    {
      ranInfo, ranState := checkDeviceInfo, checkDeviceState;
      if ranInfo {
        GetDeviceInfo(first, second);
      }
      if ranState {
        UpdateDeviceState(first);
      }
    }

    /** The host reads the On characteristic: the cached power value. */
    method OnGetOn() returns (on: bool)
      ensures on == powerState
    {
      on := powerState;
    }

    /** The host reads the OutletInUse characteristic: the cached power value. */
    method OnGetOutletInUse() returns (inUse: bool)
      ensures inUse == powerState
    {
      inUse := powerState;
    }

    /**
     * The host sets the On characteristic: sends the switching command and
     * returns without waiting; the cached value changes only on a later poll.
     */
    method OnSetOn(state: Value)
      requires Valid()
      modifies this`sent
      ensures sent == old(sent) + [url + CommandFor(state)]
      ensures CommandOf(sent[|sent| - 1]) == Some(if Truthy(state) then PowerOn else PowerOff)
    {
      var command := CommandFor(state);
      sent := sent + [url + command];
      RequestCarriesCommand(settings.host, settings.user, settings.passwd, command);
    }
  }
}
