/**
 * The platform: reads the plugin configuration and, once the host has
 * finished launching, creates one device per configured entry that has a name.
 */
module Platform {
  import opened Wrappers
  import opened JsValues
  import opened Settings
  import opened Polling
  import opened Device

  /**
   * The plugin configuration as the platform receives it: missing altogether,
   * or present with a `devices` value that is a list (Some) or is not (None).
   */
  datatype PlatformConfig = NoConfig | PlatformConfig(devices: Option<seq<DeviceConfig>>)

  /** The entries that get a device: those whose name is truthy, in order. */
  function NamedDevices(ds: seq<DeviceConfig>): (r: seq<DeviceConfig>)
    ensures |r| <= |ds|
    ensures forall i :: 0 <= i < |r| ==> Truthy(r[i].name)
  {
    if ds == [] then []
    else (if Truthy(ds[0].name) then [ds[0]] else []) + NamedDevices(ds[1..])
  }

  /** An entry gets a device exactly when it is in the list and has a truthy name. */
  lemma {:induction false} NamedDevicesMembership(ds: seq<DeviceConfig>, d: DeviceConfig)
    ensures d in NamedDevices(ds) <==> d in ds && Truthy(d.name)
  {
    if ds != [] {
      NamedDevicesMembership(ds[1..], d);
      assert ds == [ds[0]] + ds[1..];
    }
  }

  /** Filtering keeps the order: it distributes over concatenation. */
  lemma {:induction false} NamedDevicesAppend(a: seq<DeviceConfig>, b: seq<DeviceConfig>)
    ensures NamedDevices(a + b) == NamedDevices(a) + NamedDevices(b)
  {
    if a == [] {
      assert a + b == b;
    } else {
      var head := if Truthy(a[0].name) then [a[0]] else [];
      assert (a + b)[0] == a[0];
      assert (a + b)[1..] == a[1..] + b;
      assert NamedDevices(a + b) == head + NamedDevices(a[1..] + b);
      NamedDevicesAppend(a[1..], b);
      assert NamedDevices(a) == head + NamedDevices(a[1..]);
    }
  }

  /** Filtering one more entry of a list adds that entry when, and only when, it is named. */
  lemma NamedDevicesPrefix(ds: seq<DeviceConfig>, i: nat)
    requires i < |ds|
    ensures NamedDevices(ds[..i + 1])
      == NamedDevices(ds[..i]) + (if Truthy(ds[i].name) then [ds[i]] else [])
  {
    assert ds[..i + 1] == ds[..i] + [ds[i]];
    NamedDevicesAppend(ds[..i], [ds[i]]);
    assert [ds[i]][1..] == [];
  }

  class TasmotaPlatform {
    /** Whether a configuration with a device list was found. */
    const configured: bool
    /** The configured device entries. */
    const devices: seq<DeviceConfig>

    /** Without a configuration or a device list the platform stays idle. */
    constructor (config: PlatformConfig)
      ensures configured <==> config.PlatformConfig? && config.devices.Some?
      ensures devices == if configured then config.devices.value else []
    {
      if config.PlatformConfig? && config.devices.Some? {
        configured := true;
        devices := config.devices.value;
      } else {
        configured := false;
        devices := [];
      }
    }

    /**
     * Walks the device list in order, skipping every entry without a name and
     * creating a device for each other one. Each new device has published its
     * accessory and waits for its first tick in the discovery phase.
     */
    method DidFinishLaunching() returns (created: seq<TasmotaDevice>)
      ensures |created| == |NamedDevices(devices)|
      ensures forall k :: 0 <= k < |created| ==> fresh(created[k])
      ensures forall j, k :: 0 <= j < k < |created| ==> created[j] != created[k]
      ensures forall k :: 0 <= k < |created| ==> created[k].config == NamedDevices(devices)[k]
      ensures forall k :: 0 <= k < |created| ==> created[k].Started()
    {
      created := [];
      ghost var named: seq<DeviceConfig> := [];
      var i := 0;
      while i < |devices|
        invariant 0 <= i <= |devices|
        invariant named == NamedDevices(devices[..i])
        invariant |created| == |named|
        invariant forall k :: 0 <= k < |created| ==> fresh(created[k])
        invariant forall j, k :: 0 <= j < k < |created| ==> created[j] != created[k]
        invariant forall k :: 0 <= k < |created| ==> created[k].config == named[k]
        invariant forall k :: 0 <= k < |created| ==> created[k].Started()
      {
        var entry := devices[i];
        NamedDevicesPrefix(devices, i);
        if Truthy(entry.name) {
          var device := new TasmotaDevice(entry);
          created, named := created + [device], named + [entry];
        }
        i := i + 1;
      }
      assert devices[..i] == devices;
    }
  }
}
