# Tasmota outlet plugin: polling model

A Dafny model of the core of `homebridge-tasmota-outlet`, a home-automation
plugin that exposes Wi-Fi outlets running the Tasmota firmware as outlet
accessories. The model covers:

- **The device object** (`Device.TasmotaDevice`). It keeps four fields:
  - `checkDeviceInfo`: discovery is pending.
  - `checkDeviceState`: a state refresh is pending.
  - `startPrepareAccessory`: the accessory has not been published yet.
  - `powerState`: the last power value read.

  The timer tick, the info phase (`GetDeviceInfo`), the state phase
  (`UpdateDeviceState`), one-time publication (`PrepareAccessory`) and the
  host's get and set handlers are methods on this class. Abstract logs record
  what leaves the object: published accessories, values pushed to the host's
  `OutletInUse` characteristic, and request URLs.
- **A pure reference machine** (`Polling`). It has two phases, `Discovery` and
  `Refresh`, plus the cached power value. It also defines runs over sequences
  of ticks. `Device.TasmotaDevice.Tick` is proved to behave as
  `Polling.TickStep`. The lemmas about runs are proved on the machine.
- **Pure helpers.** These are:
  - JavaScript truthiness and string conversion (`JsValues`).
  - The command tokens and the request URL (`Commands`), with a reader
    `CommandOf` that recovers the command from a URL.
  - The `||` configuration defaults (`Settings`).
  - The platform's filter that skips unnamed devices (`Platform`).

Every poll request is an input: a `Polling.Reply` that is either `Failed` or
`Answered(v)`. Here `v` is the value of the reply's `POWER` field, and
`Undefined` when the field is absent. The timer is modelled as calls of
`Tick`. Each request is taken to complete before the next tick.

Behaviour that follows the code, and is easy to misread:

- The accessory is published in the constructor, before any poll
  (index.js:110-113). Publication does not wait for device info.
- The discovery flag starts **set** (`checkDeviceInfo = true`). It means
  "discovery pending", which is the negation of "info known".
- A tick reads both flags before it starts either phase. In JavaScript the
  second `if` of the timer callback runs before the awaited request of
  `getDeviceInfo` completes. So a successful info phase does not run a second
  state phase in the same tick.
- A reply body that is not an object holding `POWER` reads as off. A `null`
  body makes `data['POWER']` throw, and the `catch` handles that like a
  transport error. The model folds that case into `Failed`.

## Model

| member | source | states |
|---|---|---|
| `JsValues.ToJsString` | index.js:88-89 | concatenation keeps a string as it is; any other configured value turns into non-empty text with no `&` |
| `Commands.BaseUrl` | index.js:88-89 | the device URL starts with `http://` and ends with `&cmnd=`, the point where a command is appended |
| `Commands.CommandFor` | index.js:195-197 | the On handler sends `Power%201` exactly when the requested state is truthy, and `Power%200` otherwise; never the query token |
| `Commands.CommandOf` | index.js:89 | a command read back from a URL holds no `&` and is the URL's suffix after `&cmnd=` |
| `Commands.CommandRoundTrip` | index.js:89 | appending a command without `&` to a URL ending in `&cmnd=` can be undone: `CommandOf` returns that command |
| `Commands.RequestCarriesCommand` | index.js:7-9 | for any host and credentials, the text after the last `&cmnd=` of a request URL is the command appended (`Power`, `Power%201` or `Power%200`) |
| `Settings.Settle` | index.js:73-80 | refreshInterval, manufacturer, modelName, serialNumber and firmwareRevision are truthy after defaulting; a truthy value is kept; a falsy one becomes 5, `Gosund`, `SP111`, `Serial Number`, `Firmware Revision`; the other fields are untouched |
| `Polling.InfoPower` | index.js:120 | the info phase reads "on" exactly when `POWER` is the string `ON` |
| `Polling.StatePower` | index.js:143 | the state phase reads "on" exactly when `POWER` is the string `ON`; absent, null or any other value reads as off, in agreement with the info phase |
| `Polling.InfoStep` | index.js:116-136 | the info phase ends in Discovery with the power value kept when the info request or the chained state request fails, and in Refresh caching `POWER == "ON"` of the state reply when both answer |
| `Polling.StateStep` | index.js:138-156 | a failed state request returns to Discovery and keeps the power value; an answered one moves to Refresh and caches `POWER == "ON"` |
| `Polling.TickReads` | index.js:144-148 | a tick reads, and pushes, one power value exactly when its state request answers (the second reply in Discovery after an answered info request, the first in Refresh), and that value is `POWER == "ON"` of that reply; otherwise none |
| `Polling.TickRequests` | index.js:116-141 | a tick sends two requests exactly when it is in Discovery and the info request answers, otherwise one |
| `Polling.TickStep` | index.js:101-108 | a tick ends in Refresh holding the value it read exactly when it read one; otherwise it ends in Discovery with the power value unchanged |
| `Polling.RetainsLastKnown` | index.js:148-155 | after any run of ticks the cached power is the last value read successfully, or the starting value if none was read |
| `Polling.NeverReadMeansOff` | index.js:86 | a device never read successfully reports off |
| `Polling.SteadyState` | index.js:130-150 | an outlet that answers every request reaches Refresh after the first tick, stays there, and one value is read per tick |
| `Polling.AlwaysOn` | index.js:141-150 | an outlet that answers `{"POWER":"ON"}` to every request is cached as on, in the Refresh phase, after any non-empty run of ticks |
| `Device.TasmotaDevice.constructor` | index.js:62-114 | a new device keeps its configuration entry and holds the defaulted settings, discovery is pending, no refresh is pending, power is off, and its accessory is published exactly once before any poll |
| `Device.TasmotaDevice.PrepareAccessory` | index.js:159-215 | runs only while publication is pending; clears that flag, creates the outlet service, and publishes one accessory carrying the name and information fields |
| `Device.TasmotaDevice.UpdateDeviceState` | index.js:138-156 | success: caches `POWER == "ON"`, pushes it when the service exists, and keeps the refresh pending. Failure: clears the refresh flag, sets discovery, keeps the power value and pushes nothing. Each call sends one `Power` query |
| `Device.TasmotaDevice.GetDeviceInfo` | index.js:116-136 | failure keeps discovery pending and changes nothing else; success clears discovery and runs the state phase, sending a second query |
| `Device.TasmotaDevice.Tick` | index.js:101-108 | runs the info phase iff discovery was pending and the state phase iff refresh was pending, never both; keeps exactly one flag set; the new state, the pushed values and the queries sent are those of `Polling.TickStep`, `TickReads` and `TickRequests` |
| `Device.TasmotaDevice.OnGetOn` | index.js:188-194 | the On characteristic reads the cached power value |
| `Device.TasmotaDevice.OnGetOutletInUse` | index.js:203-209 | the OutletInUse characteristic reads the cached power value |
| `Device.TasmotaDevice.OnSetOn` | index.js:195-201 | setting On sends one request whose command is `Power%201` for a truthy state and `Power%200` otherwise, and changes nothing else (the cached power value included) |
| `Platform.NamedDevices` | index.js:39-46 | the entries that get a device are no more than the list and each has a truthy name |
| `Platform.NamedDevicesMembership` | index.js:39-46 | an entry gets a device exactly when it is in the list and its name is truthy |
| `Platform.NamedDevicesAppend` | index.js:39-46 | the name filter keeps list order: it distributes over concatenation |
| `Platform.NamedDevicesPrefix` | index.js:39-46 | each step of the loop adds the current entry to the devices created exactly when its name is truthy |
| `Platform.TasmotaPlatform.constructor` | index.js:26-35 | without a configuration or without a device list the platform has no devices; otherwise it takes the configured list |
| `Platform.TasmotaPlatform.DidFinishLaunching` | index.js:37-47 | creates one fresh device per named entry, pairwise distinct objects even for identical entries, in list order, each built from its own entry, with its accessory published once, in the initial polling state with nothing polled yet |

## Left out

- HTTP transport (axios), JSON decoding and network errors: each poll request's outcome is an input, `Failed` or `Answered(POWER value)`.
- Device.TasmotaDevice.OnSetOn: the outcome of the set request is not modelled. The source (index.js:197) neither awaits it nor attaches a `.catch`, so its failure is an unhandled promise rejection; the model records only that the request was sent.
- Timing and interleaving: the `setInterval` period (`refreshInterval * 1000`) and overlapping requests. When a slow request overlaps the next tick, the source can race. The model runs each tick to completion.
- The host's accessory objects (UUID generation, category, information-service replacement, characteristic handlers as objects): publication is a record of the accessory's name and information fields. A pushed value is an entry in `pushed`.
- Creation of the preference directory (index.js:87-98): filesystem I/O. The model assumes `<storagePath>/tasmota/` exists. When it does not, index.js:97 calls `fsPromises`, which is never declared, so the constructor throws a ReferenceError before the timer starts (101) and before the accessory is published (111); the exception leaves `new tasmotaDevice` in the platform loop (44) and ends that loop. The constructor's and `DidFinishLaunching`'s promises (one started, published device per named entry) hold only when the directory exists.
- All logging, including the parse of `POWER` at index.js:120, which only feeds a log line (it is modelled as `Polling.InfoPower` but changes no state). The `disableLogInfo` switch only controls logging.
- Module and platform registration, `configureAccessory` and `removeAccessory` (index.js:16-23, 51-58): host glue.
- Numbers are integers: NaN, fractions and infinities are not modelled, so neither are their truthiness or string forms.
- JsValues.ToJsString: writes every digit of an integer, whereas JavaScript prints magnitudes of 10^21 or more in exponent form (`1e+21`); only a host or credential configured as such a number would differ.
- Commands.RequestCarriesCommand: promises only that the text after a request URL's last `&cmnd=` is the command appended, not which command the device obeys. Host and credentials are concatenated without encoding (index.js:88-89): a credential holding `&cmnd=...` adds a second `cmnd` parameter ahead of the command, and one holding `#` moves the command into the URL fragment, so it is never sent. How the firmware reads such a URL is not modelled.
- A `POWER` value that is an array or object: JavaScript's loose equality would convert it to a string first. Only strings, numbers, booleans, null and absence are modelled.
- A device-list entry that is not an object (reading `.name` of null throws in the platform loop): every entry is a record.
