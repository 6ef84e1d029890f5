# BLE MIDI controller core, modelled in Dafny

This project models the core of an iOS app that acts as a Bluetooth Low
Energy MIDI peripheral. The app publishes the standard BLE-MIDI GATT service,
keeps a table of the centrals (remote BLE clients) subscribed to its
characteristic, and turns slider movements into MIDI 1.0 Control Change
messages. It sends each message to those centrals as a 5-byte single-event
BLE-MIDI packet, as set out in "MIDI over Bluetooth Low Energy (BLE-MIDI) 1.0",
section "BLE packet encoding format".

| file | module | source file | form |
|---|---|---|---|
| `midi_packet.dfy` | `MidiPacket` | `Utilities/MIDIPacket.swift` | pure functions on `bv8`/`bv16`/`bv64` |
| `core_bluetooth.dfy` | `CoreBluetooth` | (the platform stack) | values for states, identities, GATT objects and requests |
| `peripheral_manager.dfy` | `BleMidiPeripheral` | `Services/BLEMIDIPeripheralManager.swift` | class `PeripheralManager` with a ghost request log |
| `slider_config.dfy` | `SliderConfig` | `Models/CCSliderConfig.swift`, `Models/CCSliderConfigEntity.swift` | datatype plus entity class |
| `view_model.dfy` | `BleMidiViewModel` | `ViewModels/BLEMIDIViewModel.swift` | class `ViewModel` with pure status and clamping functions |
| `scenarios.dfy` | `Scenarios` | callback orders across both classes | client methods |
| `options.dfy` | `Options` | Swift's `T?` | `Option` |

Modelling choices:

- **Encoder.**
  - The encoder works on bit-vectors, so every mask, shift and OR is the source's own operation.
  - The clock reading `Int(Date().timeIntervalSince1970 * 1000)` becomes the parameter `ms: bv64`. This is the 64-bit two's-complement pattern of the Swift `Int`.
  - `ms & 0x1FFF` is therefore `ms % 0x2000` on that pattern. For a non-negative `ms` this is `ms mod 8192`. For a negative `ms` it is the floored remainder, because 8192 divides 2^64.
- **Platform stack.**
  - The stack is reduced to the manager state it last reported (the field `state`) and a ghost log `requests` of the calls the app makes into it.
  - Stack callbacks are methods of `PeripheralManager`.
  - A delegate call is the `DelegateEvent` value that a callback returns. The `Scenarios` module hands that value to the matching `ViewModel` callback.
- **Advertising state.** There is no advertising-state enum. The manager's `Valid()` invariant shows that the intent flag `shouldStartAdvertising` is set exactly when a characteristic is published. So "publishing" and "advertising" cannot be told apart locally.
- **Slider value.** The slider's `Double` value is a `real`. `Int(x)` becomes an explicit truncation toward zero.

Where the code does what one might not expect of a BLE-MIDI peripheral, the model follows the code:

- The encoder **masks** out-of-range arguments instead of saturating them: controller 200 is sent as 72, not 127 (`MidiPacket.OutOfRangeIsMasked`). Clamping happens only in the view model (`BleMidiViewModel.WireArgumentsOf`).
- A second `startAdvertising` while a publish is in flight adds a second service. Both confirmations then start advertising (`Scenarios.StartTwiceAddsTwoServices`).
- A failed service add is ignored silently. No failure reaches the view model.
- `stopAdvertising` empties the central table without reporting a disconnect for each central.

## Model

| member | source | states |
|---|---|---|
| `MidiPacket.CurrentTimestamp` | midi-controller/Utilities/MIDIPacket.swift:38-41 | the timestamp fits in 13 bits (below 8192) |
| `MidiPacket.TimestampIsModulo` | midi-controller/Utilities/MIDIPacket.swift:38-41 | the timestamp is the clock reading modulo 8192; a multiple of 8192 gives 0 |
| `MidiPacket.HeaderByte` | midi-controller/Utilities/MIDIPacket.swift:22 | bits 7-6 are `10`, and the low six bits are bits 12-7 of the timestamp |
| `MidiPacket.TimestampByte` | midi-controller/Utilities/MIDIPacket.swift:23 | bit 7 is set, and the low seven bits are bits 6-0 of the timestamp |
| `MidiPacket.StatusByte` | midi-controller/Utilities/MIDIPacket.swift:25-26 | high nibble 0xB (Control Change), low nibble `channel & 0x0F`; `0xB0 + channel` for channel ≤ 15 |
| `MidiPacket.DataByte` | midi-controller/Utilities/MIDIPacket.swift:32-33 | bit 7 clear; the input when it is ≤ 127, else the input minus 128 (masked, not saturated) |
| `MidiPacket.ControlChange` | midi-controller/Utilities/MIDIPacket.swift:20-35 | exactly 5 bytes. The header has bits 7-6 `10` and the timestamp byte has bit 7 set; their low six and seven bits reassemble to the 13-bit timestamp of the clock reading. The status has high nibble 0xB and low nibble `channel & 0x0F`. The data bytes are the low seven bits of controller and value |
| `MidiPacket.ReassembleFields` | midi-controller/Utilities/MIDIPacket.swift:22-23 | for a 13-bit timestamp, the header's six bits shifted left by 7 and ORed with the timestamp byte's seven bits give the timestamp back |
| `MidiPacket.Parse` | midi-controller/Utilities/MIDIPacket.swift:8-11 | a packet accepted by the framing rules is 5 bytes long, and its event has channel ≤ 15, data ≤ 127 and timestamp < 8192 |
| `MidiPacket.ParseControlChange` | midi-controller/Utilities/MIDIPacket.swift:20-35 | parsing an encoded packet gives back the masked channel, controller and value and the 13-bit timestamp |
| `MidiPacket.ControlChangeOfParse` | midi-controller/Utilities/MIDIPacket.swift:20-35 | every well-framed packet is exactly what the encoder produces for its own event: the encoding is bit-exact and loses nothing |
| `MidiPacket.FrameRoundTrip` | midi-controller/Utilities/MIDIPacket.swift:20-35 | five bytes with the framing bits of a Control Change packet are rebuilt, byte by byte, from the timestamp, channel and data they carry |
| `MidiPacket.FieldsOfFramedBytes` | midi-controller/Utilities/MIDIPacket.swift:22-23 | a header byte and a timestamp byte carry a timestamp below 8192 and are rebuilt from it |
| `MidiPacket.StatusByteOfNibble` | midi-controller/Utilities/MIDIPacket.swift:25-26 | every Control Change status byte is rebuilt from its channel nibble |
| `MidiPacket.TimestampOfSmallClock` | midi-controller/Utilities/MIDIPacket.swift:38-41 | a clock reading below 8192 is its own timestamp |
| `MidiPacket.TimestampWraps` | midi-controller/Utilities/MIDIPacket.swift:20-41 | the packet depends only on channel, controller, value and the clock modulo 8192: any two readings with the same remainder (e.g. 8192 ms apart) give identical bytes |
| `MidiPacket.OutOfRangeIsMasked` | midi-controller/Utilities/MIDIPacket.swift:26-33 | channel 20 goes out as status 0xB4 and controller 200 as 72: arguments are masked, not clamped |
| `BleMidiPeripheral.ConnectedDevice.ShortIdentifier` | midi-controller/Services/BLEMIDIPeripheralManager.swift:12-14 | the short identifier is a prefix of the UUID string, 8 characters long, or the whole string when it is shorter |
| `BleMidiPeripheral.ShortIdentifierIsFirstGroup` | midi-controller/Services/BLEMIDIPeripheralManager.swift:12-14 | for a canonical UUID string the short identifier is its first group: eight hex digits, followed in the UUID by '-' |
| `BleMidiPeripheral.CentralsArray` | midi-controller/Services/BLEMIDIPeripheralManager.swift:101 | `Array(connectedCentrals.values)` lists every central of the table exactly once and nothing else |
| `BleMidiPeripheral.PeripheralManager.constructor` | midi-controller/Services/BLEMIDIPeripheralManager.swift:34-54 | a new manager has no characteristic, no central and no intent to advertise, has issued no request, and reports state unknown |
| `BleMidiPeripheral.PeripheralManager.IsConnected` | midi-controller/Services/BLEMIDIPeripheralManager.swift:47-49 | connected exactly when some identifier is in the central table |
| `BleMidiPeripheral.PeripheralManager.StartAdvertising` | midi-controller/Services/BLEMIDIPeripheralManager.swift:57-75 | unless powered on, nothing changes and nothing is requested. Otherwise the intent flag is set, a fresh characteristic is published and exactly one `Add` is issued, for one primary MIDI service holding that one characteristic. The central table is untouched |
| `BleMidiPeripheral.PeripheralManager.BeginAdvertising` | midi-controller/Services/BLEMIDIPeripheralManager.swift:77-83 | issues exactly one advertise request: the MIDI service UUID and the local name "MIDI Controller" |
| `BleMidiPeripheral.PeripheralManager.StopAdvertising` | midi-controller/Services/BLEMIDIPeripheralManager.swift:86-92 | clears the intent flag, empties the central table, drops the characteristic, and issues stop-advertising then remove-all-services |
| `BleMidiPeripheral.PeripheralManager.SendMIDIMessage` | midi-controller/Services/BLEMIDIPeripheralManager.swift:96-103 | with no characteristic or an empty table nothing is issued. Otherwise exactly one notification of the data is issued, on the published characteristic, and its recipients are exactly the table's centrals, each once |
| `BleMidiPeripheral.PeripheralManager.DidUpdateState` | midi-controller/Services/BLEMIDIPeripheralManager.swift:110-112 | records the reported state and passes it to the delegate |
| `BleMidiPeripheral.PeripheralManager.DidStartAdvertising` | midi-controller/Services/BLEMIDIPeripheralManager.swift:114-116 | passes the advertising outcome to the delegate unchanged |
| `BleMidiPeripheral.PeripheralManager.DidAddService` | midi-controller/Services/BLEMIDIPeripheralManager.swift:118-122 | issues the advertise request if and only if there was no error and the intent flag is set; otherwise issues nothing |
| `BleMidiPeripheral.PeripheralManager.DidReceiveRead` | midi-controller/Services/BLEMIDIPeripheralManager.swift:124-128 | every read request gets an empty value and a success response |
| `BleMidiPeripheral.PeripheralManager.DidSubscribe` | midi-controller/Services/BLEMIDIPeripheralManager.swift:130-138 | the central is stored under its identifier, overwriting any earlier entry, so the table grows by one only for a new identifier. A connect event is emitted on every call |
| `BleMidiPeripheral.PeripheralManager.DidUnsubscribe` | midi-controller/Services/BLEMIDIPeripheralManager.swift:140-149 | a present identifier is removed and exactly one disconnect event is emitted. An unknown or repeated unsubscribe leaves the table unchanged and emits nothing |
| `SliderConfig.CCSliderConfigEntity.constructor` | midi-controller/Models/CCSliderConfigEntity.swift:18-32 | the entity holds exactly the given fields, with the same defaults as the slider |
| `SliderConfig.CCSliderConfig.New` | midi-controller/Models/CCSliderConfig.swift:15-27 | the memberwise initialiser keeps every argument; the caller supplies the id |
| `SliderConfig.DefaultSlider` | midi-controller/Models/CCSliderConfig.swift:15-27 | the default slider is labelled "CC Value" with channel 1, ccNumber 1 and value 0 |
| `SliderConfig.CCSliderConfig.FromEntity` | midi-controller/Models/CCSliderConfig.swift:29-35 | id, label, channel, ccNumber and value are copied unchanged from the entity |
| `SliderConfig.CCSliderConfig.Update` | midi-controller/Models/CCSliderConfig.swift:37-42 | writes label, channel, ccNumber and value into the entity and leaves its id and sort order alone. Reading the entity back gives this slider under the entity's id |
| `BleMidiViewModel.NatString` | midi-controller/ViewModels/BLEMIDIViewModel.swift:79 | a non-empty string of decimal digits with no leading zero; "0" for zero |
| `BleMidiViewModel.IntString` | midi-controller/ViewModels/BLEMIDIViewModel.swift:79 | a non-empty rendering with no space in it, in canonical decimal form: "0", or digits without a leading zero, optionally after a "-" (never "-0") |
| `BleMidiViewModel.NatStringValue` | midi-controller/ViewModels/BLEMIDIViewModel.swift:79 | the digits rendered for a natural number read back as that number |
| `BleMidiViewModel.IntStringRoundTrip` | midi-controller/ViewModels/BLEMIDIViewModel.swift:79 | the rendering of any integer reads back as that integer |
| `BleMidiViewModel.Clamp` | midi-controller/ViewModels/BLEMIDIViewModel.swift:164-166 | the result lies in the bounds; it is the input inside them and the nearer bound outside them |
| `BleMidiViewModel.TruncateTowardZero` | midi-controller/ViewModels/BLEMIDIViewModel.swift:164 | `Int(x)` is the integer next to `x` on the side of zero, less than one away |
| `BleMidiViewModel.WireArgumentsOf` | midi-controller/ViewModels/BLEMIDIViewModel.swift:164-166 | channel ≤ 15 and controller, value ≤ 127. Each equals its input when in range (channel shifted to 0-based, value truncated) and the nearer bound outside it |
| `BleMidiViewModel.ClampedArgumentsAreNotMasked` | midi-controller/ViewModels/BLEMIDIViewModel.swift:164-167 | after clamping, the encoder's masks change nothing: the packet carries status `0xB0 + channel`, the clamped controller and value, and parses back to them |
| `BleMidiViewModel.DefaultSliderWire` | midi-controller/ViewModels/BLEMIDIViewModel.swift:164-166 | a default slider is sent as controller 1 on wire channel 0 with value 0 |
| `BleMidiViewModel.WithoutId` | midi-controller/ViewModels/BLEMIDIViewModel.swift:183 | no survivor has the id; every slider with another id survives; nothing is added |
| `BleMidiViewModel.WithoutIdAppend` | midi-controller/ViewModels/BLEMIDIViewModel.swift:183 | removal distributes over concatenation, so survivors keep their order |
| `BleMidiViewModel.WithoutIdAbsent` | midi-controller/ViewModels/BLEMIDIViewModel.swift:183 | removing an id no slider has leaves the list unchanged |
| `BleMidiViewModel.WithoutIdIdempotent` | midi-controller/ViewModels/BLEMIDIViewModel.swift:182-185 | removing the same id twice is removing it once |
| `BleMidiViewModel.RemoveAll` | midi-controller/ViewModels/BLEMIDIViewModel.swift:183 | the in-order removal loop computes exactly the sliders without the id |
| `BleMidiViewModel.ViewModel.constructor` | midi-controller/ViewModels/BLEMIDIViewModel.swift:16-24 | not advertising, no connection, state unknown, no sliders, and a fresh manager that has issued nothing |
| `BleMidiViewModel.ViewModel.IsConnected` | midi-controller/ViewModels/BLEMIDIViewModel.swift:20-22 | connected exactly when the count is positive |
| `BleMidiViewModel.ViewModel.IsBluetoothReady` | midi-controller/ViewModels/BLEMIDIViewModel.swift:29-31 | ready exactly when the state is powered on |
| `BleMidiViewModel.ViewModel.StatusText` | midi-controller/ViewModels/BLEMIDIViewModel.swift:33-52 | one if-and-only-if per text. Powered on: "Connected", else "Advertising...", else "Ready". Fixed texts for off, unauthorized and unsupported. "Unknown" exactly for unknown and resetting |
| `BleMidiViewModel.ViewModel.StatusIcon` | midi-controller/ViewModels/BLEMIDIViewModel.swift:54-64 | "link" iff connected; the radio-waves icon iff not connected and advertising or ready; the warning triangle otherwise |
| `BleMidiViewModel.ViewModel.StatusColor` | midi-controller/ViewModels/BLEMIDIViewModel.swift:66-76 | green iff connected, blue iff advertising only, primary iff ready only, red otherwise |
| `BleMidiViewModel.ViewModel.ConnectionCountText` | midi-controller/ViewModels/BLEMIDIViewModel.swift:78-80 | the text is the count in canonical decimal form (no leading zero, no "-0"), which reads back, then a space, then "Device" exactly when the count is 1 and "Devices" otherwise |
| `BleMidiViewModel.StatusAgreesWhenPoweredOn` | midi-controller/ViewModels/BLEMIDIViewModel.swift:33-76 | when powered on, text, icon and colour follow the same priority and never show the warning |
| `BleMidiViewModel.StatusIconIgnoresRadio` | midi-controller/ViewModels/BLEMIDIViewModel.swift:33-76 | with the radio off and a positive count, the text says "Bluetooth Off" while icon and colour still say connected |
| `BleMidiViewModel.ViewModel.ToggleAdvertising` | midi-controller/ViewModels/BLEMIDIViewModel.swift:152-160 | while advertising: the manager is stopped, the flag is cleared and the count is reset to 0. Otherwise only the manager's start runs, and the flag and count stay unchanged |
| `BleMidiViewModel.ViewModel.SendControlChange` | midi-controller/ViewModels/BLEMIDIViewModel.swift:162-169 | nothing is sent unless connected. Otherwise the packet of the clamped arguments fans out to exactly the manager's centrals, when the manager has a characteristic and centrals |
| `BleMidiViewModel.ViewModel.AddSlider` | midi-controller/ViewModels/BLEMIDIViewModel.swift:171-180 | appends exactly one slider, labelled "CC Value" with ccNumber 1, on channel `min(16, oldCount + 1)`, which lies in 1..16 |
| `BleMidiViewModel.ViewModel.RemoveSlider` | midi-controller/ViewModels/BLEMIDIViewModel.swift:182-185 | deletes every slider with that id and keeps the rest in order |
| `BleMidiViewModel.ViewModel.PeripheralManagerDidUpdateState` | midi-controller/ViewModels/BLEMIDIViewModel.swift:209-213 | the reported state is recorded |
| `BleMidiViewModel.ViewModel.PeripheralManagerDidStartAdvertising` | midi-controller/ViewModels/BLEMIDIViewModel.swift:215-219 | advertising exactly when there was no error |
| `BleMidiViewModel.ViewModel.PeripheralManagerDidConnect` | midi-controller/ViewModels/BLEMIDIViewModel.swift:221-225 | the count goes up by one and stays non-negative |
| `BleMidiViewModel.ViewModel.PeripheralManagerDidDisconnect` | midi-controller/ViewModels/BLEMIDIViewModel.swift:227-231 | the count goes down by one but saturates at 0, so it is never negative |
| `Scenarios.StopCancelsPendingPublish` | midi-controller/Services/BLEMIDIPeripheralManager.swift:86-122 | start, then stop, then a late error-free "service added" callback: advertising is never requested |
| `Scenarios.StartTwiceAddsTwoServices` | midi-controller/Services/BLEMIDIPeripheralManager.swift:57-75 | two starts issue two `Add` requests with distinct services, and both confirmations request advertising |
| `Scenarios.SubscribeTwoUnsubscribeOneTwice` | midi-controller/Services/BLEMIDIPeripheralManager.swift:130-149 | A and B subscribe, then A unsubscribes twice: the count is 1, only B remains, and only the first unsubscribe reports a disconnect |
| `Scenarios.RepeatedSubscribeLeavesCountBehind` | midi-controller/ViewModels/BLEMIDIViewModel.swift:221-231 | a central that subscribes twice and unsubscribes once leaves the view model counting one connection against an empty table |
| `Scenarios.AdvertiseAndConnect` | midi-controller/ViewModels/BLEMIDIViewModel.swift:152-160 | power on, toggle, publish success, advertise success, one subscribe: the view model is advertising, shows "Connected" and counts 1 |
| `Scenarios.EndToEnd` | midi-controller/ViewModels/BLEMIDIViewModel.swift:162-169 | a slider at channel 1, CC 7, value 100 then produces one notification of the packet for (0, 7, 100), to exactly that one central |

## Left out

- The CoreBluetooth stack itself is not modelled: how it executes `add`, `startAdvertising`, `stopAdvertising`, `removeAllServices` and `respond`, its state changes, and when its callbacks arrive. Requests are only recorded in the ghost log.
- The Boolean back-pressure result of `updateValue` is not modelled. The source ignores it too.
- The manager's `isAdvertising` (midi-controller/Services/BLEMIDIPeripheralManager.swift:43-45) reads the stack and is not modelled. `bluetoothState` (39-41) is the field `state`.
- The optional `peripheralManager` is always set after `init`. Its `guard let` and `?.` branches for a missing manager are not modelled.
- The `weak` delegate may be missing. The model returns the delegate event and lets the caller deliver it. The `Scenarios` module always delivers it, as the app's wiring does.
- The `Task { @MainActor in … }` hops in the view model's callbacks are not modelled. Each callback is one synchronous update, and interleavings are not explored.
- The subscribe, unsubscribe and service-added callbacks also receive the characteristic or service concerned. The source ignores that argument, so only the service-added callback keeps it.
- Floating point is not modelled. The slider's `Double` is a `real` without rounding. `Int(Double)` trapping on NaN, infinity or out-of-range values is not modelled.
- The clock read `Date()` is not modelled. Its reading is the `ms` parameter.
- Integer overflow traps are not modelled: `connectionCount += 1` at `Int.max`, and `slider.channel - 1` at `Int.min`. Integers are unbounded here.
- A `UUID` is represented by its `uuidString`. Generating fresh UUIDs (`UUID()` in `addSlider` and the default initialiser) is a parameter.
- SwiftData persistence is not modelled: `configure`, `loadSliders`, `saveSlider`, `updateSlider`, `deleteSlider` and the entity's unique-id attribute. `addSlider` and `removeSlider` are modelled without their save and delete calls.
- The SwiftUI views are layout only and are not modelled: `ContentView.swift` and the files under `Views/`.
