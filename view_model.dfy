/** The bookkeeping of midi-controller/ViewModels/BLEMIDIViewModel.swift, the
    delegate of the peripheral manager: a connection counter, an advertising
    flag, the last reported Bluetooth state and the slider list, with the
    status shown to the user derived from them.  Persistence is not part of
    this model; each delegate callback is one synchronous update. */
module BleMidiViewModel {
  import opened Options
  import opened CoreBluetooth
  import opened MidiPacket
  import opened BleMidiPeripheral
  import opened SliderConfig

  /** The four SwiftUI colours `statusColor` chooses from. */
  datatype StatusColor = Green | Blue | Primary | Red

  /* ---------------- Swift's decimal rendering of an `Int` ---------------- */

  predicate IsDigit(c: char) { '0' <= c <= '9' }

  predicate AllDigits(s: string) { forall i | 0 <= i < |s| :: IsDigit(s[i]) }

  function DigitChar(d: nat): (c: char)
    requires d < 10
    ensures IsDigit(c) && (c - '0') as int == d
  {
    "0123456789"[d]
  }

  /** The decimal digits of `n`, most significant first, without leading zeros. */
  function NatString(n: nat): (s: string)
    ensures |s| >= 1 && AllDigits(s)
    ensures n > 0 ==> s[0] != '0'
    ensures n == 0 ==> s == "0"
    decreases n
  {
    if n < 10 then [DigitChar(n)] else NatString(n / 10) + [DigitChar(n % 10)]
  }

  /** Swift's canonical decimal form of an `Int`: "0", or digits without a
      leading zero, optionally after a '-' (never "-0"). */
  predicate IsCanonicalDecimal(s: string) {
    || s == "0"
    || (|s| >= 1 && AllDigits(s) && s[0] != '0')
    || (|s| >= 2 && s[0] == '-' && AllDigits(s[1..]) && s[1] != '0')
  }

  /** `"\(n)"` for an `Int` `n`. */
  function IntString(n: int): (s: string)
    ensures |s| >= 1 && ' ' !in s
    ensures IsCanonicalDecimal(s)
  {
    if n < 0 then "-" + NatString(-n) else NatString(n)
  }

  /** The value of a string of decimal digits. */
  function DigitsValue(s: string): nat
    requires AllDigits(s)
  {
    if s == [] then 0 else 10 * DigitsValue(s[..|s| - 1]) + (s[|s| - 1] - '0') as int
  }

  /** Reads an optionally signed decimal integer back. */
  function ParseInt(s: string): Option<int> {
    if |s| >= 2 && s[0] == '-' && AllDigits(s[1..]) then Some(0 - DigitsValue(s[1..]) as int)
    else if |s| >= 1 && AllDigits(s) then Some(DigitsValue(s))
    else None
  }

  lemma {:induction false} NatStringValue(n: nat)
    ensures DigitsValue(NatString(n)) == n
    decreases n
  {
    if n >= 10 {
      var s := NatString(n);
      NatStringValue(n / 10);
      assert s[..|s| - 1] == NatString(n / 10);
    }
  }

  /** The rendering of an `Int` reads back as that `Int`. */
  lemma IntStringRoundTrip(n: int)
    ensures ParseInt(IntString(n)) == Some(n)
  {
    var s := IntString(n);
    if n < 0 {
      var digits := NatString(-n);
      assert s == "-" + digits;
      assert s[1..] == digits;
      NatStringValue(-n);
      assert s[0] == '-' && |s| >= 2 && AllDigits(s[1..]);
    } else {
      assert s == NatString(n);
      NatStringValue(n);
      assert IsDigit(s[0]);
      assert s[0] != '-' && AllDigits(s);
    }
  }

  /* ---------------- the clamping in `sendControlChange(for:)` ---------------- */

  function Min(a: int, b: int): int { if a <= b then a else b }
  function Max(a: int, b: int): int { if a >= b then a else b }

  /** `min(hi, max(lo, x))`. */
  function Clamp(lo: int, hi: int, x: int): (r: int)
    requires lo <= hi
    ensures lo <= r <= hi
    ensures lo <= x <= hi ==> r == x
    ensures x < lo ==> r == lo
    ensures x > hi ==> r == hi
  {
    Min(hi, Max(lo, x))
  }

  /** `Int(x)` for a `Double` `x`: rounds toward zero. */
  function TruncateTowardZero(x: real): (n: int)
    ensures 0.0 <= x ==> n as real <= x < n as real + 1.0
    ensures x < 0.0 ==> n as real - 1.0 < x <= n as real
  {
    if x >= 0.0 then x.Floor else -((-x).Floor)
  }

  /** The three bytes handed to the encoder. */
  datatype WireArguments = WireArguments(channel: Byte, controller: Byte, value: Byte)

  /** The value truncated and clamped to 0-127, the user-facing channel
      shifted to 0-based and clamped to 0-15, the controller number clamped
      to 0-127. */
  function WireArgumentsOf(slider: CCSliderConfig): (w: WireArguments)
    ensures w.channel <= 15 && w.controller <= 127 && w.value <= 127
    ensures 1 <= slider.channel <= 16 ==> w.channel == (slider.channel - 1) as Byte
    ensures slider.channel < 1 ==> w.channel == 0
    ensures slider.channel > 16 ==> w.channel == 15
    ensures 0 <= slider.ccNumber <= 127 ==> w.controller == slider.ccNumber as Byte
    ensures slider.ccNumber < 0 ==> w.controller == 0
    ensures slider.ccNumber > 127 ==> w.controller == 127
    ensures 0.0 <= slider.value < 128.0 ==> w.value == slider.value.Floor as Byte
    ensures slider.value < 0.0 ==> w.value == 0
    ensures slider.value >= 128.0 ==> w.value == 127
  {
    var value := Clamp(0, 127, TruncateTowardZero(slider.value)) as Byte;
    var channel := Clamp(0, 15, slider.channel - 1) as Byte;
    var controller := Clamp(0, 127, slider.ccNumber) as Byte;
    WireArguments(channel, controller, value)
  }

  /** Because the view model clamps first, the encoder's masks never alter an
      argument: the packet carries exactly the clamped channel, controller and
      value. */
  lemma ClampedArgumentsAreNotMasked(slider: CCSliderConfig, ms: bv64)
    ensures var w := WireArgumentsOf(slider);
            var p := ControlChange(w.channel, w.controller, w.value, ms);
            && p[2] == 0xB0 + w.channel && p[3] == w.controller && p[4] == w.value
            && Parse(p) == Some(ControlChangeEvent(w.channel, w.controller, w.value, CurrentTimestamp(ms)))
  {
    var w := WireArgumentsOf(slider);
    ParseControlChange(w.channel, w.controller, w.value, ms);
  }

  /** A default slider sends controller 1 on wire channel 0 with value 0. */
  lemma DefaultSliderWire(id: Uuid)
    ensures WireArgumentsOf(CCSliderConfig.New(id)) == WireArguments(0, 1, 0)
  {
  }

  /* ---------------- `sliders.removeAll { $0.id == id }` ---------------- */

  /** The sliders whose id differs from `id`, in their original order. */
  function WithoutId(sliders: seq<CCSliderConfig>, id: Uuid): (r: seq<CCSliderConfig>)
    ensures |r| <= |sliders|
    ensures forall s | s in r :: s in sliders && s.id != id
    ensures forall s | s in sliders && s.id != id :: s in r
  {
    if sliders == [] then []
    else if sliders[0].id == id then WithoutId(sliders[1..], id)
    else [sliders[0]] + WithoutId(sliders[1..], id)
  }

  /** Removal works element by element: it distributes over concatenation, so
      the survivors keep their relative order. */
  lemma {:induction false} WithoutIdAppend(a: seq<CCSliderConfig>, b: seq<CCSliderConfig>, id: Uuid)
    ensures WithoutId(a + b, id) == WithoutId(a, id) + WithoutId(b, id)
    decreases |a|
  {
    if a == [] {
      assert a + b == b;
    } else {
      var ab := a + b;
      assert ab[0] == a[0] && ab[1..] == a[1..] + b;
      WithoutIdAppend(a[1..], b, id);
      if a[0].id == id {
        assert WithoutId(ab, id) == WithoutId(a[1..] + b, id);
      } else {
        calc {
          WithoutId(ab, id);
          [a[0]] + WithoutId(a[1..] + b, id);
          [a[0]] + (WithoutId(a[1..], id) + WithoutId(b, id));
          ([a[0]] + WithoutId(a[1..], id)) + WithoutId(b, id);
        }
      }
    }
  }

  /** A list with no slider of that id is left as it is; so removing twice
      is removing once. */
  lemma {:induction false} WithoutIdAbsent(sliders: seq<CCSliderConfig>, id: Uuid)
    requires forall s | s in sliders :: s.id != id
    ensures WithoutId(sliders, id) == sliders
    decreases |sliders|
  {
    if sliders != [] {
      WithoutIdAbsent(sliders[1..], id);
    }
  }

  lemma WithoutIdIdempotent(sliders: seq<CCSliderConfig>, id: Uuid)
    ensures WithoutId(WithoutId(sliders, id), id) == WithoutId(sliders, id)
  {
    WithoutIdAbsent(WithoutId(sliders, id), id);
  }

  /** `removeAll(where:)` as the loop it is. */
  method RemoveAll(sliders: seq<CCSliderConfig>, id: Uuid) returns (kept: seq<CCSliderConfig>)
    ensures kept == WithoutId(sliders, id)
  {
    kept := [];
    var i := 0;
    while i < |sliders|
      invariant 0 <= i <= |sliders|
      invariant kept == WithoutId(sliders[..i], id)
    {
      WithoutIdAppend(sliders[..i], [sliders[i]], id);
      assert sliders[..i + 1] == sliders[..i] + [sliders[i]];
      if sliders[i].id != id {
        kept := kept + [sliders[i]];
      }
      i := i + 1;
    }
    assert sliders[..i] == sliders;
  }

  /** `BLEMIDIViewModel`. */
  class ViewModel {
    var isAdvertising: bool
    var connectionCount: int
    var bluetoothState: ManagerState
    var sliders: seq<CCSliderConfig>
    const bleManager: PeripheralManager

    /** The counter never goes below zero. */
    ghost predicate Valid()
      reads this, bleManager
    {
      connectionCount >= 0 && bleManager.Valid()
    }

    /** `init()`: a new peripheral manager, nothing reported yet. */
    constructor ()
      ensures Valid() && fresh(bleManager)
      ensures !isAdvertising && connectionCount == 0 && bluetoothState == Unknown && sliders == []
      ensures bleManager.state == Unknown && bleManager.connectedCentrals == map[]
      ensures bleManager.midiCharacteristic == null && bleManager.requests == []
    {
      isAdvertising := false;
      connectionCount := 0;
      bluetoothState := Unknown;
      sliders := [];
      bleManager := new PeripheralManager();
    }

    /** `isConnected`. */
    function IsConnected(): (r: bool)
      reads this
      ensures r <==> connectionCount > 0
    {
      connectionCount > 0
    }

    /** `isBluetoothReady`. */
    function IsBluetoothReady(): (r: bool)
      reads this
      ensures r <==> bluetoothState == PoweredOn
    {
      bluetoothState == PoweredOn
    }

    /** `statusText`: decided by the Bluetooth state; when powered on, by
        priority connected, then advertising, then ready. */
    function StatusText(): (text: string)
      reads this
      ensures text == "Connected" <==> bluetoothState == PoweredOn && IsConnected()
      ensures text == "Advertising..." <==> bluetoothState == PoweredOn && !IsConnected() && isAdvertising
      ensures text == "Ready" <==> bluetoothState == PoweredOn && !IsConnected() && !isAdvertising
      ensures text == "Bluetooth Off" <==> bluetoothState == PoweredOff
      ensures text == "Unauthorized" <==> bluetoothState == Unauthorized
      ensures text == "Unsupported" <==> bluetoothState == Unsupported
      ensures text == "Unknown" <==> bluetoothState == Unknown || bluetoothState == Resetting
    {
      match bluetoothState
      case PoweredOn =>
        if IsConnected() then "Connected"
        else if isAdvertising then "Advertising..."
        else "Ready"
      case PoweredOff => "Bluetooth Off"
      case Unauthorized => "Unauthorized"
      case Unsupported => "Unsupported"
      case _ => "Unknown"
    }

    /** `statusIcon`: connected, then advertising or ready, then a warning;
        the Bluetooth state only matters once neither flag holds. */
    function StatusIcon(): (icon: string)
      reads this
      ensures icon == "link" <==> IsConnected()
      ensures icon == "dot.radiowaves.left.and.right" <==>
                !IsConnected() && (isAdvertising || IsBluetoothReady())
      ensures icon == "exclamationmark.triangle" <==>
                !IsConnected() && !isAdvertising && !IsBluetoothReady()
    {
      if IsConnected() then "link"
      else if isAdvertising then "dot.radiowaves.left.and.right"
      else if IsBluetoothReady() then "dot.radiowaves.left.and.right"
      else "exclamationmark.triangle"
    }

    /** `statusColor`: the same priority as the icon, one colour per level. */
    function StatusColor(): (color: StatusColor)
      reads this
      ensures color == Green <==> IsConnected()
      ensures color == Blue <==> !IsConnected() && isAdvertising
      ensures color == Primary <==> !IsConnected() && !isAdvertising && IsBluetoothReady()
      ensures color == Red <==> !IsConnected() && !isAdvertising && !IsBluetoothReady()
    {
      if IsConnected() then Green
      else if isAdvertising then Blue
      else if IsBluetoothReady() then Primary
      else Red
    }

    /** `connectionCountText`: the count, a space, then "Device" for exactly
        one device and "Devices" otherwise. */
    function ConnectionCountText(): (text: string)
      reads this
      ensures exists k | 0 < k < |text| ::
                && text[k] == ' '
                && ParseInt(text[..k]) == Some(connectionCount)
                && IsCanonicalDecimal(text[..k])
                && text[k + 1..] == if connectionCount == 1 then "Device" else "Devices"
    {
      var digits := IntString(connectionCount);
      var text := digits + " " + (if connectionCount == 1 then "Device" else "Devices");
      IntStringRoundTrip(connectionCount);
      assert text[..|digits|] == digits;
      assert text[|digits|] == ' ';
      text
    }

    /** `toggleAdvertising()`: while advertising, stop, clear the flag and
        reset the counter; otherwise only ask the manager to start, leaving
        the flag and the counter for the callbacks to change. */
    method ToggleAdvertising()
      requires Valid()
      modifies this, bleManager
      ensures Valid()
      ensures bluetoothState == old(bluetoothState) && sliders == old(sliders)
      ensures bleManager.state == old(bleManager.state)
      ensures old(isAdvertising) ==>
                && !isAdvertising && connectionCount == 0
                && !bleManager.shouldStartAdvertising && bleManager.midiCharacteristic == null
                && bleManager.connectedCentrals == map[]
                && bleManager.requests == old(bleManager.requests) + [StackRequest.StopAdvertising, RemoveAllServices]
      ensures !old(isAdvertising) ==>
                && !isAdvertising && connectionCount == old(connectionCount)
                && bleManager.connectedCentrals == old(bleManager.connectedCentrals)
                && (old(bleManager.state) != PoweredOn ==> bleManager.requests == old(bleManager.requests)
                                                           && bleManager.midiCharacteristic == old(bleManager.midiCharacteristic))
                && (old(bleManager.state) == PoweredOn ==>
                      && bleManager.shouldStartAdvertising
                      && bleManager.midiCharacteristic != null && fresh(bleManager.midiCharacteristic)
                      && bleManager.requests == old(bleManager.requests)
                           + [Add(MutableService(MidiServiceUuid, true, [bleManager.midiCharacteristic]))])
    {
      if isAdvertising {
        bleManager.StopAdvertising();
        isAdvertising := false;
        connectionCount := 0;
      } else {
        bleManager.StartAdvertising();
      }
    }

    /** `sendControlChange(for:)`: nothing unless connected; otherwise the
        clamped arguments are encoded at clock reading `ms` and handed to the
        manager, which fans the packet out to its subscribed centrals. */
    method SendControlChange(slider: CCSliderConfig, ms: bv64)
      requires Valid()
      modifies bleManager`requests
      ensures Valid()
      ensures !IsConnected() || bleManager.midiCharacteristic == null || bleManager.connectedCentrals == map[] ==>
                bleManager.requests == old(bleManager.requests)
      ensures IsConnected() && bleManager.midiCharacteristic != null && bleManager.connectedCentrals != map[] ==>
                var w := WireArgumentsOf(slider);
                && |bleManager.requests| == |old(bleManager.requests)| + 1
                && bleManager.requests[..|old(bleManager.requests)|] == old(bleManager.requests)
                && IsFanOut(bleManager.requests[|old(bleManager.requests)|],
                            ControlChange(w.channel, w.controller, w.value, ms),
                            bleManager.midiCharacteristic, bleManager.connectedCentrals)
    {
      if !IsConnected() {
        return;
      }
      var w := WireArgumentsOf(slider);
      var packet := ControlChange(w.channel, w.controller, w.value, ms);
      bleManager.SendMIDIMessage(packet);
    }

    /** `addSlider()`: appends one default-labelled slider with CC 1 on the
        next channel, capped at 16; `newId` is the fresh `UUID()`. */
    method AddSlider(newId: Uuid)
      modifies this`sliders
      ensures sliders == old(sliders) + [CCSliderConfig.New(newId, channel := Min(16, |old(sliders)| + 1))]
      ensures 1 <= sliders[|sliders| - 1].channel <= 16
    {
      var nextChannel := Min(16, |sliders| + 1);
      var newSlider := CCSliderConfig.New(newId, labelName := "CC Value", channel := nextChannel, ccNumber := 1);
      sliders := sliders + [newSlider];
    }

    /** `removeSlider(id:)`: every slider with that id goes, the rest stay in
        order. */
    method RemoveSlider(id: Uuid)
      modifies this`sliders
      ensures sliders == WithoutId(old(sliders), id)
    {
      sliders := RemoveAll(sliders, id);
    }

    /** `peripheralManagerDidUpdateState(_:)`. */
    method PeripheralManagerDidUpdateState(state: ManagerState)
      modifies this`bluetoothState
      ensures bluetoothState == state
    {
      bluetoothState := state;
    }

    /** `peripheralManagerDidStartAdvertising(_:)`: advertising exactly when
        there was no error. */
    method PeripheralManagerDidStartAdvertising(error: Option<StackError>)
      modifies this`isAdvertising
      ensures isAdvertising <==> error == None
    {
      isAdvertising := error == None;
    }

    /** `peripheralManagerDidConnect(_:)`: one more connection. */
    method PeripheralManagerDidConnect(device: ConnectedDevice)
      requires Valid()
      modifies this`connectionCount
      ensures Valid()
      ensures connectionCount == old(connectionCount) + 1
    {
      connectionCount := connectionCount + 1;
    }

    /** `peripheralManagerDidDisconnect(_:)`: one fewer, but never below zero. */
    method PeripheralManagerDidDisconnect(device: ConnectedDevice)
      requires Valid()
      modifies this`connectionCount
      ensures Valid()
      ensures connectionCount == if old(connectionCount) > 0 then old(connectionCount) - 1 else 0
    {
      connectionCount := Max(0, connectionCount - 1);
    }
  }

  /** When the radio is on, text, icon and colour tell the same story. */
  lemma StatusAgreesWhenPoweredOn(vm: ViewModel)
    requires vm.bluetoothState == PoweredOn
    ensures vm.StatusText() == "Connected" <==> vm.StatusColor() == Green && vm.StatusIcon() == "link"
    ensures vm.StatusText() == "Advertising..." <==> vm.StatusColor() == Blue
    ensures vm.StatusText() == "Ready" <==> vm.StatusColor() == Primary
    ensures vm.StatusColor() != Red && vm.StatusIcon() != "exclamationmark.triangle"
  {
  }

  /** When the radio is not on, the text follows the radio but the icon and
      colour still follow the counter and the flag: a stale connection count
      shows green "link" beside "Bluetooth Off". */
  lemma StatusIconIgnoresRadio(vm: ViewModel)
    requires vm.bluetoothState == PoweredOff && vm.connectionCount > 0
    ensures vm.StatusText() == "Bluetooth Off" && vm.StatusColor() == Green && vm.StatusIcon() == "link"
  {
  }
}
