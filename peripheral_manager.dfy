/** The BLE MIDI peripheral engine of
    midi-controller/Services/BLEMIDIPeripheralManager.swift.

    Its whole local state is three fields: the intent flag
    `shouldStartAdvertising`, the published characteristic (or none) and the
    table of subscribed centrals.  The platform stack is the manager state it
    last reported plus a ghost log of the requests issued to it.  Stack
    callbacks are methods; what the Swift code sends to its delegate is the
    event a callback returns. */
module BleMidiPeripheral {
  import opened Options
  import opened CoreBluetooth

  /** The standard BLE-MIDI service and characteristic UUIDs. */
  const MidiServiceUuid: Uuid := Uuid("03B80E5A-EDE8-4B33-A751-6CE34EC4C700")
  const MidiCharacteristicUuid: Uuid := Uuid("7772E5DB-3868-4112-A1A9-F2669D106BF3")
  const LocalName: string := "MIDI Controller"

  /** `ConnectedDevice`: what the delegate learns about a central. */
  datatype ConnectedDevice = ConnectedDevice(id: Uuid)
  {
    /** `String(id.uuidString.prefix(8))`. */
    function ShortIdentifier(): (s: string)
      ensures |s| == if |id.uuidString| < 8 then |id.uuidString| else 8
      ensures s <= id.uuidString
    {
      if |id.uuidString| <= 8 then id.uuidString else id.uuidString[..8]
    }
  }

  predicate IsUpperHexDigit(c: char) {
    '0' <= c <= '9' || 'A' <= c <= 'F'
  }

  /** The canonical `uuidString` form: five groups of upper-case hex digits,
      8-4-4-4-12, separated by '-'. */
  predicate IsCanonicalUuidString(s: string) {
    && |s| == 36
    && (forall i | 0 <= i < 36 :: if i in {8, 13, 18, 23} then s[i] == '-' else IsUpperHexDigit(s[i]))
  }

  /** For a canonical UUID the short identifier is its first group: eight hex
      digits and no separator. */
  lemma ShortIdentifierIsFirstGroup(device: ConnectedDevice)
    requires IsCanonicalUuidString(device.id.uuidString)
    ensures var s := device.ShortIdentifier();
            |s| == 8 && (forall i | 0 <= i < 8 :: IsUpperHexDigit(s[i]))
            && device.id.uuidString == s + "-" + device.id.uuidString[9..]
  {
    var u := device.id.uuidString;
    var s := device.ShortIdentifier();
    forall i | 0 <= i < 8 ensures IsUpperHexDigit(s[i]) {
      assert s[i] == u[i];
    }
    assert u[8] == '-';
  }

  /** What `BLEMIDIPeripheralManagerDelegate` is told. */
  datatype DelegateEvent =
    | DidUpdateState(state: ManagerState)
    | DidStartAdvertising(error: Option<StackError>)
    | DidConnect(device: ConnectedDevice)
    | DidDisconnect(device: ConnectedDevice)

  /** The characteristic `startAdvertising` builds: read, write without
      response and notify; readable and writeable; no cached value. */
  predicate IsMidiCharacteristic(c: MutableCharacteristic) {
    && c.uuid == MidiCharacteristicUuid
    && c.properties == {Read, WriteWithoutResponse, Notify}
    && c.value == None
    && c.permissions == {Readable, Writeable}
  }

  /** Every entry of the central table is keyed by its central's identifier. */
  ghost predicate KeyedByIdentifier(table: map<Uuid, Central>) {
    forall id | id in table :: table[id].identifier == id
  }

  /** `request` is one notification of `data` on `characteristic` whose
      recipients are exactly the centrals of `table`, each once. */
  ghost predicate IsFanOut(request: StackRequest, data: seq<bv8>, characteristic: MutableCharacteristic,
                           table: map<Uuid, Central>)
  {
    && request.UpdateValue?
    && request.data == data
    && request.characteristic == characteristic
    && |request.centrals| == |table|
    && (forall c :: c in request.centrals <==> c in table.Values)
  }

  /** `Array(connectedCentrals.values)`: the table's centrals in some order,
      each exactly once. */
  method CentralsArray(table: map<Uuid, Central>) returns (centrals: seq<Central>)
    requires KeyedByIdentifier(table)
    ensures |centrals| == |table|
    ensures forall c :: c in centrals <==> c in table.Values
    ensures forall i, j | 0 <= i < j < |centrals| :: centrals[i] != centrals[j]
  {
    centrals := [];
    var remaining := table.Keys;
    while remaining != {}
      invariant remaining <= table.Keys
      invariant |centrals| + |remaining| == |table|
      invariant forall c :: c in centrals <==>
                  c.identifier in table && c.identifier !in remaining && table[c.identifier] == c
      invariant forall i, j | 0 <= i < j < |centrals| :: centrals[i] != centrals[j]
      decreases |remaining|
    {
      var id :| id in remaining;
      centrals := centrals + [table[id]];
      remaining := remaining - {id};
    }
  }

  /** `BLEMIDIPeripheralManager`. */
  class PeripheralManager {
    /** The state the stack last reported (`peripheralManager.state`). */
    var state: ManagerState
    var midiCharacteristic: MutableCharacteristic?
    var connectedCentrals: map<Uuid, Central>
    var shouldStartAdvertising: bool
    /** Every request issued to the stack, oldest first. */
    ghost var requests: seq<StackRequest>

    /** There is no advertising-state enum: the intent flag is set exactly
        while a characteristic is published. */
    ghost predicate Valid()
      reads this
    {
      && KeyedByIdentifier(connectedCentrals)
      && (shouldStartAdvertising <==> midiCharacteristic != null)
      && (midiCharacteristic != null ==> IsMidiCharacteristic(midiCharacteristic))
    }

    /** `init()`: the stack has reported nothing yet. */
    constructor ()
      ensures Valid()
      ensures state == Unknown && midiCharacteristic == null && connectedCentrals == map[]
      ensures !shouldStartAdvertising && requests == []
    {
      state := Unknown;
      midiCharacteristic := null;
      connectedCentrals := map[];
      shouldStartAdvertising := false;
      requests := [];
    }

    /** `isConnected`: some central is subscribed. */
    function IsConnected(): (r: bool)
      reads this
      ensures r <==> exists id :: id in connectedCentrals
    {
      assert connectedCentrals != map[] ==> exists id :: id in connectedCentrals;
      connectedCentrals != map[]
    }

    /** `startAdvertising()`: unless powered on, nothing happens.  Otherwise a
        new characteristic is published in one primary MIDI service and the
        intent to advertise is recorded.  Nothing guards against a publish
        already in flight: a second call issues a second `Add`. */
    method StartAdvertising()
      requires Valid()
      modifies this
      ensures Valid()
      ensures state == old(state) && connectedCentrals == old(connectedCentrals)
      ensures old(state) != PoweredOn ==>
                && midiCharacteristic == old(midiCharacteristic)
                && shouldStartAdvertising == old(shouldStartAdvertising)
                && requests == old(requests)
      ensures old(state) == PoweredOn ==>
                && shouldStartAdvertising
                && midiCharacteristic != null && fresh(midiCharacteristic)
                && requests == old(requests) + [Add(MutableService(MidiServiceUuid, true, [midiCharacteristic]))]
    {
      if state != PoweredOn {
        return;
      }
      midiCharacteristic := new MutableCharacteristic(MidiCharacteristicUuid, {Read, WriteWithoutResponse, Notify},
                                                      None, {Readable, Writeable});
      var midiService := MutableService(MidiServiceUuid, true, [midiCharacteristic]);
      shouldStartAdvertising := true;
      requests := requests + [Add(midiService)];
    }

    /** `beginAdvertising()`: advertise the MIDI service under the local name. */
    method BeginAdvertising()
      modifies this`requests
      ensures requests == old(requests) + [StackRequest.StartAdvertising(AdvertisementData([MidiServiceUuid], LocalName))]
    {
      requests := requests + [StackRequest.StartAdvertising(AdvertisementData([MidiServiceUuid], LocalName))];
    }

    /** `stopAdvertising()`: clears the intent, stops advertising, withdraws
        the services and forgets every central at once, without a disconnect
        event per central. */
    method StopAdvertising()
      requires Valid()
      modifies this
      ensures Valid()
      ensures !shouldStartAdvertising && midiCharacteristic == null && connectedCentrals == map[]
      ensures state == old(state)
      ensures requests == old(requests) + [StackRequest.StopAdvertising, RemoveAllServices]
    {
      shouldStartAdvertising := false;
      requests := requests + [StackRequest.StopAdvertising, RemoveAllServices];
      connectedCentrals := map[];
      midiCharacteristic := null;
    }

    /** `sendMIDIMessage(_:)`: with no published characteristic or no central,
        nothing is sent; otherwise one notification goes to exactly the
        subscribed centrals.  The stack's back-pressure answer is ignored. */
    method SendMIDIMessage(data: seq<bv8>)
      requires Valid()
      modifies this`requests
      ensures midiCharacteristic == null || connectedCentrals == map[] ==> requests == old(requests)
      ensures midiCharacteristic != null && connectedCentrals != map[] ==>
                && |requests| == |old(requests)| + 1
                && requests[..|old(requests)|] == old(requests)
                && IsFanOut(requests[|old(requests)|], data, midiCharacteristic, connectedCentrals)
    {
      if midiCharacteristic == null || connectedCentrals == map[] {
        return;
      }
      var centrals := CentralsArray(connectedCentrals);
      requests := requests + [UpdateValue(data, midiCharacteristic, centrals)];
    }

    /** `peripheralManagerDidUpdateState(_:)`: the stack reports a new state,
        which is passed on; nothing else is touched. */
    method DidUpdateState(newState: ManagerState) returns (event: DelegateEvent)
      modifies this`state
      ensures state == newState && event == DelegateEvent.DidUpdateState(newState)
    {
      state := newState;
      event := DelegateEvent.DidUpdateState(newState);
    }

    /** `peripheralManagerDidStartAdvertising(_:error:)`: the outcome is
        passed on unchanged. */
    method DidStartAdvertising(error: Option<StackError>) returns (event: DelegateEvent)
      ensures event.DidStartAdvertising? && event.error == error
    {
      event := DelegateEvent.DidStartAdvertising(error);
    }

    /** `peripheralManager(_:didAdd:error:)`: advertising begins exactly when
        the service was added without error and the intent is still set.  A
        failed add is dropped silently. */
    method DidAddService(service: MutableService, error: Option<StackError>)
      modifies this`requests
      ensures error == None && shouldStartAdvertising ==>
                requests == old(requests) + [StackRequest.StartAdvertising(AdvertisementData([MidiServiceUuid], LocalName))]
      ensures error != None || !shouldStartAdvertising ==> requests == old(requests)
    {
      if error == None && shouldStartAdvertising {
        BeginAdvertising();
      }
    }

    /** `peripheralManager(_:didReceiveRead:)`: every read is answered with
        success and an empty value. */
    method DidReceiveRead(request: AttRequest)
      modifies request, this`requests
      ensures request.value == Some([])
      ensures requests == old(requests) + [Respond(request, Success)]
    {
      request.value := Some([]);
      requests := requests + [Respond(request, Success)];
    }

    /** `peripheralManager(_:central:didSubscribeTo:)`: the central is stored
        under its identifier, replacing an earlier entry, and a connect event
        is emitted on every call. */
    method DidSubscribe(central: Central) returns (event: DelegateEvent)
      requires Valid()
      modifies this`connectedCentrals
      ensures Valid()
      ensures connectedCentrals == old(connectedCentrals)[central.identifier := central]
      ensures |connectedCentrals| == |old(connectedCentrals)| + (if central.identifier in old(connectedCentrals) then 0 else 1)
      ensures event == DidConnect(ConnectedDevice(central.identifier))
    {
      connectedCentrals := connectedCentrals[central.identifier := central];
      event := DidConnect(ConnectedDevice(central.identifier));
    }

    /** `peripheralManager(_:central:didUnsubscribeFrom:)`: a known central is
        removed and a disconnect event emitted; an unknown or repeated
        unsubscribe changes nothing and emits nothing. */
    method DidUnsubscribe(central: Central) returns (event: Option<DelegateEvent>)
      requires Valid()
      modifies this`connectedCentrals
      ensures Valid()
      ensures connectedCentrals == old(connectedCentrals) - {central.identifier}
      ensures central.identifier in old(connectedCentrals) ==>
                |connectedCentrals| == |old(connectedCentrals)| - 1
                && event == Some(DidDisconnect(ConnectedDevice(central.identifier)))
      ensures central.identifier !in old(connectedCentrals) ==>
                connectedCentrals == old(connectedCentrals) && event == None
    {
      if central.identifier in connectedCentrals {
        connectedCentrals := connectedCentrals - {central.identifier};
        event := Some(DidDisconnect(ConnectedDevice(central.identifier)));
      } else {
        event := None;
      }
    }
  }
}
