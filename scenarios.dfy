/** Runs of the peripheral engine and its view model through the orders of
    stack callbacks the app meets.  Each callback is one synchronous step; an
    event a manager callback returns is handed to the matching view-model
    callback, as the delegate wiring does. */
module Scenarios {
  import opened Options
  import opened CoreBluetooth
  import opened MidiPacket
  import opened BleMidiPeripheral
  import opened SliderConfig
  import opened BleMidiViewModel

  /** A stop issued while the service is still being added wins: the late,
      error-free "service added" callback does not start advertising. */
  method StopCancelsPendingPublish(pm: PeripheralManager)
    requires pm.Valid() && pm.state == PoweredOn
    modifies pm
    ensures pm.Valid() && !pm.shouldStartAdvertising
    ensures |pm.requests| == |old(pm.requests)| + 3
    ensures pm.requests[|old(pm.requests)|].Add?
    ensures pm.requests[|old(pm.requests)| + 1..] == [StackRequest.StopAdvertising, RemoveAllServices]
    ensures forall r | r in pm.requests[|old(pm.requests)|..] :: !r.StartAdvertising?
  {
    pm.StartAdvertising();
    var service := MutableService(MidiServiceUuid, true, [pm.midiCharacteristic]);
    pm.StopAdvertising();
    pm.DidAddService(service, None);
  }

  /** Nothing guards a second start: two calls publish two services, each
      with its own characteristic, and both confirmations start advertising. */
  method StartTwiceAddsTwoServices(pm: PeripheralManager)
    requires pm.Valid() && pm.state == PoweredOn
    modifies pm
    ensures pm.Valid()
    ensures |pm.requests| == |old(pm.requests)| + 4
    ensures pm.requests[|old(pm.requests)|].Add? && pm.requests[|old(pm.requests)| + 1].Add?
    ensures pm.requests[|old(pm.requests)|].service != pm.requests[|old(pm.requests)| + 1].service
    ensures pm.requests[|old(pm.requests)| + 2..]
         == [StackRequest.StartAdvertising(AdvertisementData([MidiServiceUuid], LocalName)),
             StackRequest.StartAdvertising(AdvertisementData([MidiServiceUuid], LocalName))]
  {
    pm.StartAdvertising();
    var first := MutableService(MidiServiceUuid, true, [pm.midiCharacteristic]);
    pm.StartAdvertising();
    var second := MutableService(MidiServiceUuid, true, [pm.midiCharacteristic]);
    pm.DidAddService(first, None);
    pm.DidAddService(second, None);
  }

  /** Centrals A and B subscribe, A unsubscribes twice: the count ends at 1,
      only B is left, and only the first unsubscribe reports a disconnect. */
  method SubscribeTwoUnsubscribeOneTwice(vm: ViewModel, a: Central, b: Central)
    returns (first: Option<DelegateEvent>, second: Option<DelegateEvent>)
    requires vm.Valid() && a.identifier != b.identifier
    requires vm.connectionCount == 0 && vm.bleManager.connectedCentrals == map[]
    modifies vm, vm.bleManager
    ensures vm.Valid()
    ensures vm.connectionCount == 1 && vm.IsConnected() && vm.bleManager.IsConnected()
    ensures vm.bleManager.connectedCentrals == map[b.identifier := b]
    ensures first == Some(DidDisconnect(ConnectedDevice(a.identifier))) && second == None
  {
    var pm := vm.bleManager;
    var connectA := pm.DidSubscribe(a);
    vm.PeripheralManagerDidConnect(connectA.device);
    var connectB := pm.DidSubscribe(b);
    vm.PeripheralManagerDidConnect(connectB.device);
    assert pm.connectedCentrals == map[a.identifier := a, b.identifier := b];
    first := pm.DidUnsubscribe(a);
    assert pm.connectedCentrals == map[b.identifier := b];
    vm.PeripheralManagerDidDisconnect(first.value.device);
    second := pm.DidUnsubscribe(a);
  }

  /** The view model counts connect events, the manager counts centrals: a
      repeated subscribe by one central followed by its unsubscribe leaves
      the view model "connected" with an empty table. */
  method RepeatedSubscribeLeavesCountBehind(vm: ViewModel, a: Central)
    requires vm.Valid() && vm.connectionCount == 0 && vm.bleManager.connectedCentrals == map[]
    modifies vm, vm.bleManager
    ensures vm.Valid()
    ensures vm.connectionCount == 1 && vm.IsConnected()
    ensures vm.bleManager.connectedCentrals == map[] && !vm.bleManager.IsConnected()
  {
    var event := vm.bleManager.DidSubscribe(a);
    vm.PeripheralManagerDidConnect(event.device);
    event := vm.bleManager.DidSubscribe(a);
    vm.PeripheralManagerDidConnect(event.device);
    var gone := vm.bleManager.DidUnsubscribe(a);
    if gone.Some? {
      vm.PeripheralManagerDidDisconnect(gone.value.device);
    }
  }

  /** Power on, toggle, service added, advertising started, one central
      subscribes: the view model shows "Connected" with one device. */
  method AdvertiseAndConnect(vm: ViewModel, central: Central)
    requires vm.Valid() && !vm.isAdvertising && vm.connectionCount == 0
    requires vm.bleManager.connectedCentrals == map[]
    modifies vm, vm.bleManager
    ensures vm.Valid()
    ensures vm.isAdvertising && vm.connectionCount == 1 && vm.StatusText() == "Connected"
    ensures vm.bleManager.midiCharacteristic != null
    ensures vm.bleManager.connectedCentrals == map[central.identifier := central]
    ensures |vm.bleManager.requests| == |old(vm.bleManager.requests)| + 2
    ensures vm.bleManager.requests[|old(vm.bleManager.requests)|]
         == Add(MutableService(MidiServiceUuid, true, [vm.bleManager.midiCharacteristic]))
    ensures vm.bleManager.requests[|old(vm.bleManager.requests)| + 1]
         == StackRequest.StartAdvertising(AdvertisementData([MidiServiceUuid], LocalName))
  {
    var pm := vm.bleManager;
    var stateEvent := pm.DidUpdateState(PoweredOn);
    vm.PeripheralManagerDidUpdateState(stateEvent.state);
    vm.ToggleAdvertising();
    var characteristic := pm.midiCharacteristic;
    pm.DidAddService(MutableService(MidiServiceUuid, true, [characteristic]), None);
    var started := pm.DidStartAdvertising(None);
    vm.PeripheralManagerDidStartAdvertising(started.error);
    var connected := pm.DidSubscribe(central);
    vm.PeripheralManagerDidConnect(connected.device);
  }

  /** Then a slider at channel 1, CC 7, value 100 is sent: one well-formed
      packet goes to exactly that central. */
  method EndToEnd(vm: ViewModel, central: Central, id: Uuid, ms: bv64)
    requires vm.Valid() && !vm.isAdvertising && vm.connectionCount == 0
    requires vm.bleManager.connectedCentrals == map[]
    modifies vm, vm.bleManager
    ensures vm.Valid()
    ensures vm.isAdvertising && vm.connectionCount == 1 && vm.StatusText() == "Connected"
    ensures vm.bleManager.midiCharacteristic != null
    ensures |vm.bleManager.requests| == |old(vm.bleManager.requests)| + 3
    ensures vm.bleManager.requests[|old(vm.bleManager.requests)|].Add?
    ensures vm.bleManager.requests[|old(vm.bleManager.requests)| + 1]
         == StackRequest.StartAdvertising(AdvertisementData([MidiServiceUuid], LocalName))
    ensures vm.bleManager.requests[|old(vm.bleManager.requests)| + 2]
         == UpdateValue(ControlChange(0, 7, 100, ms), vm.bleManager.midiCharacteristic, [central])
  {
    AdvertiseAndConnect(vm, central);
    var pm := vm.bleManager;
    ghost var before := pm.requests;
    var slider := CCSliderConfig.New(id, channel := 1, ccNumber := 7, value := 100.0);
    assert WireArgumentsOf(slider) == WireArguments(0, 7, 100);
    assert central.identifier in pm.connectedCentrals;
    vm.SendControlChange(slider, ms);
    ghost var sent := pm.requests[|before|];
    assert sent.centrals == [central] by {
      assert |sent.centrals| == 1 && central in pm.connectedCentrals.Values;
    }
  }
}
