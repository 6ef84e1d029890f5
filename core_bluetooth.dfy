/** The part of the CoreBluetooth platform stack that the peripheral manager
    talks to, reduced to values: the manager state the stack reports, the
    identities it hands out, the GATT objects the app builds, and the requests
    the app issues.  The stack's own behaviour is not modelled; a request is
    recorded, never executed. */
module CoreBluetooth {
  import opened Options

  /** `CBManagerState`. */
  datatype ManagerState = Unknown | Resetting | Unsupported | Unauthorized | PoweredOff | PoweredOn

  /** A `UUID`, represented by its `uuidString`. */
  datatype Uuid = Uuid(uuidString: string)

  /** An `Error` the stack passes to a callback; only its presence matters. */
  datatype StackError = StackError(code: int)

  /** A `CBCentral`: a remote client, known by its stable identifier. */
  datatype Central = Central(identifier: Uuid)

  /** `CBCharacteristicProperties` and `CBAttributePermissions` flags. */
  datatype CharacteristicProperty = Read | WriteWithoutResponse | Notify
  datatype AttributePermission = Readable | Writeable

  /** A `CBMutableCharacteristic`.  Every construction is a new object; the
      manager keeps a reference to the one it published. */
  class MutableCharacteristic {
    const uuid: Uuid
    const properties: set<CharacteristicProperty>
    const value: Option<seq<bv8>>
    const permissions: set<AttributePermission>

    constructor (uuid: Uuid, properties: set<CharacteristicProperty>, value: Option<seq<bv8>>,
                 permissions: set<AttributePermission>)
      ensures this.uuid == uuid && this.properties == properties
      ensures this.value == value && this.permissions == permissions
    {
      this.uuid := uuid;
      this.properties := properties;
      this.value := value;
      this.permissions := permissions;
    }
  }

  /** A `CBMutableService` as handed to `add(_:)`. */
  datatype MutableService = MutableService(uuid: Uuid, primary: bool, characteristics: seq<MutableCharacteristic>)

  /** The advertisement dictionary: service UUIDs and local name. */
  datatype AdvertisementData = AdvertisementData(serviceUuids: seq<Uuid>, localName: string)

  /** `CBATTError.Code` as used in a response. */
  datatype AttResult = Success

  /** A `CBATTRequest` for a read: the app fills in `value` before responding. */
  class AttRequest {
    const central: Central
    const offset: nat
    var value: Option<seq<bv8>>

    constructor (central: Central, offset: nat)
      ensures this.central == central && this.offset == offset && value == None
    {
      this.central := central;
      this.offset := offset;
      value := None;
    }
  }

  /** A call the app makes into the `CBPeripheralManager`. */
  datatype StackRequest =
    | Add(service: MutableService)
    | StartAdvertising(advertisement: AdvertisementData)
    | StopAdvertising
    | RemoveAllServices
    | UpdateValue(data: seq<bv8>, characteristic: MutableCharacteristic, centrals: seq<Central>)
    | Respond(request: AttRequest, result: AttResult)
}
