/** The slider record of midi-controller/Models/CCSliderConfig.swift and the
    fields of its storage entity (midi-controller/Models/CCSliderConfigEntity.swift).

    `value` is a Swift `Double`; it is modelled as a `real`, so rounding is not
    modelled but the truncation the view model applies to it is. */
module SliderConfig {
  import opened CoreBluetooth

  /** The storage entity: a reference object whose fields are updated in place. */
  class CCSliderConfigEntity {
    var id: Uuid
    var labelName: string
    var channel: int
    var ccNumber: int
    var value: real
    var sortOrder: int

    constructor (id: Uuid, labelName: string := "CC Value", channel: int := 1, ccNumber: int := 1,
                 value: real := 0.0, sortOrder: int := 0)
      ensures this.id == id && this.labelName == labelName && this.channel == channel
      ensures this.ccNumber == ccNumber && this.value == value && this.sortOrder == sortOrder
    {
      this.id := id;
      this.labelName := labelName;
      this.channel := channel;
      this.ccNumber := ccNumber;
      this.value := value;
      this.sortOrder := sortOrder;
    }
  }

  /** `CCSliderConfig`: channel is user-facing (1-16), ccNumber the controller
      number, value the slider position (0-127). */
  datatype CCSliderConfig = CCSliderConfig(id: Uuid, labelName: string, channel: int, ccNumber: int, value: real)
  {
    /** `init(id:labelName:channel:ccNumber:value:)` with its default values;
        the fresh `UUID()` default is the caller's `id`. */
    static function New(id: Uuid, labelName: string := "CC Value", channel: int := 1, ccNumber: int := 1,
                        value: real := 0.0): (s: CCSliderConfig)
      ensures s.id == id && s.labelName == labelName && s.channel == channel
      ensures s.ccNumber == ccNumber && s.value == value
    {
      CCSliderConfig(id, labelName, channel, ccNumber, value)
    }

    /** `init(from:)`: every field of the slider is read from the entity. */
    static function FromEntity(entity: CCSliderConfigEntity): (s: CCSliderConfig)
      reads entity
      ensures s.id == entity.id && s.labelName == entity.labelName && s.channel == entity.channel
      ensures s.ccNumber == entity.ccNumber && s.value == entity.value
    {
      CCSliderConfig(entity.id, entity.labelName, entity.channel, entity.ccNumber, entity.value)
    }

    /** `update(_:)`: the four editable fields are written into the entity;
        its id and sort order stay.  Reading the entity back therefore gives
        this slider under the entity's id. */
    method Update(entity: CCSliderConfigEntity)
      modifies entity
      ensures entity.labelName == labelName && entity.channel == channel
      ensures entity.ccNumber == ccNumber && entity.value == value
      ensures entity.id == old(entity.id) && entity.sortOrder == old(entity.sortOrder)
      ensures FromEntity(entity) == this.(id := old(entity.id))
    {
      entity.labelName := labelName;
      entity.channel := channel;
      entity.ccNumber := ccNumber;
      entity.value := value;
    }
  }

  /** The default slider: labelled "CC Value", channel 1, CC 1, value 0. */
  lemma DefaultSlider(id: Uuid)
    ensures CCSliderConfig.New(id) == CCSliderConfig(id, "CC Value", 1, 1, 0.0)
  {
  }
}
