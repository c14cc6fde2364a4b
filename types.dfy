/**
 * The shapes of the game's entities: tabs, devices and their partial updates,
 * avatar positions, missions and routines.
 */
module Types {
  import opened Wrappers

  /** The five bottom-navigation tabs. */
  datatype Tab = Home | Devices | Life | Automation | Menu

  /** The six appliance categories ('tv' | 'ac' | 'light' | 'washer' | 'airfryer' | 'refrigerator'). */
  datatype DeviceKind = Tv | Ac | Light | Washer | AirFryer | Refrigerator

  /**
   * A device's `value` when it has one: a number (channel, temperature,
   * minutes, brightness) or a string. Numbers are modelled as integers; every
   * number the game stores or adds is whole.
   */
  datatype Value = Num(n: int) | Text(s: string)

  /** A point on the map in percentage coordinates. */
  datatype Position = Position(x: real, y: real)

  /** One simulated appliance. `value` and `status` are optional fields. */
  datatype Device = Device(
    id: string,
    name: string,
    kind: DeviceKind,
    room: string,
    isOn: bool,
    isConnected: bool,
    power: int,
    value: Option<Value>,
    status: Option<string>,
    x: real,
    y: real)

  /**
   * A `Partial<Device>`: each field that is `Some` is written over the
   * device's own, each `None` field is left as it is.
   */
  datatype DeviceUpdate = DeviceUpdate(
    id: Option<string>,
    name: Option<string>,
    kind: Option<DeviceKind>,
    room: Option<string>,
    isOn: Option<bool>,
    isConnected: Option<bool>,
    power: Option<int>,
    value: Option<Value>,
    status: Option<string>,
    x: Option<real>,
    y: Option<real>)

  /** The empty partial `{}`. */
  const NoFields := DeviceUpdate(None, None, None, None, None, None, None, None, None, None, None)

  /** `{ isOn: b }` */
  function SetOn(b: bool): DeviceUpdate { NoFields.(isOn := Some(b)) }

  /** `{ isConnected: b }` */
  function SetConnected(b: bool): DeviceUpdate { NoFields.(isConnected := Some(b)) }

  /** `{ value: v }` */
  function SetValue(v: Value): DeviceUpdate { NoFields.(value := Some(v)) }

  /** The kind of player action a mission asks for. */
  datatype ActionTag = Control | AutomationAction | LifeCheck | StatusCheck

  /** A scripted mission with its success predicate over the device list. */
  datatype Mission = Mission(
    id: int,
    title: string,
    description: string,
    locationName: string,
    targetDeviceId: Option<string>,
    requiredAction: ActionTag,
    successCondition: seq<Device> -> bool,
    guideText: seq<string>)

  /** A named bulk-update macro offered on the automation tab. */
  datatype Routine = Routine(id: string, name: string, icon: string, description: string)
}
