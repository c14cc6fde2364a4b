/**
 * The device control modal: the simulated cloud-connect sequence, the power
 * toggle with its re-entrancy flag, the channel buttons and the washer's
 * finish action. Each action returns the partial update it hands to the
 * session's `onUpdate`, if any.
 */
module ControlModal {
  import opened Wrappers
  import opened Types
  import opened DeviceList

  /** `connectionStep` */
  datatype ConnectionStep = Connecting | Connected | ControlView

  /** The two delayed callbacks the connect effect schedules, in firing order. */
  datatype ConnectTimer = ToConnected | ToControl

  /** The step shown once the connect effect has run on mount. */
  function OpeningStep(d: Device): (s: ConnectionStep)
    ensures s == ControlView <==> d.isConnected
  {
    if d.isConnected then ControlView else Connecting
  }

  /** The power click's payload: flip `isOn`. */
  function PowerUpdate(d: Device): (u: DeviceUpdate)
    ensures Merge(d, u) == d.(isOn := !d.isOn)
  {
    SetOn(!d.isOn)
  }

  /** `changeValue(delta)`: nothing when the device is off or its value is not a number. */
  function ValueUpdate(d: Device, delta: int): (u: Option<DeviceUpdate>)
    ensures u.None? <==> !d.isOn || !(d.value.Some? && d.value.value.Num?)
    ensures u.Some? ==> Merge(d, u.value) == d.(value := Some(Num(d.value.value.n + delta)))
  {
    if !d.isOn then None
    else match d.value
      case Some(Num(n)) => Some(SetValue(Num(n + delta)))
      case _ => None
  }

  /** The washer's finish payload `{ status: 'Empty', isOn: false }`. */
  const FinishUpdate := NoFields.(status := Some("Empty"), isOn := Some(false))

  class DeviceControl {
    /** The `device` prop: the session's selected device as it was when the modal opened. */
    const device: Device
    var connectionStep: ConnectionStep
    var pendingConnect: seq<ConnectTimer>
    var isToggling: bool

    /** The pending connect callbacks are exactly the steps still ahead; a toggle runs only in the control view. */
    ghost predicate Valid()
      reads this
    {
      && (connectionStep == Connecting <==> pendingConnect == [ToConnected, ToControl])
      && (connectionStep == Connected <==> pendingConnect == [ToControl])
      && (connectionStep == ControlView <==> pendingConnect == [])
      && (isToggling ==> connectionStep == ControlView)
    }

    /** Mount and the connect effect: a disconnected device starts the two-timer sequence. */
    constructor Open(d: Device)
      ensures Valid() && device == d && !isToggling
      ensures connectionStep == OpeningStep(d)
      ensures pendingConnect == if d.isConnected then [] else [ToConnected, ToControl]
    {
      device := d;
      isToggling := false;
      if !d.isConnected {
        connectionStep := Connecting;
        pendingConnect := [ToConnected, ToControl];
      } else {
        connectionStep := ControlView;
        pendingConnect := [];
      }
    }

    /** The next connect callback fires: the first marks the device connected, the second shows the controls. */
    method FireConnectTimer() returns (u: Option<DeviceUpdate>)
      requires Valid()
      modifies this
      ensures Valid() && isToggling == old(isToggling)
      ensures old(pendingConnect) == [] ==> u.None? && connectionStep == old(connectionStep) && pendingConnect == []
      ensures old(pendingConnect) != [] ==> pendingConnect == old(pendingConnect)[1..]
      ensures old(pendingConnect) != [] && old(pendingConnect)[0] == ToConnected ==>
        connectionStep == Connected && u == Some(SetConnected(true))
      ensures old(pendingConnect) != [] && old(pendingConnect)[0] == ToControl ==>
        connectionStep == ControlView && u.None?
    {
      u := None;
      if pendingConnect == [] {
        return;
      }
      var t := pendingConnect[0];
      pendingConnect := pendingConnect[1..];
      if t == ToConnected {
        connectionStep := Connected;
        u := Some(SetConnected(true));
      } else {
        connectionStep := ControlView;
      }
    }

    /** The power button exists only in the control view and ignores clicks while disabled. */
    predicate PowerButtonEnabled()
      reads this
    {
      connectionStep == ControlView && !isToggling
    }

    /** `handlePowerClick`: raise `isToggling`; the update follows when the delay ends. */
    method PowerClick()
      requires Valid()
      modifies this
      ensures Valid() && connectionStep == old(connectionStep) && pendingConnect == old(pendingConnect)
      ensures isToggling == (old(isToggling) || old(PowerButtonEnabled()))
    {
      if connectionStep == ControlView && !isToggling {
        isToggling := true;
      }
    }

    /** The toggle delay ends: the flip of the prop's `isOn` is issued and the button is enabled again. */
    method FireToggleTimer() returns (u: Option<DeviceUpdate>)
      requires Valid()
      modifies this
      ensures Valid() && connectionStep == old(connectionStep) && pendingConnect == old(pendingConnect)
      ensures !isToggling
      ensures u == if old(isToggling) then Some(PowerUpdate(device)) else None
    {
      u := None;
      if isToggling {
        u := Some(PowerUpdate(device));
        isToggling := false;
      }
    }

    /** The value panel is shown only in the control view, with the device on and no toggle running. */
    predicate PanelShown()
      reads this
    {
      connectionStep == ControlView && device.isOn && !isToggling
    }

    /** The TV panel's channel down / up buttons, `changeValue(-1)` and `changeValue(1)`. */
    method ChannelButton(up: bool) returns (u: Option<DeviceUpdate>)
      requires Valid()
      ensures u.Some? ==> PanelShown() && device.kind == Tv
      ensures PanelShown() && device.kind == Tv ==> u == ValueUpdate(device, if up then 1 else -1)
    {
      u := None;
      if PanelShown() && device.kind == Tv {
        u := ValueUpdate(device, if up then 1 else -1);
      }
    }

    /** The finish button, offered on a washer panel with no time left; it also closes the modal. */
    method FinishWash() returns (u: Option<DeviceUpdate>, close: bool)
      requires Valid()
      ensures close <==> PanelShown() && device.kind == Washer && device.value == Some(Num(0))
      ensures u == if close then Some(FinishUpdate) else None
    {
      if PanelShown() && device.kind == Washer && device.value == Some(Num(0)) {
        u, close := Some(FinishUpdate), true;
      } else {
        u, close := None, false;
      }
    }
  }

  /**
   * Opening the modal and letting every connect callback fire ends in the
   * control view; the updates issued are exactly one `{ isConnected: true }`
   * for a disconnected device and none for a connected one.
   */
  method OpenAndConnect(d: Device) returns (updates: seq<DeviceUpdate>, last: ConnectionStep)
    ensures updates == if d.isConnected then [] else [SetConnected(true)]
    ensures last == ControlView
  {
    var m := new DeviceControl.Open(d);
    updates := [];
    while m.pendingConnect != []
      invariant m.Valid() && m.device == d
      invariant d.isConnected ==> m.pendingConnect == [] && updates == []
      invariant !d.isConnected ==> match m.connectionStep
        case Connecting => updates == []
        case _ => updates == [SetConnected(true)]
      decreases |m.pendingConnect|
    {
      var u := m.FireConnectTimer();
      if u.Some? {
        updates := updates + [u.value];
      }
    }
    last := m.connectionStep;
  }

  /** Marking a device connected twice, as a double-run connect effect would, is marking it once. */
  lemma ConnectUpdateIdempotent(ds: seq<Device>, id: string)
    ensures UpdateById(UpdateById(ds, id, SetConnected(true)), id, SetConnected(true))
         == UpdateById(ds, id, SetConnected(true))
  {
    var once := UpdateById(ds, id, SetConnected(true));
    forall i | 0 <= i < |ds| && ds[i].id == id
      ensures Merge(once[i], SetConnected(true)) == once[i]
    {
      MergeIdempotent(ds[i], SetConnected(true));
    }
  }

  /**
   * As written: both power clicks of one modal session flip the `isOn` of the
   * snapshot taken at opening, so the second issues the same payload as the
   * first and leaves the device as the first left it.
   */
  lemma SnapshotToggleTwiceKeepsFirst(ds: seq<Device>, k: nat)
    requires UniqueIds(ds) && k < |ds|
    ensures var snap := ds[k];
      var once := UpdateById(ds, snap.id, PowerUpdate(snap));
      var twice := UpdateById(once, snap.id, PowerUpdate(snap));
      twice == once && twice[k].isOn == !snap.isOn
  {
    var snap := ds[k];
    var once := UpdateById(ds, snap.id, PowerUpdate(snap));
    forall i | 0 <= i < |ds| && ds[i].id == snap.id
      ensures Merge(once[i], PowerUpdate(snap)) == once[i]
    {
      MergeIdempotent(ds[i], PowerUpdate(snap));
    }
  }

  /** Corrected: flip the device as it is now in the session's list. */
  function LiveToggle(ds: seq<Device>, id: string): (r: seq<Device>)
    ensures |r| == |ds|
    ensures forall i :: 0 <= i < |ds| && ds[i].id != id ==> r[i] == ds[i]
  {
    match Find(ds, id)
    case None => ds
    case Some(current) => UpdateById(ds, id, PowerUpdate(current))
  }

  /**
   * The channel buttons read the same snapshot: two channel-up clicks both
   * send the snapshot's channel plus one, so the second repeats the first
   * and the channel rises by one, not two.
   */
  lemma SnapshotChannelTwiceKeepsFirst(ds: seq<Device>, k: nat)
    requires UniqueIds(ds) && k < |ds| && ValueUpdate(ds[k], 1).Some?
    ensures var snap := ds[k];
      var once := UpdateById(ds, snap.id, ValueUpdate(snap, 1).value);
      var twice := UpdateById(once, snap.id, ValueUpdate(snap, 1).value);
      twice == once && twice[k].value == Some(Num(snap.value.value.n + 1))
  {
    var snap := ds[k];
    var u := ValueUpdate(snap, 1).value;
    var once := UpdateById(ds, snap.id, u);
    forall i | 0 <= i < |ds| && ds[i].id == snap.id
      ensures Merge(once[i], u) == once[i]
    {
      MergeIdempotent(ds[i], u);
    }
  }

  /** With the live device, the second click undoes the first. */
  lemma LiveToggleTwiceRestores(ds: seq<Device>, id: string)
    requires UniqueIds(ds)
    ensures LiveToggle(LiveToggle(ds, id), id) == ds
    ensures forall k :: 0 <= k < |ds| && ds[k].id == id ==> LiveToggle(ds, id)[k].isOn == !ds[k].isOn
  {
    match FindIndex(ds, id)
    case None =>
    case Some(k) =>
      var once := LiveToggle(ds, id);
      UpdateUniqueIsReplace(ds, id, PowerUpdate(ds[k]), k);
      assert once == ds[k := ds[k].(isOn := !ds[k].isOn)];
      UpdateKeepsIds(ds, id, PowerUpdate(ds[k]));
      FindIndexIsFirst(once, id, k);
      UpdateUniqueIsReplace(once, id, PowerUpdate(once[k]), k);
      assert LiveToggle(once, id) == once[k := once[k].(isOn := !once[k].isOn)];
      forall j | 0 <= j < |ds| && ds[j].id == id
        ensures j == k
      {
        if j != k { assert false; }
      }
  }
}
