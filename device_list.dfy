/**
 * The pure list expressions of the game session: the total active power,
 * the merge update of one device by id, the lookup by id and the two
 * bulk routine bodies.
 */
module DeviceList {
  import opened Wrappers
  import opened Types

  /** `{ ...d, ...u }`: every field given in `u` replaces the device's own, every other field is kept. */
  function Merge(d: Device, u: DeviceUpdate): (r: Device)
    ensures u == NoFields ==> r == d
    ensures r.id == u.id.GetOr(d.id)
    ensures r.name == u.name.GetOr(d.name)
    ensures r.kind == u.kind.GetOr(d.kind)
    ensures r.room == u.room.GetOr(d.room)
    ensures r.isOn == u.isOn.GetOr(d.isOn)
    ensures r.isConnected == u.isConnected.GetOr(d.isConnected)
    ensures r.power == u.power.GetOr(d.power)
    ensures r.x == u.x.GetOr(d.x)
    ensures r.y == u.y.GetOr(d.y)
    ensures r.value == if u.value.Some? then u.value else d.value
    ensures r.status == if u.status.Some? then u.status else d.status
  {
    Device(
      u.id.GetOr(d.id), u.name.GetOr(d.name), u.kind.GetOr(d.kind), u.room.GetOr(d.room),
      u.isOn.GetOr(d.isOn), u.isConnected.GetOr(d.isConnected), u.power.GetOr(d.power),
      if u.value.Some? then u.value else d.value,
      if u.status.Some? then u.status else d.status,
      u.x.GetOr(d.x), u.y.GetOr(d.y))
  }

  /** Merging the same partial twice is merging it once. */
  lemma MergeIdempotent(d: Device, u: DeviceUpdate)
    ensures Merge(Merge(d, u), u) == Merge(d, u)
  {
  }

  /** What one device adds to the total: its power when on, nothing when off. */
  function Contribution(d: Device): int {
    if d.isOn then d.power else 0
  }

  /** `devices.reduce((acc, d) => acc + (d.isOn ? d.powerConsumption : 0), 0)`, folded from the left. */
  function TotalPower(ds: seq<Device>): int
  {
    if ds == [] then 0 else TotalPower(ds[..|ds| - 1]) + Contribution(ds[|ds| - 1])
  }

  /** The devices that are on, in list order. */
  function OnDevices(ds: seq<Device>): (r: seq<Device>)
    ensures |r| <= |ds|
    ensures forall d :: d in r <==> d in ds && d.isOn
  {
    if ds == [] then [] else (if ds[0].isOn then [ds[0]] else []) + OnDevices(ds[1..])
  }

  /** The filter keeps a single device exactly when it is on. */
  lemma OnDevicesSingleton(d: Device)
    ensures OnDevices([d]) == if d.isOn then [d] else []
  {
    assert [d][1..] == [];
  }

  /** The filter keeps order and repetitions: it distributes over concatenation. */
  lemma {:induction false} OnDevicesAppend(a: seq<Device>, b: seq<Device>)
    ensures OnDevices(a + b) == OnDevices(a) + OnDevices(b)
    decreases |a|
  {
    if a == [] {
      assert a + b == b;
    } else {
      var head := if a[0].isOn then [a[0]] else [];
      assert (a + b)[0] == a[0];
      assert (a + b)[1..] == a[1..] + b;
      OnDevicesAppend(a[1..], b);
      calc {
        OnDevices(a + b);
        head + OnDevices(a[1..] + b);
        head + (OnDevices(a[1..]) + OnDevices(b));
        (head + OnDevices(a[1..])) + OnDevices(b);
        OnDevices(a) + OnDevices(b);
      }
    }
  }

  /** The sum of the power ratings of a list of devices, on or off. */
  function SumOfPower(ds: seq<Device>): int {
    if ds == [] then 0 else ds[0].power + SumOfPower(ds[1..])
  }

  /** Every power rating is a non-negative wattage. */
  ghost predicate NonNegativePower(ds: seq<Device>) {
    forall i :: 0 <= i < |ds| ==> ds[i].power >= 0
  }

  /** No two devices share an id. */
  ghost predicate UniqueIds(ds: seq<Device>) {
    forall i, j :: 0 <= i < j < |ds| ==> ds[i].id != ds[j].id
  }

  lemma {:induction false} TotalPowerAppend(a: seq<Device>, b: seq<Device>)
    ensures TotalPower(a + b) == TotalPower(a) + TotalPower(b)
    decreases |b|
  {
    if b == [] {
      assert a + b == a;
    } else {
      var b' := b[..|b| - 1];
      assert (a + b)[..|a + b| - 1] == a + b';
      assert (a + b)[|a + b| - 1] == b[|b| - 1];
      TotalPowerAppend(a, b');
    }
  }

  /** The total active power is the summed rating of exactly the devices that are on. */
  lemma {:induction false} TotalPowerIsSumOfOnDevices(ds: seq<Device>)
    ensures TotalPower(ds) == SumOfPower(OnDevices(ds))
  {
    if ds != [] {
      TotalPowerIsSumOfOnDevices(ds[1..]);
      assert ds == [ds[0]] + ds[1..];
      TotalPowerAppend([ds[0]], ds[1..]);
      assert [ds[0]][..0] == [];
      var rest := OnDevices(ds[1..]);
      if ds[0].isOn {
        assert ([ds[0]] + rest)[1..] == rest;
      } else {
        assert [] + rest == rest;
      }
    }
  }

  /** With every device off the total is zero; with non-negative ratings it is never negative. */
  lemma TotalPowerBounds(ds: seq<Device>)
    ensures (forall i :: 0 <= i < |ds| ==> !ds[i].isOn) ==> TotalPower(ds) == 0
    ensures NonNegativePower(ds) ==> TotalPower(ds) >= 0
  {
    TotalPowerIsSumOfOnDevices(ds);
    SumOfPowerBounds(OnDevices(ds));
    if forall i :: 0 <= i < |ds| ==> !ds[i].isOn {
      assert OnDevices(ds) == [];
    }
  }

  lemma {:induction false} SumOfPowerBounds(ds: seq<Device>)
    ensures (forall d :: d in ds ==> d.power >= 0) ==> SumOfPower(ds) >= 0
  {
    if ds != [] {
      SumOfPowerBounds(ds[1..]);
    }
  }

  /** Two lists whose devices contribute pairwise the same have the same total. */
  lemma {:induction false} TotalPowerPointwise(a: seq<Device>, b: seq<Device>)
    requires |a| == |b|
    requires forall i :: 0 <= i < |a| ==> Contribution(a[i]) == Contribution(b[i])
    ensures TotalPower(a) == TotalPower(b)
  {
    if a != [] {
      TotalPowerPointwise(a[..|a| - 1], b[..|b| - 1]);
    }
  }

  /** Replacing one device changes the total by the difference of the two contributions. */
  lemma TotalPowerReplace(ds: seq<Device>, k: nat, e: Device)
    requires k < |ds|
    ensures TotalPower(ds[k := e]) == TotalPower(ds) - Contribution(ds[k]) + Contribution(e)
  {
    var pre, post := ds[..k], ds[k + 1..];
    assert ds == pre + [ds[k]] + post;
    assert ds[k := e] == pre + [e] + post;
    TotalPowerAppend(pre + [ds[k]], post);
    TotalPowerAppend(pre, [ds[k]]);
    TotalPowerAppend(pre + [e], post);
    TotalPowerAppend(pre, [e]);
    assert [e][..0] == [] && [ds[k]][..0] == [];
  }

  /** `prev.map(d => d.id === id ? { ...d, ...u } : d)` */
  function UpdateById(ds: seq<Device>, id: string, u: DeviceUpdate): (r: seq<Device>)
    ensures |r| == |ds|
    ensures forall i :: 0 <= i < |ds| && ds[i].id != id ==> r[i] == ds[i]
    ensures forall i :: 0 <= i < |ds| && ds[i].id == id ==> r[i] == Merge(ds[i], u)
  {
    seq(|ds|, i requires 0 <= i < |ds| => if ds[i].id == id then Merge(ds[i], u) else ds[i])
  }

  /** An update for an id no device has changes nothing. */
  lemma UpdateAbsentIdIsNoop(ds: seq<Device>, id: string, u: DeviceUpdate)
    requires forall i :: 0 <= i < |ds| ==> ds[i].id != id
    ensures UpdateById(ds, id, u) == ds
  {
  }

  /** With unique ids, the update replaces exactly the one matching device by its merge. */
  lemma UpdateUniqueIsReplace(ds: seq<Device>, id: string, u: DeviceUpdate, k: nat)
    requires UniqueIds(ds) && k < |ds| && ds[k].id == id
    ensures UpdateById(ds, id, u) == ds[k := Merge(ds[k], u)]
  {
  }

  /** An update that does not rename keeps the ids, so unique ids stay unique. */
  lemma UpdateKeepsIds(ds: seq<Device>, id: string, u: DeviceUpdate)
    requires u.id.None?
    ensures forall i :: 0 <= i < |ds| ==> UpdateById(ds, id, u)[i].id == ds[i].id
    ensures UniqueIds(ds) ==> UniqueIds(UpdateById(ds, id, u))
  {
  }

  /** Power after an update of the device at index `k`: its old contribution leaves, its new one enters. */
  lemma TotalPowerAfterUpdate(ds: seq<Device>, id: string, u: DeviceUpdate, k: nat)
    requires UniqueIds(ds) && k < |ds| && ds[k].id == id
    ensures TotalPower(UpdateById(ds, id, u)) == TotalPower(ds) - Contribution(ds[k]) + Contribution(Merge(ds[k], u))
  {
    UpdateUniqueIsReplace(ds, id, u, k);
    TotalPowerReplace(ds, k, Merge(ds[k], u));
  }

  /** An update that touches neither `isOn` nor the rating leaves the total as it was, for any list. */
  lemma TotalPowerIgnoresOtherFields(ds: seq<Device>, id: string, u: DeviceUpdate)
    requires u.isOn.None? && u.power.None?
    ensures TotalPower(UpdateById(ds, id, u)) == TotalPower(ds)
  {
    TotalPowerPointwise(UpdateById(ds, id, u), ds);
  }

  /** `devices.find(d => d.id === id)`, as the index of the first match. */
  function FindIndex(ds: seq<Device>, id: string): (r: Option<nat>)
    ensures r.None? <==> forall i :: 0 <= i < |ds| ==> ds[i].id != id
    ensures r.Some? ==> r.value < |ds| && ds[r.value].id == id
    ensures r.Some? ==> forall j :: 0 <= j < r.value ==> ds[j].id != id
  {
    if ds == [] then None
    else if ds[0].id == id then Some(0)
    else match FindIndex(ds[1..], id)
      case None => None
      case Some(k) => Some(k + 1)
  }

  /** `devices.find(d => d.id === id)`: the first device with that id, or none. */
  function Find(ds: seq<Device>, id: string): (r: Option<Device>)
    ensures r.None? <==> forall i :: 0 <= i < |ds| ==> ds[i].id != id
    ensures r.Some? ==> r.value in ds && r.value.id == id
    ensures r.Some? ==> FindIndex(ds, id).Some? && r.value == ds[FindIndex(ds, id).value]
  {
    match FindIndex(ds, id)
    case None => None
    case Some(k) => Some(ds[k])
  }

  /**
   * The lookup of `target` does not see an update of another id that does
   * not rename anything to `target`: the same index, the same device.
   */
  lemma FindUnderOtherUpdate(ds: seq<Device>, target: string, id: string, u: DeviceUpdate)
    requires id != target && u.id != Some(target)
    ensures FindIndex(UpdateById(ds, id, u), target) == FindIndex(ds, target)
    ensures Find(UpdateById(ds, id, u), target) == Find(ds, target)
  {
    var r := UpdateById(ds, id, u);
    assert forall i :: 0 <= i < |ds| ==> (r[i].id == target <==> ds[i].id == target);
    match FindIndex(ds, target)
    case None =>
    case Some(k) =>
      assert r[k] == ds[k];
      FindIndexIsFirst(r, target, k);
  }

  /** The first index holding `id` is what FindIndex returns. */
  lemma FindIndexIsFirst(ds: seq<Device>, id: string, k: nat)
    requires k < |ds| && ds[k].id == id
    requires forall j :: 0 <= j < k ==> ds[j].id != id
    ensures FindIndex(ds, id) == Some(k)
  {
    match FindIndex(ds, id)
    case None =>
    case Some(m) =>
  }

  /** Routine 1 body: everything that is not a refrigerator is switched off. */
  function PowerSavingMode(ds: seq<Device>): (r: seq<Device>)
    ensures |r| == |ds|
    ensures forall i :: 0 <= i < |ds| && ds[i].kind == Refrigerator ==> r[i] == ds[i]
    ensures forall i :: 0 <= i < |ds| && ds[i].kind != Refrigerator ==> r[i] == ds[i].(isOn := false)
  {
    seq(|ds|, i requires 0 <= i < |ds| => if ds[i].kind == Refrigerator then ds[i] else Merge(ds[i], SetOn(false)))
  }

  /** `{ value: 27, status: 'Fan Only', isOn: true }` */
  const FanOnly := NoFields.(value := Some(Num(27)), status := Some("Fan Only"), isOn := Some(true))

  /** Routine 2 body: the air conditioner goes to fan mode at 27, lights and TVs go off. */
  function AwayMode(ds: seq<Device>): (r: seq<Device>)
    ensures |r| == |ds|
    ensures forall i :: 0 <= i < |ds| && ds[i].kind == Ac ==>
      r[i] == ds[i].(value := Some(Num(27)), status := Some("Fan Only"), isOn := true)
    ensures forall i :: 0 <= i < |ds| && ds[i].kind in {Light, Tv} ==> r[i] == ds[i].(isOn := false)
    ensures forall i :: 0 <= i < |ds| && ds[i].kind !in {Ac, Light, Tv} ==> r[i] == ds[i]
  {
    seq(|ds|, i requires 0 <= i < |ds| =>
      var d := ds[i];
      if d.kind == Ac then Merge(d, FanOnly)
      else if d.kind == Light then Merge(d, SetOn(false))
      else if d.kind == Tv then Merge(d, SetOn(false))
      else d)
  }

  /** After power saving only refrigerators can still draw power; running it again changes nothing. */
  lemma PowerSavingLeavesOnlyRefrigerators(ds: seq<Device>)
    ensures forall i :: 0 <= i < |ds| && PowerSavingMode(ds)[i].isOn ==> ds[i].kind == Refrigerator
    ensures PowerSavingMode(PowerSavingMode(ds)) == PowerSavingMode(ds)
    ensures TotalPower(PowerSavingMode(ds)) == TotalPower(Refrigerators(ds))
  {
    RefrigeratorPower(ds);
  }

  /** The refrigerators of the list, in list order. */
  function Refrigerators(ds: seq<Device>): seq<Device> {
    if ds == [] then [] else (if ds[0].kind == Refrigerator then [ds[0]] else []) + Refrigerators(ds[1..])
  }

  lemma {:induction false} RefrigeratorPower(ds: seq<Device>)
    ensures TotalPower(PowerSavingMode(ds)) == TotalPower(Refrigerators(ds))
  {
    if ds != [] {
      var r := PowerSavingMode(ds);
      RefrigeratorPower(ds[1..]);
      assert r == [r[0]] + PowerSavingMode(ds[1..]);
      TotalPowerAppend([r[0]], PowerSavingMode(ds[1..]));
      assert [r[0]][..0] == [];
      var f := if ds[0].kind == Refrigerator then [ds[0]] else [];
      TotalPowerAppend(f, Refrigerators(ds[1..]));
      if ds[0].kind == Refrigerator {
        assert [ds[0]][..0] == [];
      }
    }
  }

  /** Away mode is idempotent. */
  lemma AwayModeIdempotent(ds: seq<Device>)
    ensures AwayMode(AwayMode(ds)) == AwayMode(ds)
  {
  }
}
