/**
 * The energy tab: the per-device energy entries, their total, the safe
 * classification, the bar colours, the status list and the all-off card.
 */
module Dashboard {
  import opened Wrappers
  import opened Types
  import opened DeviceList

  /** The tab's own safe-usage limit. */
  const SafeUsageLimit := 300

  /** One chart entry: the device's draw when on, zero when off. */
  datatype EnergyEntry = EnergyEntry(name: string, value: int, original: Device)

  function ToEntry(d: Device): (e: EnergyEntry)
    ensures e.original == d && e.value == Contribution(d)
  {
    EnergyEntry(d.name, if d.isOn then d.power else 0, d)
  }

  /** An entry is charted when it draws power or its device is connected. */
  predicate Charted(e: EnergyEntry) {
    e.value > 0 || e.original.isConnected
  }

  /** `energyData`: map every device to its entry, then keep the charted ones, in list order. */
  function EnergyData(ds: seq<Device>): (r: seq<EnergyEntry>)
    ensures |r| <= |ds|
    ensures forall e :: e in r <==> e.original in ds && e == ToEntry(e.original) && Charted(e)
  {
    if ds == [] then []
    else (if Charted(ToEntry(ds[0])) then [ToEntry(ds[0])] else []) + EnergyData(ds[1..])
  }

  /** `totalUsage`: the entries' values folded from the left. */
  function TotalUsage(es: seq<EnergyEntry>): int {
    if es == [] then 0 else TotalUsage(es[..|es| - 1]) + es[|es| - 1].value
  }

  lemma {:induction false} TotalUsageAppend(a: seq<EnergyEntry>, b: seq<EnergyEntry>)
    ensures TotalUsage(a + b) == TotalUsage(a) + TotalUsage(b)
    decreases |b|
  {
    if b == [] {
      assert a + b == a;
    } else {
      var b' := b[..|b| - 1];
      assert (a + b)[..|a + b| - 1] == a + b';
      TotalUsageAppend(a, b');
    }
  }

  /**
   * With non-negative ratings the chart's total is the session's total
   * power: the filter drops only entries worth zero.
   */
  lemma {:induction false} TotalUsageIsTotalPower(ds: seq<Device>)
    requires NonNegativePower(ds)
    ensures TotalUsage(EnergyData(ds)) == TotalPower(ds)
  {
    if ds != [] {
      TotalUsageIsTotalPower(ds[1..]);
      var head := if Charted(ToEntry(ds[0])) then [ToEntry(ds[0])] else [];
      TotalUsageAppend(head, EnergyData(ds[1..]));
      assert ds == [ds[0]] + ds[1..];
      TotalPowerAppend([ds[0]], ds[1..]);
      assert [ds[0]][..0] == [];
      if head != [] {
        assert head[..0] == [];
      }
    }
  }

  /** The total usage of a list of entries, all non-negative, bounds each of them. */
  lemma {:induction false} EntryAtMostTotal(es: seq<EnergyEntry>, e: EnergyEntry)
    requires forall x :: x in es ==> x.value >= 0
    requires e in es
    ensures e.value <= TotalUsage(es)
    decreases |es|
  {
    var init := es[..|es| - 1];
    assert es == init + [es[|es| - 1]];
    UsageNonNegative(init);
    if e != es[|es| - 1] {
      EntryAtMostTotal(init, e);
    }
  }

  lemma {:induction false} UsageNonNegative(es: seq<EnergyEntry>)
    requires forall x :: x in es ==> x.value >= 0
    ensures TotalUsage(es) >= 0
    decreases |es|
  {
    if es != [] {
      UsageNonNegative(es[..|es| - 1]);
    }
  }

  /** `isSafe` */
  predicate IsSafe(ds: seq<Device>) {
    TotalUsage(EnergyData(ds)) <= SafeUsageLimit
  }

  /** The tab calls the household safe exactly when the total power is at most 300 W. */
  lemma SafeIffTotalPowerBelowLimit(ds: seq<Device>)
    requires NonNegativePower(ds)
    ensures IsSafe(ds) <==> TotalPower(ds) <= 300
  {
    TotalUsageIsTotalPower(ds);
  }

  datatype BarColour = Red | Green | Blue

  /** A bar is red above 500 W, otherwise green when the household is safe and blue when not. */
  function BarColourOf(value: int, safe: bool): (c: BarColour)
    ensures c == Red <==> value > 500
    ensures c == Green <==> value <= 500 && safe
    ensures c == Blue <==> value <= 500 && !safe
  {
    if value > 500 then Red else if safe then Green else Blue
  }

  /** On a safe household every bar is green: no single entry can exceed the 300 W total. */
  lemma SafeChartIsGreen(ds: seq<Device>)
    requires NonNegativePower(ds) && IsSafe(ds)
    ensures forall e :: e in EnergyData(ds) ==> BarColourOf(e.value, IsSafe(ds)) == Green
  {
    var es := EnergyData(ds);
    forall x | x in es
      ensures x.value >= 0
    {
      var i :| 0 <= i < |ds| && ds[i] == x.original;
    }
    forall e | e in es
      ensures e.value <= 300
    {
      EntryAtMostTotal(es, e);
    }
  }

  /** One row of the status list, with whether it offers an off button. */
  datatype StatusRow = StatusRow(device: Device, offButton: bool)

  /** The status list: exactly the devices that are on, in list order; connected ones get an off button. */
  function StatusRows(ds: seq<Device>): (r: seq<StatusRow>)
    ensures |r| == |OnDevices(ds)|
    ensures forall i :: 0 <= i < |r| ==> r[i].device == OnDevices(ds)[i] && r[i].offButton == r[i].device.isConnected
    ensures forall d :: d in ds && d.isOn <==> exists i :: 0 <= i < |r| && r[i].device == d
  {
    var on := OnDevices(ds);
    var rows := seq(|on|, i requires 0 <= i < |on| => StatusRow(on[i], on[i].isConnected));
    assert forall d :: d in on <==> exists i :: 0 <= i < |rows| && rows[i].device == d by {
      forall d | d in on
        ensures exists i :: 0 <= i < |rows| && rows[i].device == d
      {
        var i :| 0 <= i < |on| && on[i] == d;
        assert rows[i].device == d;
      }
    }
    rows
  }

  /** An off button asks the session to switch its device off: `onDeviceToggle(device.id, false)`. */
  function OffButtonRequest(row: StatusRow): (req: Option<(string, bool)>)
    ensures req.Some? <==> row.offButton
    ensures req.Some? ==> req.value == (row.device.id, false)
  {
    if row.offButton then Some((row.device.id, false)) else None
  }

  /** The "all off" card is shown exactly when no device is on, and the household is then safe. */
  lemma AllOffCard(ds: seq<Device>)
    ensures |StatusRows(ds)| == 0 <==> forall i :: 0 <= i < |ds| ==> !ds[i].isOn
    ensures |StatusRows(ds)| == 0 && NonNegativePower(ds) ==> IsSafe(ds)
  {
    if |StatusRows(ds)| == 0 {
      TotalPowerBounds(ds);
      if NonNegativePower(ds) {
        SafeIffTotalPowerBelowLimit(ds);
      }
    } else {
      var d := OnDevices(ds)[0];
      assert d in OnDevices(ds);
    }
  }
}
