/** Which device, if any, the avatar stands close enough to for the connect button. */
module Proximity {
  import opened Wrappers
  import opened Types

  /** The proximity radius, in map percent. */
  const Threshold: real := 15.0

  /** The squared Euclidean distance between a device and the avatar. */
  function Dist2(d: Device, p: Position): real {
    (d.x - p.x) * (d.x - p.x) + (d.y - p.y) * (d.y - p.y)
  }

  /** `Math.sqrt(dx*dx + dy*dy) < threshold`, compared without the square root. */
  predicate InRange(d: Device, p: Position) {
    Dist2(d, p) < Threshold * Threshold
  }

  /**
   * Device `k` is the answer: in range, no farther than any device in
   * range, and strictly closer than every earlier device in range.
   */
  ghost predicate IsNearest(ds: seq<Device>, p: Position, k: nat) {
    && k < |ds|
    && InRange(ds[k], p)
    && (forall j :: 0 <= j < |ds| && InRange(ds[j], p) ==> Dist2(ds[k], p) <= Dist2(ds[j], p))
    && (forall j :: 0 <= j < k && InRange(ds[j], p) ==> Dist2(ds[j], p) > Dist2(ds[k], p))
  }

  /**
   * The `forEach` search for the nearby device: keep the first device that is
   * in range and strictly closer than the best one so far. `minDist` starts
   * at infinity, modelled as `None`.
   */
  method FindNearest(ds: seq<Device>, p: Position) returns (found: Option<Device>, ghost at: nat)
    ensures found.None? <==> forall i :: 0 <= i < |ds| ==> !InRange(ds[i], p)
    ensures found.Some? ==> IsNearest(ds, p, at) && found.value == ds[at]
  {
    found, at := None, 0;
    var minDist: Option<real> := None;
    var i := 0;
    while i < |ds|
      invariant 0 <= i <= |ds|
      invariant found.None? <==> minDist.None?
      invariant found.None? ==> forall j :: 0 <= j < i ==> !InRange(ds[j], p)
      invariant found.Some? ==> at < i && found.value == ds[at] && InRange(ds[at], p)
      invariant found.Some? ==> minDist == Some(Dist2(ds[at], p))
      invariant found.Some? ==> forall j :: 0 <= j < i && InRange(ds[j], p) ==> Dist2(ds[at], p) <= Dist2(ds[j], p)
      invariant found.Some? ==> forall j :: 0 <= j < at && InRange(ds[j], p) ==> Dist2(ds[j], p) > Dist2(ds[at], p)
    {
      var dist := Dist2(ds[i], p);
      if dist < Threshold * Threshold && (minDist.None? || dist < minDist.value) {
        minDist := Some(dist);
        found, at := Some(ds[i]), i;
      }
      i := i + 1;
    }
  }

  /** The specification admits one answer only, so ties go to the earliest device. */
  lemma NearestIsUnique(ds: seq<Device>, p: Position, k1: nat, k2: nat)
    requires IsNearest(ds, p, k1) && IsNearest(ds, p, k2)
    ensures k1 == k2
  {
  }
}
