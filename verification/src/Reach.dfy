/** How charges depend on rows: pointwise comparisons, and the step at which a charge
    is reached. */
module Reach {
  import opened Usages
  import opened Devices
  import opened Lifecycle

  /** Row by row, `a` uses no more of `r` on `d` than `b`. */
  ghost predicate RowsLe(a: PodSingleDevice, b: PodSingleDevice, d: DeviceId, r: Res) {
    |a| == |b| && forall i :: 0 <= i < |a| ==> RowUse(a[i], d, r) <= RowUse(b[i], d, r)
  }

  lemma {:induction false} PartMono(pod: Pod, a: PodSingleDevice, b: PodSingleDevice, n: nat, k: Kind, d: DeviceId, r: Res)
    requires RowsLe(a, b, d, r) && n <= |a|
    ensures PartUse(pod, a, n, k, d, r) <= PartUse(pod, b, n, k, d, r)
  {
    if n > 0 { PartMono(pod, a, b, n - 1, k, d, r); }
  }

  lemma {:induction false} PeakMono(pod: Pod, a: PodSingleDevice, b: PodSingleDevice, n: nat, d: DeviceId, r: Res)
    requires RowsLe(a, b, d, r) && n <= |a|
    ensures PeakUse(pod, a, n, d, r) <= PeakUse(pod, b, n, d, r)
  {
    if n > 0 {
      PeakMono(pod, a, b, n - 1, d, r);
      PartMono(pod, a, b, n - 1, Sidecar, d, r);
      PartMono(pod, a, b, n - 1, App, d, r);
    }
  }

  /** A charge grows with the rows. */
  lemma EffectiveMono(pod: Pod, a: PodSingleDevice, b: PodSingleDevice, released: bool, d: DeviceId, r: Res)
    requires RowsLe(a, b, d, r)
    ensures Effective(pod, a, released, d, r) <= Effective(pod, b, released, d, r)
  {
    PartMono(pod, a, b, |a|, Sidecar, d, r);
    PartMono(pod, a, b, |a|, App, d, r);
    PeakMono(pod, a, b, |a|, d, r);
  }

  /** A charge on a device depends only on what the rows use there. */
  lemma EffectiveCongruent(pod: Pod, a: PodSingleDevice, b: PodSingleDevice, released: bool, d: DeviceId, r: Res)
    requires RowsLe(a, b, d, r) && RowsLe(b, a, d, r)
    ensures Effective(pod, a, released, d, r) == Effective(pod, b, released, d, r)
  {
    EffectiveMono(pod, a, b, released, d, r);
    EffectiveMono(pod, b, a, released, d, r);
  }

  lemma {:induction false} PartUnnamed(pod: Pod, rows: PodSingleDevice, n: nat, k: Kind, d: DeviceId, r: Res)
    requires n <= |rows| && forall i :: 0 <= i < n ==> !Names(rows[i], d)
    ensures PartUse(pod, rows, n, k, d, r) == 0
  {
    if n > 0 {
      PartUnnamed(pod, rows, n - 1, k, d, r);
      RowUseUnnamed(rows[n - 1], d, r);
    }
  }

  lemma {:induction false} PeakUnnamed(pod: Pod, rows: PodSingleDevice, n: nat, d: DeviceId, r: Res)
    requires n <= |rows| && forall i :: 0 <= i < n ==> !Names(rows[i], d)
    ensures PeakUse(pod, rows, n, d, r) == 0
  {
    if n > 0 {
      PeakUnnamed(pod, rows, n - 1, d, r);
      PartUnnamed(pod, rows, n - 1, Sidecar, d, r);
      PartUnnamed(pod, rows, n - 1, App, d, r);
      RowUseUnnamed(rows[n - 1], d, r);
    }
  }

  /** A device that no row names is not charged. */
  lemma EffectiveUnnamed(pod: Pod, rows: PodSingleDevice, released: bool, d: DeviceId, r: Res)
    requires forall i :: 0 <= i < |rows| ==> !Names(rows[i], d)
    ensures Effective(pod, rows, released, d, r) == 0
  {
    PartUnnamed(pod, rows, |rows|, Sidecar, d, r);
    PartUnnamed(pod, rows, |rows|, App, d, r);
    PeakUnnamed(pod, rows, |rows|, d, r);
  }

  /** What runs was put there by a container that named the device. */
  lemma {:induction false} LiveReached(pod: Pod, rows: PodSingleDevice, n: nat, d: DeviceId, r: Res) returns (i: nat)
    requires n <= |rows| && LiveUse(pod, rows, n, d, r) > 0
    ensures i < n && Names(rows[i], d) && pod.KindAt(i) != OrdinaryInit && StepUse(pod, rows, i, d, r) >= LiveUse(pod, rows, n, d, r)
  {
    if pod.KindAt(n - 1) != OrdinaryInit && Names(rows[n - 1], d) {
      return n - 1;
    }
    if pod.KindAt(n - 1) != OrdinaryInit { RowUseUnnamed(rows[n - 1], d, r); }
    i := LiveReached(pod, rows, n - 1, d, r);
  }

  /** A charge is reached while some container that names the device starts. */
  lemma EffectiveReached(pod: Pod, rows: PodSingleDevice, d: DeviceId, r: Res) returns (i: nat)
    requires Effective(pod, rows, false, d, r) > 0
    ensures i < |rows| && Names(rows[i], d) && StepUse(pod, rows, i, d, r) >= Effective(pod, rows, false, d, r)
  {
    if PeakUse(pod, rows, |rows|, d, r) > LiveUse(pod, rows, |rows|, d, r) {
      i := PeakReached(pod, rows, |rows|, d, r);
      if !Names(rows[i], d) {
        RowUseUnnamed(rows[i], d, r);
        i := LiveReached(pod, rows, i, d, r);
      }
    } else {
      i := LiveReached(pod, rows, |rows|, d, r);
    }
  }

  /** A container that still counts is part of the charge. */
  lemma EffectiveCovers(pod: Pod, rows: PodSingleDevice, released: bool, i: nat, d: DeviceId, r: Res)
    requires i < |rows| && (released ==> pod.KindAt(i) != OrdinaryInit)
    ensures RowUse(rows[i], d, r) <= Effective(pod, rows, released, d, r)
  {
    if pod.KindAt(i) == OrdinaryInit {
      PeakCovers(pod, rows, |rows|, i, d, r);
    } else {
      LiveMono(pod, rows, i + 1, |rows|, d, r);
    }
  }
}
