// What the synthetic pod mounts, and on which nodes it may run.
module SyntheticPods {
  import opened Names
  import opened Cluster
  import opened Protocol

  // Where the known types are in a CSI list.
  function KnownAt(csis: seq<CsiType>): set<nat>
  {
    set i: nat | i < |csis| && !csis[i].OtherCsi?
  }

  // As many volumes and mounts as known types are listed, and nothing else.
  ghost predicate Equips(csis: seq<CsiType>, ts: nat, volumes: seq<Volume>, mounts: seq<Mount>)
  {
    && |volumes| == |mounts| == |KnownAt(csis)|
    && (forall t | t in csis && !t.OtherCsi? :: Volume(t, ClaimName(t, ts)) in volumes && Mount(t) in mounts)
    && (forall v | v in volumes :: v.csi in csis && !v.csi.OtherCsi? && v.claim == ClaimName(v.csi, ts))
    && (forall m | m in mounts :: m.csi in csis && !m.csi.OtherCsi?)
  }

  lemma KnownSnoc(csis: seq<CsiType>, t: CsiType)
    ensures |KnownAt(csis + [t])| == |KnownAt(csis)| + if t.OtherCsi? then 0 else 1
  {
    assert KnownAt(csis + [t]) == KnownAt(csis) + if t.OtherCsi? then {} else {|csis|};
  }

  lemma EquipsSnoc(csis: seq<CsiType>, t: CsiType, ts: nat, volumes: seq<Volume>, mounts: seq<Mount>)
    requires Equips(csis, ts, volumes, mounts)
    ensures t.OtherCsi? ==> Equips(csis + [t], ts, volumes, mounts)
    ensures !t.OtherCsi? ==> Equips(csis + [t], ts, volumes + [Volume(t, ClaimName(t, ts))], mounts + [Mount(t)])
  {
    KnownSnoc(csis, t);
  }

  lemma {:induction false} VolumesSnoc(csis: seq<CsiType>, t: CsiType, ts: nat)
    ensures VolumesOf(csis + [t], ts) == VolumesOf(csis, ts) + VolumesOf([t], ts)
    ensures MountsOf(csis + [t]) == MountsOf(csis) + MountsOf([t])
  {
    if csis == [] {
      assert csis + [t] == [t];
    } else {
      assert (csis + [t])[1..] == csis[1..] + [t];
      VolumesSnoc(csis[1..], t, ts);
    }
  }

  // The pod a run creates is so equipped.
  lemma {:induction false} PodEquipped(csis: seq<CsiType>, ts: nat)
    ensures Equips(csis, ts, VolumesOf(csis, ts), MountsOf(csis))
    decreases |csis|
  {
    if csis == [] {
      assert KnownAt(csis) == {};
    } else {
      var n := |csis| - 1;
      assert csis == csis[..n] + [csis[n]];
      PodEquipped(csis[..n], ts);
      EquipsSnoc(csis[..n], csis[n], ts, VolumesOf(csis[..n], ts), MountsOf(csis[..n]));
      VolumesSnoc(csis[..n], csis[n], ts);
    }
  }

  // With node provisioning it asks for a node of the run's own pool, by the pool's very labels.
  lemma PodFitsPool(c: Checker, ts: nat)
    requires c.PodStartup?
    ensures var pod, pool := Want(c, CreatePod(ts)), Want(c, CreatePool(ts));
            && pod.Create? && pool.Create? && pod.spec.PodSpec?
            && (c.provisioning ==>
                  && pod.spec.nodeSelector == pool.labels
                  && c.labelKey in pool.labels && Undec(pool.labels[c.labelKey]) == ts)
            && (!c.provisioning ==> pod.spec.nodeSelector == map[])
  {
    UndecDec(ts);
  }
}
