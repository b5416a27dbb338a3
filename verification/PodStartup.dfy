// A whole run of the pod startup checker: garbage collection, limits, storage, node pool, pod,
// measurement and the deferred clean-up, and what it leaves behind on every exit.
module PodStartup {
  import opened Results
  import opened Names
  import opened Cluster
  import opened Protocol
  import opened Session
  import opened Collection
  import opened Csi
  import opened Measure
  import opened SyntheticPods
  import Bounds
  import Verdicts

  // ---- What garbage collection does, over all kinds ----

  ghost function Kinds(c: Checker): set<Kind>
    requires c.PodStartup?
  {
    {Pod, Claim, StorageClass} + if c.provisioning then {NodePool} else {}
  }

  // The checker's own objects of the listed kinds, whose age is looked at.
  ghost function Own(c: Checker, listed: set<Kind>, st: Objects): set<Key>
  {
    set k | k in st && k.kind in listed && !k.kind.NodePool? && k.ns == Scope(c, k.kind)
        && Selects(OwnSelector(c), st[k].labels)
  }

  // Every node pool bearing the label key, whatever its age.
  ghost function Pools(c: Checker, listed: set<Kind>, st: Objects): set<Key>
  {
    set k | k in st && k.kind in listed && k.kind.NodePool? && k.ns == "" && c.labelKey in st[k].labels
  }

  // `listed`: the kinds whose list was served. `seen`: when each object's age was looked at.
  // `fates`: what became of each delete.
  ghost predicate Collected(c: Checker, listed: set<Kind>, st: Objects, st': Objects,
      seen: map<Key, nat>, fates: map<Key, Fault>)
  {
    && seen.Keys == Own(c, listed, st)
    && fates.Keys == OverAge(c, st, seen) + Pools(c, listed, st)
    && st' == st - Gone(fates)
  }

  predicate AllWork(fates: map<Key, Fault>)
  {
    forall k | k in fates :: fates[k].Works?
  }

  lemma CollectedStart(c: Checker, st: Objects)
    ensures Collected(c, {}, st, st, map[], map[])
  {
  }

  // What one kind's pass from mid to st' did.
  ghost predicate Pass(c: Checker, kind: Kind, mid: Objects, st': Objects, seen: map<Key, nat>, fates: map<Key, Fault>)
  {
    && st' == mid - Gone(fates)
    && if kind.NodePool? then seen == map[] && fates.Keys == Matching(mid, kind, "", HasKey(c.labelKey))
       else seen.Keys == Matching(mid, kind, Scope(c, kind), OwnSelector(c)) && fates.Keys == OverAge(c, mid, seen)
  }

  // Collecting other kinds does not change what a pass selects.
  lemma MatchingUntouched(st: Objects, gone: set<Key>, kind: Kind, ns: string, sel: Selector)
    requires forall k | k in gone :: k.kind != kind
    ensures Matching(st - gone, kind, ns, sel) == Matching(st, kind, ns, sel)
  {
  }

  lemma OverAgeUntouched(c: Checker, st: Objects, gone: set<Key>, seen: map<Key, nat>)
    requires seen.Keys !! gone
    ensures OverAge(c, st - gone, seen) == OverAge(c, st, seen)
  {
  }

  lemma FatesUnion(fates: map<Key, Fault>, fates1: map<Key, Fault>)
    requires fates.Keys !! fates1.Keys
    ensures Gone(fates + fates1) == Gone(fates) + Gone(fates1)
    ensures Failing(fates + fates1) == Failing(fates) + Failing(fates1)
  {
  }

  lemma GoneTwice(st: Objects, a: set<Key>, b: set<Key>)
    ensures st - a - b == st - (a + b)
  {
  }

  lemma CollectedStep(c: Checker, listed: set<Kind>, kind: Kind, st: Objects, mid: Objects, st': Objects,
                      seen: map<Key, nat>, fates: map<Key, Fault>, seen1: map<Key, nat>, fates1: map<Key, Fault>)
    requires Collected(c, listed, st, mid, seen, fates) && kind !in listed
    requires Pass(c, kind, mid, st', seen1, fates1)
    ensures Collected(c, listed + {kind}, st, st', seen + seen1, fates + fates1)
    ensures Failing(fates + fates1) == Failing(fates) + Failing(fates1)
  {
    PassApart(c, listed, kind, st, mid, st', seen, fates, seen1, fates1);
    FatesUnion(fates, fates1);
    NothingSeen(c, st);
    MergeSeen(c, listed, kind, st, seen, seen1);
    MergeFates(c, listed, kind, st, seen, seen1, fates, fates1);
    GoneTwice(st, Gone(fates), Gone(fates1));
  }

  lemma MergeSeen(c: Checker, listed: set<Kind>, kind: Kind, st: Objects, seen: map<Key, nat>, seen1: map<Key, nat>)
    requires seen.Keys == Own(c, listed, st) && kind !in listed
    requires seen1.Keys == if kind.NodePool? then {} else Matching(st, kind, Scope(c, kind), OwnSelector(c))
    ensures (seen + seen1).Keys == Own(c, listed + {kind}, st)
  {
  }

  lemma MergeFates(c: Checker, listed: set<Kind>, kind: Kind, st: Objects, seen: map<Key, nat>, seen1: map<Key, nat>,
                   fates: map<Key, Fault>, fates1: map<Key, Fault>)
    requires fates.Keys == OverAge(c, st, seen) + Pools(c, listed, st) && kind !in listed && seen.Keys !! seen1.Keys
    requires fates1.Keys == OverAge(c, st, seen1)
              + if kind.NodePool? then Matching(st, kind, "", HasKey(c.labelKey)) else {}
    ensures (fates + fates1).Keys == OverAge(c, st, seen + seen1) + Pools(c, listed + {kind}, st)
  {
  }

  lemma NothingSeen(c: Checker, st: Objects)
    ensures OverAge(c, st, map[]) == {}
  {
  }

  lemma CollectedKinds(c: Checker, listed: set<Kind>, st: Objects, st': Objects,
      seen: map<Key, nat>, fates: map<Key, Fault>)
    requires Collected(c, listed, st, st', seen, fates)
    ensures forall k | k in seen.Keys || k in fates.Keys :: k.kind in listed
  {
  }

  lemma PassKinds(c: Checker, kind: Kind, mid: Objects, st': Objects, seen: map<Key, nat>, fates: map<Key, Fault>)
    requires Pass(c, kind, mid, st', seen, fates)
    ensures forall k | k in seen.Keys || k in fates.Keys :: k.kind == kind
  {
  }

  lemma KindsApart(listed: set<Kind>, kind: Kind, a: set<Key>, b: set<Key>)
    requires kind !in listed && (forall k | k in a :: k.kind in listed) && (forall k | k in b :: k.kind == kind)
    ensures a !! b
  {
  }

  // In terms of the starting store, and apart from what other kinds' passes touched.
  lemma PassApart(c: Checker, listed: set<Kind>, kind: Kind, st: Objects, mid: Objects, st': Objects,
                  seen: map<Key, nat>, fates: map<Key, Fault>, seen1: map<Key, nat>, fates1: map<Key, Fault>)
    requires Collected(c, listed, st, mid, seen, fates) && kind !in listed
    requires Pass(c, kind, mid, st', seen1, fates1)
    ensures seen.Keys !! seen1.Keys && fates.Keys !! fates1.Keys
    ensures Pass(c, kind, st, st - Gone(fates1), seen1, fates1)
  {
    CollectedKinds(c, listed, st, mid, seen, fates);
    PassKinds(c, kind, mid, st', seen1, fates1);
    KindsApart(listed, kind, seen.Keys, seen1.Keys);
    KindsApart(listed, kind, fates.Keys, fates1.Keys);
    KindsApart(listed, kind, Gone(fates), seen1.Keys);
    MatchingUntouched(st, Gone(fates), kind, Scope(c, kind), GcSelector(c, kind));
    OverAgeUntouched(c, st, Gone(fates), seen1);
  }

  // `done`: the kinds tried so far. An error is reported for each list not served and each delete
  // that failed with other than NotFound.
  ghost predicate Ledger(c: Checker, done: set<Kind>, st: Objects, now: Objects, listed: set<Kind>,
                         seen: map<Key, nat>, fates: map<Key, Fault>, errs: seq<GcError>)
  {
    && listed <= done
    && Collected(c, listed, st, now, seen, fates)
    && (errs == [] <==> listed == done && Failing(fates) == {})
  }

  lemma LedgerListed(c: Checker, done: set<Kind>, kind: Kind, st: Objects, mid: Objects, now: Objects,
                     listed: set<Kind>, seen: map<Key, nat>, fates: map<Key, Fault>, errs: seq<GcError>,
                     seen1: map<Key, nat>, fates1: map<Key, Fault>, errs1: seq<GcError>)
    requires Ledger(c, done, st, mid, listed, seen, fates, errs) && kind !in done
    requires Pass(c, kind, mid, now, seen1, fates1) && (errs1 == [] <==> Failing(fates1) == {})
    ensures Ledger(c, done + {kind}, st, now, listed + {kind}, seen + seen1, fates + fates1, errs + errs1)
  {
    CollectedStep(c, listed, kind, st, mid, now, seen, fates, seen1, fates1);
    assert listed + {kind} == done + {kind} ==> listed == done;
  }

  lemma LedgerUnlisted(c: Checker, done: set<Kind>, kind: Kind, st: Objects, now: Objects, listed: set<Kind>,
                       seen: map<Key, nat>, fates: map<Key, Fault>, errs: seq<GcError>, e: Error)
    requires Ledger(c, done, st, now, listed, seen, fates, errs) && kind !in done
    ensures Ledger(c, done + {kind}, st, now, listed, seen, fates, errs + [ListFailed(e)])
  {
  }

  // A node pool left by an earlier run is gone after the next collection that can list and delete.
  lemma NextCollectionRemovesPool(c: Checker, ts: nat, listed: set<Kind>, st: Objects, st': Objects,
                                  seen: map<Key, nat>, fates: map<Key, Fault>)
    requires c.PodStartup? && Collected(c, listed, st, st', seen, fates)
    requires NodePool in listed && AllWork(fates)
    requires PoolKey(c, ts) in st && st[PoolKey(c, ts)].labels == PoolLabels(c, ts)
    ensures PoolKey(c, ts) !in st'
  {
  }

  // ---- What a run leaves ----

  // Against the store as garbage collection left it, with every delete working and failed creates
  // leaving nothing.
  ghost predicate Leaves(c: Checker, ts: nat, made: nat, v: Verdict, st: Objects, st': Objects)
    requires c.PodStartup?
  {
    if v == Failed(CsiCreateFailed) then made < |Plan(c, ts)| && Added(c, st, st', Plan(c, ts)[..made])
    else if v == Failed(CsiUnsupported) then made == |Plan(c, ts)| && Added(c, st, st', Plan(c, ts))
    else if c.provisioning && v in {Unhealthy(PodCreationError), Unhealthy(PodCreationTimeout)} then
      PoolLeft(c, ts, st, st')
    else st' == st
  }

  ghost predicate PoolLeft(c: Checker, ts: nat, st: Objects, st': Objects)
  {
    var k := PoolKey(c, ts);
    && k !in st && k in st'
    && st'[k].labels == PoolLabels(c, ts) && st'[k].spec == NoSpec
    && st' - {k} == st
  }

  // Deleting the storage objects afterwards leaves the same against the store without them.
  lemma LeavesWithoutStorage(c: Checker, ts: nat, made: nat, v: Verdict, st: Objects, with: Objects, after: Objects)
    requires c.PodStartup? && v !in {Failed(CsiCreateFailed), Failed(CsiUnsupported)}
    requires Added(c, st, with, Plan(c, ts)) && Leaves(c, ts, 0, v, with, after)
    ensures Leaves(c, ts, made, v, st, after - PlanKeySet(Plan(c, ts)))
  {
  }

  // ---- The checker ----

  class PodStartupChecker {
    const api: Client
    const storage: PodStorage

    constructor (api: Client)
      ensures this.api == api && storage.api == api
    {
      this.api := api;
      this.storage := new PodStorage(api);
    }

    ghost predicate Valid()
    {
      api.chk.PodStartup? && api.gran > 0 && storage.api == api
    }

    // Every delete works and a create that fails leaves nothing.
    ghost predicate Undisturbed()
    {
      api.Quiet() && api.DeletesWork() && api.CreatesHonest()
    }

    ghost predicate ListServed(n: nat)
    {
      !api.faults(n, Listing).Fails? && !api.faults(n, Listing).LosesReply?
    }

    method DeleteListedPool(todo: seq<Item>) returns (err: Option<Error>, ghost fate: Fault)
      requires Valid() && todo != [] && api.pc == GcDelete(NodePool, todo) && Belongs(api.chk, api.pc)
      requires api.Traced()
      modifies api
      ensures api.Traced()
      ensures api.pc == GcNext(api.chk, NodePool, todo[1..]) && Belongs(api.chk, api.pc)
      ensures fate == api.faults(old(api.calls), Deleting) && old(api.calls) < api.calls
      ensures api.Quiet() ==> api.store == if Effective(fate) then old(api.store) - {todo[0].key} else old(api.store)
      ensures api.Quiet() && todo[0].key in old(api.store) ==> (err.Some? <==> Complained(fate))
    {
      fate := api.faults(api.calls, Deleting);
      err := api.Delete(todo[0].key);
      if err == Some(NotFound) {
        err := None;
      }
      ResumeBelongs(api.chk, GcDelete(NodePool, todo), Status(None));
    }

    ghost predicate PoolProgress(st: Objects, now: Objects, done: seq<Item>, fates: map<Key, Fault>, errs: seq<GcError>)
    {
      && fates.Keys == KeysOf(done)
      && now == st - Gone(fates)
      && ErrorKeys(errs) == Failing(fates)
      && forall n | 0 <= n < |errs| :: errs[n].DeleteFailed?
    }

    lemma PoolProgressStep(st: Objects, now: Objects, now': Objects, items: seq<Item>, i: nat,
                           fates: map<Key, Fault>, errs: seq<GcError>, fate: Fault, err: Option<Error>)
      requires i < |items| && PoolProgress(st, now, items[..i], fates, errs) && items[i].key !in KeysOf(items[..i])
      requires now' == if Effective(fate) then now - {items[i].key} else now
      requires err.Some? <==> Complained(fate)
      ensures PoolProgress(st, now', items[..i + 1], fates[items[i].key := fate],
                           if err.Some? then errs + [DeleteFailed(items[i].key, err.value)] else errs)
    {
      KeysOfStep(items, i);
      FatesStep(fates, items[i].key, fate);
      if err.Some? {
        ErrorKeysSnoc(errs, items[i].key, err.value);
      }
    }

    // Item i of the pools listed.
    method DeleteNextPool(items: seq<Item>, i: nat, errs0: seq<GcError>, ghost st: Objects,
        ghost fates0: map<Key, Fault>)
        returns (errs: seq<GcError>, ghost fates: map<Key, Fault>)
      requires Valid() && i < |items| && api.pc == GcDelete(NodePool, items[i..]) && Belongs(api.chk, api.pc)
      requires api.Traced()
      modifies api
      ensures api.Traced()
      ensures api.pc == GcNext(api.chk, NodePool, items[i + 1..]) && Belongs(api.chk, api.pc)
      ensures old(api.calls) < api.calls
      ensures api.Quiet() && KeysOf(items) <= st.Keys && |KeysOf(items)| == |items|
              && PoolProgress(st, old(api.store), items[..i], fates0, errs0) ==>
                PoolProgress(st, api.store, items[..i + 1], fates, errs)
      ensures api.DeletesWork() && AllWork(fates0) ==> AllWork(fates)
    {
      ghost var now := api.store;
      var key := items[i].key;
      assert items[i..][0] == items[i] && items[i..][1..] == items[i + 1..];
      var err, fate := DeleteListedPool(items[i..]);
      errs := if err.Some? then errs0 + [DeleteFailed(key, err.value)] else errs0;
      fates := fates0[key := fate];
      if api.Quiet() && KeysOf(items) <= st.Keys && |KeysOf(items)| == |items|
         && PoolProgress(st, now, items[..i], fates0, errs0) {
        NoRepeats(items, i);
        assert key in KeysOf(items);
        PoolProgressStep(st, now, api.store, items, i, fates0, errs0, fate, err);
      }
    }

    // Works through the pools listed.
    method DeletePools(items: seq<Item>) returns (errs: seq<GcError>, ghost fates: map<Key, Fault>)
      requires Valid() && Belongs(api.chk, api.pc) && api.pc == GcNext(api.chk, NodePool, items)
      requires api.Traced()
      modifies api
      ensures api.Traced()
      ensures api.pc == GcList(Claim) && Belongs(api.chk, api.pc) && old(api.calls) <= api.calls
      ensures api.Quiet() && KeysOf(items) <= old(api.store).Keys && |KeysOf(items)| == |items| ==>
                PoolProgress(old(api.store), api.store, items, fates, errs)
      ensures api.DeletesWork() ==> AllWork(fates)
    {
      errs, fates := [], map[];
      ghost var st := api.store;
      ghost var listed := api.Quiet() && KeysOf(items) <= st.Keys && |KeysOf(items)| == |items|;
      PoolProgressStart(st);
      var i := 0;
      assert items[i..] == items && items[..i] == [];
      while i < |items|
        invariant 0 <= i <= |items| && old(api.calls) <= api.calls
        invariant api.Traced() && api.pc == GcNext(api.chk, NodePool, items[i..]) && Belongs(api.chk, api.pc)
        invariant listed ==> PoolProgress(st, api.store, items[..i], fates, errs)
        invariant api.DeletesWork() ==> AllWork(fates)
      {
        errs, fates := DeleteNextPool(items, i, errs, st, fates);
        i := i + 1;
      }
      assert items[..i] == items;
    }

    lemma PoolProgressStart(st: Objects)
      ensures PoolProgress(st, st, [], map[], [])
    {
    }

    // Deletes every node pool bearing the label key. One failure does not stop the rest; the errors
    // are that of the list, or those of deletes not answered NotFound.
    method DeleteAllKarpenterNodePools()
        returns (listErr: Option<Error>, errs: seq<GcError>, ghost fates: map<Key, Fault>)
      requires Valid() && Belongs(api.chk, api.pc) && api.pc == GcList(NodePool)
      requires api.Traced()
      modifies api
      ensures api.Traced()
      ensures api.pc == GcList(Claim) && Belongs(api.chk, api.pc) && old(api.calls) < api.calls
      ensures listErr.None? <==> ListServed(old(api.calls))
      ensures listErr.Some? ==> errs == [ListFailed(listErr.value)] && (api.Quiet() ==> api.store == old(api.store))
      ensures api.Quiet() && listErr.None? ==>
                && Pass(api.chk, NodePool, old(api.store), api.store, map[], fates)
                && ErrorKeys(errs) == Failing(fates)
                && (errs == [] <==> Failing(fates) == {})
      ensures api.DeletesWork() ==> AllWork(fates)
    {
      listErr, errs, fates := None, [], map[];
      ghost var st := api.store;
      var reply := api.List(NodePool, "", HasKey(api.chk.labelKey));
      ResumeBelongs(api.chk, GcList(NodePool), reply);
      if reply.Status? {
        listErr := reply.err;
        errs := [ListFailed(listErr.value)];
        return;
      }
      errs, fates := DeletePools(reply.items);
      if api.Quiet() {
        NoErrors(errs);
      }
    }

    // One kind's pass, entered in the ledger. Node pools have a pass of their own.
    method CollectKind(kind: Kind, errs0: seq<GcError>, ghost done: set<Kind>, ghost st: Objects,
                       ghost listed0: set<Kind>, ghost seen0: map<Key, nat>, ghost fates0: map<Key, Fault>)
        returns (errs: seq<GcError>, ghost listed: set<Kind>, ghost seen: map<Key, nat>, ghost fates: map<Key, Fault>)
      requires Valid() && Belongs(api.chk, api.pc) && api.pc == GcList(kind) && kind !in done
      requires api.Traced()
      modifies api
      ensures api.Traced() && old(api.calls) <= api.calls
      ensures api.pc == AfterGc(api.chk, kind) && Belongs(api.chk, api.pc)
      ensures listed == if ListServed(old(api.calls)) then listed0 + {kind} else listed0
      ensures api.Quiet() && Ledger(api.chk, done, st, old(api.store), listed0, seen0, fates0, errs0) ==>
                Ledger(api.chk, done + {kind}, st, api.store, listed, seen, fates, errs)
      ensures api.DeletesWork() && AllWork(fates0) ==> AllWork(fates)
    {
      ghost var mid := api.store;
      var listErr, errs1;
      ghost var seen1: map<Key, nat>, fates1 := map[], map[];
      if kind.NodePool? {
        listErr, errs1, fates1 := DeleteAllKarpenterNodePools();
      } else {
        listErr, errs1, seen1, fates1 := CollectGarbage(api, kind);
      }
      errs := errs0 + errs1;
      listed, seen, fates := listed0, seen0, fates0;
      if listErr.None? {
        listed, seen, fates := listed0 + {kind}, seen0 + seen1, fates0 + fates1;
      }
      if api.Quiet() && Ledger(api.chk, done, st, mid, listed0, seen0, fates0, errs0) {
        if listErr.None? {
          LedgerListed(api.chk, done, kind, st, mid, api.store, listed0, seen0, fates0, errs0, seen1, fates1, errs1);
        } else {
          LedgerUnlisted(api.chk, done, kind, st, mid, listed0, seen0, fates0, errs0, listErr.value);
        }
      }
    }

    // Collects pods, node pools when provisioning, claims and storage classes. A kind that fails
    // does not stop the rest.
    method GarbageCollect()
        returns (errs: seq<GcError>, ghost listed: set<Kind>, ghost seen: map<Key, nat>, ghost fates: map<Key, Fault>)
      requires Valid() && api.pc == Start(api.chk)
      requires api.Traced()
      modifies api
      ensures api.Traced() && old(api.calls) <= api.calls
      ensures api.pc == TakeStamp
      ensures api.Quiet() ==> Ledger(api.chk, Kinds(api.chk), old(api.store), api.store, listed, seen, fates, errs)
      ensures (forall n :: ListServed(n)) ==> listed == Kinds(api.chk)
      ensures api.DeletesWork() ==> AllWork(fates)
    {
      ghost var st, done: set<Kind> := api.store, {};
      errs, listed, seen, fates := [], {}, map[], map[];
      CollectedStart(api.chk, st);
      errs, listed, seen, fates := CollectKind(Pod, errs, done, st, listed, seen, fates);
      done := done + {Pod};
      if api.chk.provisioning {
        errs, listed, seen, fates := CollectKind(NodePool, errs, done, st, listed, seen, fates);
        done := done + {NodePool};
      }
      errs, listed, seen, fates := CollectStorage(errs, done, st, listed, seen, fates);
      assert done + {Claim, StorageClass} == Kinds(api.chk);
    }

    method CollectStorage(errs0: seq<GcError>, ghost done: set<Kind>, ghost st: Objects,
                          ghost listed0: set<Kind>, ghost seen0: map<Key, nat>, ghost fates0: map<Key, Fault>)
        returns (errs: seq<GcError>, ghost listed: set<Kind>, ghost seen: map<Key, nat>, ghost fates: map<Key, Fault>)
      requires Valid() && Belongs(api.chk, api.pc) && api.pc == GcList(Claim) && Claim !in done && StorageClass !in done
      requires api.Traced()
      modifies api
      ensures api.Traced() && old(api.calls) <= api.calls
      ensures api.pc == TakeStamp
      ensures (forall n :: ListServed(n)) ==> listed == listed0 + {Claim, StorageClass}
      ensures api.Quiet() && Ledger(api.chk, done, st, old(api.store), listed0, seen0, fates0, errs0) ==>
                Ledger(api.chk, done + {Claim, StorageClass}, st, api.store, listed, seen, fates, errs)
      ensures api.DeletesWork() && AllWork(fates0) ==> AllWork(fates)
    {
      errs, listed, seen, fates := CollectKind(Claim, errs0, done, st, listed0, seen0, fates0);
      errs, listed, seen, fates := CollectKind(StorageClass, errs, done + {Claim}, st, listed, seen, fates);
      assert done + {Claim} + {StorageClass} == done + {Claim, StorageClass};
    }

    // ---- Limits on storage objects ----

    ghost predicate Below(kind: Kind, limit: int, st: Objects)
    {
      Bounds.Count(st, api.chk, kind) < limit
    }

    method CheckClaims(ts: nat) returns (err: Option<Cause>)
      requires Valid() && api.pc == LimitClaims(ts) && api.chk.csis != []
      requires api.Traced()
      modifies api
      ensures api.Traced() && old(api.calls) <= api.calls
      ensures Belongs(api.chk, api.pc)
      ensures err.None? ==> api.pc == LimitNext(api.chk, ts, 0)
      ensures err.Some? ==> err.value in {LimitList, ClaimLimit} && api.pc == Done(Failed(err.value))
      ensures api.Quiet() ==> api.store == old(api.store)
      ensures api.Quiet() && ListServed(old(api.calls)) ==>
                err == if Below(Claim, api.chk.maxPods * |api.chk.csis|, api.store) then None else Some(ClaimLimit)
      ensures err == Some(LimitList) <==> !ListServed(old(api.calls))
    {
      Bounds.PerCsiIsProduct(api.chk.maxPods, api.chk.csis);
      var limit := api.chk.maxPods * |api.chk.csis|;
      var reply := api.List(Claim, api.chk.ns, OwnSelector(api.chk));
      ResumeBelongs(api.chk, LimitClaims(ts), reply);
      if !reply.Items? {
        return Some(LimitList);
      }
      return if |reply.items| >= limit then Some(ClaimLimit) else None;
    }

    method CheckClasses(ts: nat, i: nat) returns (err: Option<Cause>)
      requires Valid() && i < |api.chk.csis| && api.chk.csis[i].AzureFile? && api.pc == LimitClasses(ts, i)
      requires api.Traced()
      modifies api
      ensures api.Traced() && old(api.calls) <= api.calls
      ensures Belongs(api.chk, api.pc)
      ensures err.None? ==> api.pc == LimitNext(api.chk, ts, i + 1)
      ensures err.Some? ==> err.value in {LimitList, ClassLimit} && api.pc == Done(Failed(err.value))
      ensures api.Quiet() ==> api.store == old(api.store)
      ensures api.Quiet() && ListServed(old(api.calls)) ==>
                err == if Below(StorageClass, api.chk.maxPods, api.store) then None else Some(ClassLimit)
      ensures err == Some(LimitList) <==> !ListServed(old(api.calls))
    {
      var reply := api.List(StorageClass, "", OwnSelector(api.chk));
      ResumeBelongs(api.chk, LimitClasses(ts, i), reply);
      if !reply.Items? {
        return Some(LimitList);
      }
      return if |reply.items| >= api.chk.maxPods then Some(ClassLimit) else None;
    }

    // Passes exactly when there is room for claims and, if Azure File is enabled, storage classes.
    method CheckCsiResourceLimit(ts: nat) returns (err: Option<Cause>)
      requires Valid()
      requires api.pc == if api.chk.csis == [] then CsiNext(api.chk, ts, 0) else LimitClaims(ts)
      requires api.Traced()
      modifies api
      ensures api.Traced() && old(api.calls) <= api.calls
      ensures err.None? ==> api.pc == CsiNext(api.chk, ts, 0) && Belongs(api.chk, api.pc)
      ensures err.Some? ==> err.value in {LimitList, ClaimLimit, ClassLimit} && api.pc == Done(Failed(err.value))
      ensures api.Quiet() ==> api.store == old(api.store)
      ensures api.Quiet() && (forall n :: ListServed(n)) ==>
                (err.None? <==> api.chk.csis == [] ||
                                (&& Below(Claim, api.chk.maxPods * |api.chk.csis|, api.store)
                                 && (AzureFile in api.chk.csis ==> Below(StorageClass, api.chk.maxPods, api.store))))
      ensures (forall n :: ListServed(n)) ==> err != Some(LimitList)
      ensures api.Quiet() && (forall n :: ListServed(n)) ==>
                (err == Some(ClaimLimit) <==>
                   api.chk.csis != [] && !Below(Claim, api.chk.maxPods * |api.chk.csis|, api.store))
    {
      var csis := api.chk.csis;
      if csis == [] {
        return None;
      }
      err := CheckClaims(ts);
      if err.Some? {
        return;
      }
      for i := 0 to |csis|
        invariant old(api.calls) <= api.calls
        invariant api.Traced() && Belongs(api.chk, api.pc) && api.pc == LimitNext(api.chk, ts, i)
        invariant api.Quiet() ==> api.store == old(api.store)
        invariant api.Quiet() && (forall n :: ListServed(n)) ==>
                    AzureFile in csis[..i] ==> Below(StorageClass, api.chk.maxPods, api.store)
      {
        if csis[i] == AzureFile {
          err := CheckClasses(ts, i);
          if err.Some? {
            return;
          }
        }
      }
      assert csis[..|csis|] == csis;
      return None;
    }

    // ---- The synthetic pod ----

    // Volume and mount of one CSI type; unknown types have neither.
    method AddVolume(t: CsiType, ts: nat, volumes: seq<Volume>, mounts: seq<Mount>)
        returns (volumes': seq<Volume>, mounts': seq<Mount>)
      ensures volumes' == volumes + if t.OtherCsi? then [] else [Volume(t, ClaimName(t, ts))]
      ensures mounts' == mounts + if t.OtherCsi? then [] else [Mount(t)]
    {
      volumes', mounts' := volumes, mounts;
      match t {
        case AzureFile =>
          volumes', mounts' := volumes + [Volume(AzureFile, ClaimName(AzureFile, ts))], mounts + [Mount(AzureFile)];
        case AzureDisk =>
          volumes', mounts' := volumes + [Volume(AzureDisk, ClaimName(AzureDisk, ts))], mounts + [Mount(AzureDisk)];
        case AzureBlob =>
          volumes', mounts' := volumes + [Volume(AzureBlob, ClaimName(AzureBlob, ts))], mounts + [Mount(AzureBlob)];
        case OtherCsi(_) =>
      }
    }

    // The pod mounts the claim of every known type listed. With node provisioning it is bound to the nodes
    // of the run's own pool.
    method GenerateSyntheticPod(ts: nat) returns (pod: Spec)
      requires Valid()
      ensures pod == SyntheticPod(api.chk, ts)
      ensures pod.PodSpec? && Equips(api.chk.csis, ts, pod.volumes, pod.mounts)
      ensures pod.nodeSelector == if api.chk.provisioning then Want(api.chk, CreatePool(ts)).labels else map[]
      ensures api.chk.provisioning ==> api.chk.labelKey in pod.nodeSelector
    {
      var csis := api.chk.csis;
      var volumes, mounts := [], [];
      for i := 0 to |csis|
        invariant volumes == VolumesOf(csis[..i], ts) && mounts == MountsOf(csis[..i])
      {
        VolumesSnoc(csis[..i], csis[i], ts);
        assert csis[..i + 1] == csis[..i] + [csis[i]];
        volumes, mounts := AddVolume(csis[i], ts, volumes, mounts);
      }
      assert csis[..|csis|] == csis;
      PodEquipped(csis, ts);
      pod := PodSpec(volumes, mounts, if api.chk.provisioning then map[api.chk.labelKey := Dec(ts)] else map[]);
    }

    // A refused or unanswered creation, undisturbed, leaves nothing.
    method CreateSyntheticPod(ts: nat) returns (err: Option<Error>)
      requires Valid() && api.pc == CreatePod(ts)
      requires api.Traced()
      modifies api
      ensures api.Traced() && api.calls == old(api.calls) + 1
      ensures var fate := api.faults(old(api.calls), Creating);
              && (Refused(fate) ==> err == Some(fate.e))
              && (!Refused(fate) ==> err in {None, Some(AlreadyExists)})
              && (api.Quiet() ==> (err.None? <==> !Refused(fate) && PodKey(api.chk, ts) !in old(api.store)))
      ensures err.None? ==> api.pc == Observe(ts)
      ensures err == Some(DeadlineExceeded) ==> api.pc == Unwind(api.chk, ts, Unhealthy(PodCreationTimeout))
      ensures err.Some? && err.value != DeadlineExceeded ==>
                api.pc == Unwind(api.chk, ts, Unhealthy(PodCreationError))
      ensures Undisturbed() && err.Some? ==> api.store == old(api.store)
      ensures Undisturbed() && err.None? ==>
                && PodKey(api.chk, ts) !in old(api.store)
                && api.store - {PodKey(api.chk, ts)} == old(api.store)
      ensures api.Quiet() && err.None? ==> PodKey(api.chk, ts) in api.store
    {
      var pod := GenerateSyntheticPod(ts);
      err := api.Create(PodKey(api.chk, ts), Labels(api.chk), pod);
    }

    // What call n, a deletion, takes away.
    ghost function Taken(n: nat, k: Key): set<Key>
    {
      if Effective(api.faults(n, Deleting)) then {k} else {}
    }

    // The deferred deletion of the pod and then its node pool, whatever becomes of the first.
    method DeleteSyntheticPod(ts: nat, v: Verdict)
      requires Valid() && api.pc == DeletePod(ts, v)
      requires api.Traced()
      modifies api
      ensures api.Traced() && api.calls == old(api.calls) + if api.chk.provisioning then 2 else 1
      ensures api.pc == Unwind(api.chk, ts, v)
      ensures api.Quiet() ==>
                api.store == old(api.store) - Taken(old(api.calls), PodKey(api.chk, ts))
                             - if api.chk.provisioning then Taken(old(api.calls) + 1, PoolKey(api.chk, ts)) else {}
      ensures Undisturbed() ==>
                api.store == old(api.store) - {PodKey(api.chk, ts)}
                             - if api.chk.provisioning then {PoolKey(api.chk, ts)} else {}
    {
      var _ := api.Delete(PodKey(api.chk, ts));
      if api.chk.provisioning {
        var _ := api.Delete(PoolKey(api.chk, ts));
      }
    }

    // Measures the pod that was created.
    method Assess(ts: nat, o: Observation) returns (v: Verdict)
      requires Valid() && api.pc == Observe(ts)
      requires api.Traced()
      modifies api
      ensures api.Traced() && api.calls == old(api.calls) + 1
      ensures api.pc == DeletePod(ts, v) && Judged(o, api.chk.startupTimeout, v)
      ensures v == Healthy ==> Compared(o).Some? && Compared(o).value < api.chk.startupTimeout && Reachable(o)
      ensures api.Quiet() ==> api.store == old(api.store)
    {
      v := Judge(o, api.chk.startupTimeout);
      api.Measured(v);
    }

    // Measures the pod and deletes it, and then its node pool.
    method MeasurePod(ts: nat, o: Observation) returns (v: Verdict)
      requires Valid() && api.pc == Observe(ts)
      requires api.Traced()
      modifies api
      ensures api.Traced() && api.calls == old(api.calls) + if api.chk.provisioning then 3 else 2
      ensures api.pc == Unwind(api.chk, ts, v) && Judged(o, api.chk.startupTimeout, v)
      ensures v == Healthy ==> Compared(o).Some? && Compared(o).value < api.chk.startupTimeout && Reachable(o)
      ensures api.Quiet() ==>
                api.store == old(api.store) - Taken(old(api.calls) + 1, PodKey(api.chk, ts))
                             - if api.chk.provisioning then Taken(old(api.calls) + 2, PoolKey(api.chk, ts)) else {}
    {
      v := Assess(ts, o);
      DeleteSyntheticPod(ts, v);
    }

    // From pod creation to the end of its own deferred deletions.
    method RunPod(ts: nat, o: Observation) returns (v: Verdict)
      requires Valid() && api.pc == CreatePod(ts)
      requires api.Traced()
      modifies api
      ensures api.Traced()
      ensures api.pc == Unwind(api.chk, ts, v)
      ensures Measurable(v) || v in {Unhealthy(PodCreationError), Unhealthy(PodCreationTimeout)}
      ensures Measurable(v) ==> Judged(o, api.chk.startupTimeout, v)
      ensures var fate := api.faults(old(api.calls), Creating);
              && (v == Unhealthy(PodCreationTimeout) <==> Refused(fate) && fate.e == DeadlineExceeded)
              && (Refused(fate) && fate.e != DeadlineExceeded ==> v == Unhealthy(PodCreationError))
              && (api.Quiet() ==> (Measurable(v) <==> !Refused(fate) && PodKey(api.chk, ts) !in old(api.store)))
      ensures api.calls == old(api.calls)
                           + if !Measurable(v) then 1 else if api.chk.provisioning then 4 else 3
      ensures api.Quiet() && Measurable(v) ==>
                && (PodKey(api.chk, ts) in api.store <==> !Effective(api.faults(old(api.calls) + 2, Deleting)))
                && (api.chk.provisioning ==>
                      Taken(old(api.calls) + 3, PoolKey(api.chk, ts)) !! api.store.Keys)
      ensures v == Healthy ==> Compared(o).Some? && Compared(o).value < api.chk.startupTimeout && Reachable(o)
      ensures Undisturbed() ==>
                api.store == if Measurable(v) && api.chk.provisioning then old(api.store) - {PoolKey(api.chk, ts)}
                    else old(api.store)
    {
      ghost var st := api.store;
      var err := CreateSyntheticPod(ts);
      if err.Some? {
        return Unhealthy(if err.value.DeadlineExceeded? then PodCreationTimeout else PodCreationError);
      }
      v := MeasurePod(ts, o);
    }

    method ListSyntheticPods(ts: nat) returns (v: Option<Verdict>)
      requires Valid() && api.pc == ListPods(ts)
      requires api.Traced()
      modifies api
      ensures api.Traced() && old(api.calls) <= api.calls
      ensures v.None? ==> api.pc == if api.chk.provisioning then CheckCrd(ts) else CreatePod(ts)
      ensures v == Some(Failed(PodList)) <==> !ListServed(old(api.calls))
      ensures v.Some? ==> v.value in {Failed(PodList), Failed(PodLimit)} && api.pc == Unwind(api.chk, ts, v.value)
      ensures api.Quiet() ==> api.store == old(api.store)
      ensures api.Quiet() && ListServed(old(api.calls)) ==>
                v == if Below(Pod, api.chk.maxPods, api.store) then None else Some(Failed(PodLimit))
    {
      var reply := api.List(Pod, api.chk.ns, OwnSelector(api.chk));
      if !reply.Items? {
        return Some(Failed(PodList));
      }
      return if |reply.items| >= api.chk.maxPods then Some(Failed(PodLimit)) else None;
    }

    method ProbeCrd(ts: nat) returns (v: Option<Verdict>)
      requires Valid() && api.pc == CheckCrd(ts)
      requires api.Traced()
      modifies api
      ensures api.Traced() && api.calls == old(api.calls) + 1
      ensures v.None? ==> api.pc == CreatePool(ts)
      ensures v.Some? ==> v.value in {Skipped, Failed(CrdCheck)} && api.pc == Unwind(api.chk, ts, v.value)
      ensures api.Quiet() ==> api.store == old(api.store)
      ensures var probe := api.faults(old(api.calls), Reading);
              && (v == Some(Skipped) <==> Refused(probe) && probe.e == NotFound)
              && (v == Some(Failed(CrdCheck)) <==> Refused(probe) && probe.e != NotFound)
    {
      var missing := api.Probe();
      return match missing
        case None => None
        case Some(e) => Some(if e == NotFound then Skipped else Failed(CrdCheck));
    }

    // Checks for the CRD and creates the run's node pool.
    method ProvisionNode(ts: nat) returns (v: Option<Verdict>)
      requires Valid() && api.pc == CheckCrd(ts)
      requires api.Traced()
      modifies api
      ensures api.Traced() && old(api.calls) <= api.calls
      ensures v.None? ==> api.pc == CreatePod(ts)
      ensures v.Some? ==>
                && v.value in {Skipped, Failed(CrdCheck), Failed(PoolCreateFailed)}
                && api.pc == Unwind(api.chk, ts, v.value)
      ensures Undisturbed() && v.Some? ==> api.store == old(api.store)
      ensures Undisturbed() && v.None? ==> PoolLeft(api.chk, ts, old(api.store), api.store)
      ensures !Refused(api.faults(old(api.calls), Reading)) ==>
                && (Refused(api.faults(old(api.calls) + 1, Creating)) ==> v == Some(Failed(PoolCreateFailed)))
                && (api.Quiet() ==>
                      (v.None? <==> && !Refused(api.faults(old(api.calls) + 1, Creating))
                                    && PoolKey(api.chk, ts) !in old(api.store)))
      ensures var probe := api.faults(old(api.calls), Reading);
              && (v == Some(Skipped) <==> Refused(probe) && probe.e == NotFound)
              && (v == Some(Failed(CrdCheck)) <==> Refused(probe) && probe.e != NotFound)
    {
      v := ProbeCrd(ts);
      if v.Some? {
        return;
      }
      var err := api.Create(PoolKey(api.chk, ts), PoolLabels(api.chk, ts), NoSpec);
      return if err.Some? then Some(Failed(PoolCreateFailed)) else None;
    }

    // Provisions a node pool and runs the pod on it.
    method RunOnNode(ts: nat, o: Observation) returns (v: Verdict)
      requires Valid() && api.chk.provisioning && api.pc == CheckCrd(ts)
      requires api.Traced()
      modifies api
      ensures api.Traced() && old(api.calls) <= api.calls
      ensures api.pc == Unwind(api.chk, ts, v)
      ensures v !in {Failed(CsiCreateFailed), Failed(CsiUnsupported)}
      ensures Measurable(v) ==> Judged(o, api.chk.startupTimeout, v)
      ensures v == Healthy ==> Compared(o).Some? && Compared(o).value < api.chk.startupTimeout && Reachable(o)
      ensures Undisturbed() ==> Leaves(api.chk, ts, 0, v, old(api.store), api.store)
    {
      var stop := ProvisionNode(ts);
      if stop.Some? {
        return stop.value;
      }
      v := RunPod(ts, o);
    }

    // Everything between creating the storage objects and deleting them.
    method CheckWithResources(ts: nat, o: Observation) returns (v: Verdict)
      requires Valid() && api.pc == ListPods(ts)
      requires api.Traced()
      modifies api
      ensures api.Traced() && old(api.calls) <= api.calls
      ensures api.pc == Unwind(api.chk, ts, v)
      ensures v !in {Failed(CsiCreateFailed), Failed(CsiUnsupported)}
      ensures Measurable(v) ==> Judged(o, api.chk.startupTimeout, v)
      ensures v == Healthy ==> Compared(o).Some? && Compared(o).value < api.chk.startupTimeout && Reachable(o)
      ensures Undisturbed() ==> Leaves(api.chk, ts, 0, v, old(api.store), api.store)
    {
      var stop := ListSyntheticPods(ts);
      if stop.Some? {
        return stop.value;
      }
      if api.chk.provisioning {
        v := RunOnNode(ts, o);
      } else {
        v := RunPod(ts, o);
      }
    }

    // The run's last call, a creation at entry `at`, failed, after `made` others that did not.
    ghost predicate GaveUp(ts: nat, made: nat, at: nat)
      requires Valid()
      reads api
    {
      && made < |Plan(api.chk, ts)| && StopsIn(api.chk, ts, at, made)
      && made < api.calls && storage.CreateRefused(api.calls - 1, Plan(api.chk, ts)[made].key)
      && storage.AllCreated(api.calls - 1 - made, api.calls - 1)
    }

    // The run once there is room for its storage objects: these are deleted however the rest ends.
    method CheckWithStorage(ts: nat, o: Observation) returns (v: Verdict, ghost made: nat, ghost at: nat)
      requires Valid() && api.pc == CsiNext(api.chk, ts, 0) && Belongs(api.chk, api.pc)
      requires api.Traced()
      modifies api
      ensures api.Traced()
      ensures api.pc == Done(v)
      ensures Measurable(v) ==> Judged(o, api.chk.startupTimeout, v)
      ensures v == Healthy ==> Compared(o).Some? && Compared(o).value < api.chk.startupTimeout && Reachable(o)
      ensures old(api.calls) <= api.calls && (v == Failed(CsiCreateFailed) ==> GaveUp(ts, made, at))
      ensures Undisturbed() ==> Leaves(api.chk, ts, made, v, old(api.store), api.store)
    {
      var stop;
      stop, made, at := storage.CreateCsiResources(ts);
      assert Plan(api.chk, ts)[..|Plan(api.chk, ts)|] == Plan(api.chk, ts);
      if stop.Some? {
        return Failed(stop.value), made, at;
      }
      ghost var with := api.store;
      v := CheckWithResources(ts, o);
      ghost var after := api.store;
      var _, gone, _ := storage.DeleteCsiResources(ts, v);
      if Undisturbed() {
        LeavesWithoutStorage(api.chk, ts, made, v, old(api.store), with, after);
      }
    }

    method TimeStamp() returns (t: nat)
      requires Valid() && api.pc == TakeStamp
      requires api.Traced()
      modifies api
      ensures api.Traced()
      ensures t == api.clock(old(api.calls)) && api.calls == old(api.calls) + 1
      ensures api.pc == if api.chk.csis == [] then CsiNext(api.chk, t, 0) else LimitClaims(t)
      ensures api.Quiet() ==> api.store == old(api.store)
    {
      t := api.Now();
    }

    // The run after garbage collection.
    method CheckCollected(o: Observation) returns (v: Verdict, ghost ts: nat, ghost made: nat, ghost at: nat)
      requires Valid() && api.pc == TakeStamp
      requires api.Traced()
      modifies api
      ensures api.Traced() && old(api.calls) < api.calls
      ensures api.pc == Done(v)
      ensures Measurable(v) ==> Judged(o, api.chk.startupTimeout, v)
      ensures v == Healthy ==> Compared(o).Some? && Compared(o).value < api.chk.startupTimeout && Reachable(o)
      ensures ts == api.clock(old(api.calls))
      ensures v == Failed(CsiCreateFailed) ==> GaveUp(ts, made, at)
      ensures Undisturbed() ==> Leaves(api.chk, ts, made, v, old(api.store), api.store)
    {
      made, at := 0, 0;
      var t := TimeStamp();
      ts := t;
      var stop := CheckCsiResourceLimit(t);
      if stop.Some? {
        v := Failed(stop.value);
        return;
      }
      v, made, at := CheckWithStorage(t, o);
    }

    lemma DecidedVerdict(v: Verdict)
      requires Valid() && api.Traced() && api.pc == Done(v)
      ensures forall w | w != Failed(CsiUnsupported) :: v == w <==> Verdicts.IsDecided(api.chk, api.trace, w)
      ensures v == Failed(CsiUnsupported) ==> !Supported(api.chk.csis)
    {
      Verdicts.VerdictDecided(api.chk, api.gran, api.trace, v, v);
      forall w ensures w != Failed(CsiUnsupported) ==> (v == w <==> Verdicts.IsDecided(api.chk, api.trace, w)) {
        Verdicts.VerdictDecided(api.chk, api.gran, api.trace, v, w);
      }
    }

    // One run: its verdict is that of the answer that decides, and a measured one what was observed comes to.
    // `collected` is the store after garbage collection, `ts` what the clock read in call `taken`.
    // Undisturbed, every exit leaves exactly that store, but for two: a failed creation of storage objects
    // leaves those made before it, of the entries before entry `at` and perhaps its class, and a failed
    // pod creation leaves the run's node pool.
    method Check(o: Observation)
        returns (v: Verdict, ghost taken: nat, ghost ts: nat, ghost made: nat, ghost at: nat, ghost collected: Objects,
                 ghost listed: set<Kind>, ghost seen: map<Key, nat>, ghost fates: map<Key, Fault>)
      requires Valid() && api.pc == Start(api.chk)
      requires api.Traced()
      modifies api
      ensures api.Traced()
      ensures api.pc == Done(v)
      ensures forall w | w != Failed(CsiUnsupported) :: v == w <==> Verdicts.IsDecided(api.chk, api.trace, w)
      ensures v == Failed(CsiUnsupported) ==> !Supported(api.chk.csis)
      ensures Measurable(v) ==> Judged(o, api.chk.startupTimeout, v)
      ensures v == Healthy ==> Compared(o).Some? && Compared(o).value < api.chk.startupTimeout && Reachable(o)
      ensures (forall n :: ListServed(n)) ==> listed == Kinds(api.chk)
      ensures api.Quiet() ==> Collected(api.chk, listed, old(api.store), collected, seen, fates)
      ensures api.DeletesWork() ==> AllWork(fates)
      ensures old(api.calls) <= taken < api.calls && ts == api.clock(taken)
      ensures v == Failed(CsiCreateFailed) ==> GaveUp(ts, made, at)
      ensures Undisturbed() ==> Leaves(api.chk, ts, made, v, collected, api.store)
    {
      var errs;
      errs, listed, seen, fates := GarbageCollect();
      collected, taken := api.store, api.calls;
      v, ts, made, at := CheckCollected(o);
      DecidedVerdict(v);
    }
  }
}
