// In a checker's fault-free runs no synthetic pod ever refers to a missing claim, and no Azure File
// claim is created without its storage class.
module References {
  import opened Names
  import opened Cluster
  import opened Protocol
  import opened System
  import opened Ownership
  import opened SyntheticPods

  // Checker i's calls all work and nothing else interferes; the other checkers may fail at will.
  predicate FaultFree(e: Event, i: nat)
  {
    match e
    case Call(j, _, _, _, fault, _) => j == i ==> fault.Works?
    case Begin(_, _) => true
    case _ => false
  }

  // ---- Plan, volumes and mounts ----

  lemma {:induction false} ClassComesFirst(c: Checker, csis: seq<CsiType>, ts: nat, j: nat)
    requires j < |PlanOf(c, csis, ts)| && PlanOf(c, csis, ts)[j].key.kind.Claim?
    requires var name := PlanOf(c, csis, ts)[j].key.name; name.ClaimName? && name.csi.AzureFile?
    ensures PlanOf(c, csis, ts)[j] == Planned(ClaimKey(c, AzureFile, ts), ClaimSpec(Custom(ClassName(ts))))
    ensures j > 0 && PlanOf(c, csis, ts)[j - 1].key == ClassKey(ts)
  {
    var n := |Entry(c, csis[0], ts)|;
    if j >= n {
      ClassComesFirst(c, csis[1..], ts, j - n);
    }
  }

  // ---- What of the run's CSI objects must be there ----

  // How much of the plan is in place.
  function InPlace(c: Checker, pc: Pc): nat
  {
    match pc
    case CsiCreate(_, j) => j
    case _ => if PastCreation(pc) then |Plan(c, pc.ts)| else 0
  }

  predicate PastCreation(pc: Pc)
  {
    pc.ListPods? || pc.CheckCrd? || pc.CreatePool? || pc.CreatePod? || pc.Observe? || pc.DeletePod?
  }

  ghost predicate PlanInPlace(c: Checker, st: Objects, pc: Pc)
  {
    RunStamp(pc).Some? ==>
      var plan := Plan(c, RunStamp(pc).value);
      forall n | 0 <= n < InPlace(c, pc) && n < |plan| :: plan[n].key in st
  }

  ghost predicate PodsPlaced(env: Env, w: World, i: nat)
    requires i < |env.chks| == |w.locals| && env.chks[i].PodStartup? && SignedStore(env, w.births, w.store)
  {
    forall k
      | k in w.store && k.kind.Pod? && Concerns(env, k, w.store[k].labels) && w.births[Stamp(k).value].owner == i ::
      && (w.locals[i].pc.Observe? || w.locals[i].pc.DeletePod?)
      && k == PodKey(env.chks[i], w.locals[i].pc.ts)
      && w.store[k].spec == SyntheticPod(env.chks[i], w.locals[i].pc.ts)
  }

  ghost predicate RefInv(env: Env, w: World, i: nat)
    requires i < |env.chks|
  {
    && env.chks[i].PodStartup?
    && Inv(env, w)
    && PlanInPlace(env.chks[i], w.store, w.locals[i].pc)
    && (PastCreation(w.locals[i].pc) ==> Supported(env.chks[i].csis))
    && PodsPlaced(env, w, i)
  }

  lemma {:induction false} LimitNextInPlace(c: Checker, ts: nat, i: nat)
    requires c.PodStartup?
    ensures var pc := LimitNext(c, ts, i);
            && (RunStamp(pc).Some? ==> RunStamp(pc).value == ts) && InPlace(c, pc) == 0
            && (PastCreation(pc) ==> Supported(c.csis))
            && !pc.Observe? && !pc.DeletePod?
    decreases |c.csis| - i
  {
    if i < |c.csis| && !c.csis[i].AzureFile? {
      LimitNextInPlace(c, ts, i + 1);
    }
  }

  // ---- Steps ----

  lemma OthersKeep(env: Env, w: World, e: Event, w': World, i: nat)
    requires DistinctNames(env.chks) && i < |env.chks| && RefInv(env, w, i)
    requires e.Call? && Next(env, w, e, w') && e.i != i
    ensures RefInv(env, w', i)
  {
    InvNext(env, w, e, w');
    var c, pc := env.chks[i], w.locals[i].pc;
    var other := env.chks[e.i];
    var req := Want(other, w.locals[e.i].pc);
    ServesFrame(env.gran, w.store, req, e.at, e.stamp, e.fault, e.reply, w'.store);
    OwnKeys(other, w.locals[e.i].pc);
    if RunStamp(pc).Some? {
      var plan := Plan(c, RunStamp(pc).value);
      forall n | 0 <= n < InPlace(c, pc) && n < |plan| ensures plan[n].key in w'.store {
        var k := plan[n].key;
        if k !in w'.store {
          PlanStamps(c, c.csis, RunStamp(pc).value, n);
          PlanKinds(c, c.csis, RunStamp(pc).value, n);
          ForeignDelete(env, w, e, w', k);
        }
      }
    }
  }

  // What one checker deletes is its own.
  lemma ForeignDelete(env: Env, w: World, e: Event, w': World, k: Key)
    requires DistinctNames(env.chks) && Inv(env, w) && Deletes(env, w, e, w', k) && !k.kind.NodePool?
    ensures Stamp(k).Some? && Stamp(k).value in w.births && w.births[Stamp(k).value].owner == e.i
  {
    DeletedSigned(env, w, e, w', k);
    var o := w.births[Stamp(k).value].owner;
    assert Labels(env.chks[o])[env.chks[o].labelKey] == env.chks[o].name;
    assert env.chks[o].labelKey in Labels(env.chks[e.i]);
  }

  // How a run's plan progresses: by one entry at most, and only when the entry was created.
  lemma PlanFlow(c: Checker, pc: Pc, r: Reply)
    requires c.PodStartup? && Belongs(c, pc) && (PastCreation(pc) ==> Supported(c.csis))
    requires pc.TakeStamp? ==> r.Time?
    ensures var pc' := Resume(c, pc, r);
            && (PastCreation(pc') ==> Supported(c.csis))
            && (InPlace(c, pc') > 0 ==>
                  && RunStamp(pc').Some? && RunStamp(pc') == RunStamp(pc)
                  && (InPlace(c, pc') <= InPlace(c, pc)
                      || (pc.CsiCreate? && r == Status(None) && InPlace(c, pc') <= pc.j + 1)))
  {
    match pc {
      case LimitClaims(ts) => LimitNextInPlace(c, ts, 0);
      case LimitClasses(ts, i) => LimitNextInPlace(c, ts, i + 1);
      case TakeStamp => assert c.csis == [] ==> Plan(c, r.t) == [];
      case _ =>
    }
  }

  lemma OwnPlanKept(c: Checker, gran: nat, s: Step)
    requires c.PodStartup? && CallStep(c, gran, s) && s.fault.Works?
    requires PlanInPlace(c, s.st, s.before) && (PastCreation(s.before) ==> Supported(c.csis))
    ensures PlanInPlace(c, s.st', s.after) && (PastCreation(s.after) ==> Supported(c.csis))
  {
    ServesFrame(gran, s.st, Want(c, s.before), s.at, s.stamp, s.fault, s.reply, s.st');
    PlanFlow(c, s.before, s.reply);
    if Want(c, s.before).Delete? && InPlace(c, s.before) > 0 {
      OwnDeletesSparePlan(c, s.before);
    }
    if InPlace(c, s.after) > 0 && RunStamp(s.after).Some? {
      var plan := Plan(c, RunStamp(s.after).value);
      forall n | 0 <= n < InPlace(c, s.after) && n < |plan| ensures plan[n].key in s.st' {
        if n < InPlace(c, s.before) {
          assert plan[n].key in s.st;
          PlanKinds(c, c.csis, RunStamp(s.before).value, n);
        }
      }
    }
  }

  // While the plan is in place the run itself deletes only its pod.
  lemma OwnDeletesSparePlan(c: Checker, pc: Pc)
    requires Belongs(c, pc) && Want(c, pc).Delete? && InPlace(c, pc) > 0
    ensures Want(c, pc).key.kind.Pod?
  {
  }

  lemma OwnPodsPlaced(env: Env, w: World, e: Event, w': World)
    requires e.Call? && Next(env, w, e, w') && e.fault.Works? && RefInv(env, w, e.i) && Inv(env, w')
    ensures PodsPlaced(env, w', e.i)
  {
    OwnPodStep(env.chks[e.i], env.gran, StepBy(w, e, w'));
  }

  // A call that works makes no pod but the run's, and removes that one before moving on from it.
  lemma OwnPodStep(c: Checker, gran: nat, s: Step)
    requires c.PodStartup? && CallStep(c, gran, s) && s.fault.Works?
    ensures forall k | k in s.st' && k.kind.Pod? ::
              || (k in s.st && s.st'[k] == s.st[k])
              || (s.before.CreatePod? && k == PodKey(c, s.before.ts) && s.st'[k].spec == SyntheticPod(c, s.before.ts)
                  && s.after == Observe(s.before.ts))
    ensures s.before.DeletePod? ==> PodKey(c, s.before.ts) !in s.st'
    ensures s.before.Observe? ==> s.after.DeletePod? && s.after.ts == s.before.ts
  {
    ServesFrame(gran, s.st, Want(c, s.before), s.at, s.stamp, s.fault, s.reply, s.st');
    if s.before.CsiCreate? {
      PlanKinds(c, c.csis, s.before.ts, s.before.j);
    }
  }

  lemma RefNext(env: Env, w: World, e: Event, w': World, i: nat)
    requires DistinctNames(env.chks) && i < |env.chks| && RefInv(env, w, i)
    requires Next(env, w, e, w') && FaultFree(e, i)
    ensures RefInv(env, w', i)
  {
    InvNext(env, w, e, w');
    if e.Call? {
      if e.i == i {
        var c, pc, pc' := env.chks[i], w.locals[i].pc, w'.locals[i].pc;
        OwnPlanKept(env.chks[i], env.gran, StepBy(w, e, w'));
        OwnPodsPlaced(env, w, e, w');
      } else {
        OthersKeep(env, w, e, w', i);
      }
    }
  }

  lemma {:induction false} RefHolds(env: Env, ws: seq<World>, es: seq<Event>, n: nat, i: nat)
    requires DistinctNames(env.chks) && i < |env.chks| && env.chks[i].PodStartup?
    requires Behaviour(env, ws, es) && n < |ws|
    requires forall m | 0 <= m < |es| :: FaultFree(es[m], i)
    requires SignedStore(env, ws[0].births, ws[0].store)
    requires forall x | x in ws[0].store && x.kind.Pod? :: !Selects(OwnSelector(env.chks[i]), ws[0].store[x].labels)
    ensures RefInv(env, ws[n], i)
  {
    if n > 0 {
      RefHolds(env, ws, es, n - 1, i);
      RefNext(env, ws[n - 1], es[n - 1], ws[n], i);
    }
  }

  // ---- Theorems ----

  // The claim of every CSI type listed exists, and the pod has a volume on it and a mount of that, and no
  // other volumes or mounts.
  ghost predicate Intact(c: Checker, st: Objects, k: Key)
    requires c.PodStartup? && k in st
  {
    && st[k].spec.PodSpec? && Stamp(k).Some?
    && (forall t | t in c.csis :: ClaimKey(c, t, Stamp(k).value) in st && !t.OtherCsi?)
    && Equips(c.csis, Stamp(k).value, st[k].spec.volumes, st[k].spec.mounts)
    && (c.provisioning ==> st[k].spec.nodeSelector == Want(c, CreatePool(Stamp(k).value)).labels)
  }

  lemma PodIntact(c: Checker, st: Objects, pc: Pc)
    requires c.PodStartup? && PastCreation(pc) && PlanInPlace(c, st, pc) && Supported(c.csis)
    requires PodKey(c, pc.ts) in st && st[PodKey(c, pc.ts)].spec == SyntheticPod(c, pc.ts)
    ensures Intact(c, st, PodKey(c, pc.ts))
  {
    PodEquipped(c.csis, pc.ts);
    PodFitsPool(c, pc.ts);
    ClaimsInPlace(c, st, pc);
  }

  lemma ClaimsInPlace(c: Checker, st: Objects, pc: Pc)
    requires c.PodStartup? && PastCreation(pc) && PlanInPlace(c, st, pc) && Supported(c.csis)
    ensures forall t | t in c.csis :: ClaimKey(c, t, pc.ts) in st
  {
    assert RunStamp(pc) == Some(pc.ts);
    forall t | t in c.csis ensures ClaimKey(c, t, pc.ts) in st {
      var j := ClaimPlanned(c, c.csis, pc.ts, t);
      assert Plan(c, pc.ts)[j].key in st;
    }
  }

  // In every state, among other checkers' interleaved and possibly failing calls, every pod of a
  // fault-free checker is intact; so its deferred deletes remove the pod before its claims.
  lemma PodsIntact(env: Env, ws: seq<World>, es: seq<Event>, n: nat, i: nat, k: Key)
    requires DistinctNames(env.chks) && i < |env.chks| && env.chks[i].PodStartup?
    requires Behaviour(env, ws, es) && n < |ws|
    requires forall m | 0 <= m < |es| :: FaultFree(es[m], i)
    requires SignedStore(env, ws[0].births, ws[0].store)
    requires forall x | x in ws[0].store && x.kind.Pod? :: !Selects(OwnSelector(env.chks[i]), ws[0].store[x].labels)
    requires k in ws[n].store && k.kind.Pod? && Selects(OwnSelector(env.chks[i]), ws[n].store[k].labels)
    ensures Intact(env.chks[i], ws[n].store, k)
  {
    RefHolds(env, ws, es, n, i);
    var o := ws[n].births[Stamp(k).value].owner;
    assert Labels(env.chks[o])[env.chks[o].labelKey] == env.chks[o].name;
    assert env.chks[o].labelKey in Labels(env.chks[i]);
    PodIntact(env.chks[i], ws[n].store, ws[n].locals[i].pc);
  }

  // Whenever an Azure File claim is being created, it names the run's own storage class, and that exists.
  lemma ClassBeforeClaim(env: Env, ws: seq<World>, es: seq<Event>, n: nat, i: nat)
    requires DistinctNames(env.chks) && i < |env.chks| && env.chks[i].PodStartup?
    requires Behaviour(env, ws, es) && n < |ws|
    requires forall m | 0 <= m < |es| :: FaultFree(es[m], i)
    requires SignedStore(env, ws[0].births, ws[0].store)
    requires forall x | x in ws[0].store && x.kind.Pod? :: !Selects(OwnSelector(env.chks[i]), ws[0].store[x].labels)
    requires i < |ws[n].locals| && Belongs(env.chks[i], ws[n].locals[i].pc)
    requires var req := Want(env.chks[i], ws[n].locals[i].pc);
             req.Create? && req.key.kind.Claim? && req.key.name.ClaimName? && req.key.name.csi.AzureFile?
    ensures var req := Want(env.chks[i], ws[n].locals[i].pc);
            && req.spec == ClaimSpec(Custom(ClassName(req.key.name.ts)))
            && Key(StorageClass, "", req.spec.storageClass.name) in ws[n].store
  {
    RefHolds(env, ws, es, n, i);
    var c, pc := env.chks[i], ws[n].locals[i].pc;
    ClassComesFirst(c, c.csis, pc.ts, pc.j);
  }
}
