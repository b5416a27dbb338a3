// Whatever the cluster answers: which answer decides a run's verdict, and what a run deletes before it ends.
module Verdicts {
  import opened Results
  import opened Cluster
  import opened Protocol
  import opened Session
  import opened Ownership

  // ---- The deciding answer ----

  predicate Granted(r: Reply)
  {
    r == Status(None)
  }

  predicate TimedOut(r: Reply)
  {
    r == Status(Some(DeadlineExceeded))
  }

  // Answered with any other error.
  predicate Denied(r: Reply)
  {
    !Granted(r) && !TimedOut(r)
  }

  predicate Makes(req: Request, kind: Kind)
  {
    req.Create? && req.key.kind == kind
  }

  // A list of one kind by the checker's own label, made after garbage collection.
  predicate Counts(c: Checker, pc: Pc, kind: Kind)
    requires Belongs(c, pc)
  {
    && pc != Start(c) && Want(c, pc) == List(kind, Scope(c, kind), OwnSelector(c))
    && (c.PodStartup? ==> RunStamp(pc).Some?)
  }

  predicate TooMany(r: Reply, limit: int)
  {
    r.Items? && |r.items| >= limit
  }

  predicate DecidesCode(c: Checker, pc: Pc, r: Reply, code: Code)
    requires Belongs(c, pc)
  {
    var req := Want(c, pc);
    match code
    case PodCreationTimeout => Makes(req, Pod) && TimedOut(r)
    case PodCreationError => Makes(req, Pod) && Denied(r)
    case CreateTimeout => Makes(req, ConfigMap) && TimedOut(r)
    case CreateError => Makes(req, ConfigMap) && Denied(r)
    case GetTimeout => c.ApiServer? && req.Probe? && TimedOut(r)
    case GetError => c.ApiServer? && req.Probe? && Denied(r)
    case DeleteTimeout => pc.DeleteMap? && TimedOut(r)
    case DeleteError => pc.DeleteMap? && Denied(r)
    case _ => req.Measure? && r == Seen(Unhealthy(code))
  }

  predicate DecidesCause(c: Checker, pc: Pc, r: Reply, cause: Cause)
    requires Belongs(c, pc)
  {
    var req := Want(c, pc);
    match cause
    case LimitList => c.PodStartup? && (Counts(c, pc, Claim) || Counts(c, pc, StorageClass)) && !r.Items?
    case ClaimLimit => c.PodStartup? && Counts(c, pc, Claim) && TooMany(r, PerCsi(c.maxPods, c.csis))
    case ClassLimit => c.PodStartup? && Counts(c, pc, StorageClass) && TooMany(r, c.maxPods)
    case CsiCreateFailed => (Makes(req, Claim) || Makes(req, StorageClass)) && !Granted(r)
    case PodList => c.PodStartup? && Counts(c, pc, Pod) && !r.Items?
    case PodLimit => c.PodStartup? && Counts(c, pc, Pod) && TooMany(r, c.maxPods)
    case CrdCheck => c.PodStartup? && req.Probe? && !Granted(r) && r != Status(Some(NotFound))
    case PoolCreateFailed => Makes(req, NodePool) && !Granted(r)
    case MapList => c.ApiServer? && Counts(c, pc, ConfigMap) && !r.Items?
    case MapLimit => c.ApiServer? && Counts(c, pc, ConfigMap) && TooMany(r, c.maxObjects)
    case _ => req.Measure? && r == Seen(Failed(cause))
  }

  // This answer to this call makes the verdict v.
  predicate Decides(c: Checker, pc: Pc, r: Reply, v: Verdict)
    requires Belongs(c, pc)
  {
    match v
    case Healthy => if c.PodStartup? then Want(c, pc).Measure? && r == Seen(v) else pc.DeleteMap? && Granted(r)
    case Skipped => c.PodStartup? && Want(c, pc).Probe? && r == Status(Some(NotFound))
    case Unhealthy(code) => DecidesCode(c, pc, r, code)
    case Failed(cause) => DecidesCause(c, pc, r, cause)
  }

  // The verdict a run is going to end with, once decided.
  function Pending(pc: Pc): Option<Verdict>
  {
    match pc
    case DeletePod(_, v) => Some(v)
    case DeletePool(_, v) => Some(v)
    case CsiDelete(_, _, v) => Some(v)
    case CleanMap(_, v) => Some(v)
    case Done(v) => Some(v)
    case _ => None
  }

  // The answers these calls can get.
  predicate Plausible(c: Checker, pc: Pc, r: Reply)
    requires Belongs(c, pc)
  {
    && (Want(c, pc).Measure? ==> r.Seen? && Measurable(r.v))
    && (Want(c, pc).ReadClock? ==> r.Time?)
  }

  lemma {:induction false} LimitNextPending(c: Checker, ts: nat, i: nat)
    requires c.PodStartup?
    ensures Pending(LimitNext(c, ts, i)) in {None, Some(Failed(CsiUnsupported))}
    ensures Pending(LimitNext(c, ts, i)).Some? ==> !Supported(c.csis)
    decreases |c.csis| - i
  {
    if i < |c.csis| && !c.csis[i].AzureFile? {
      LimitNextPending(c, ts, i + 1);
    }
  }

  predicate Unsupported(c: Checker)
  {
    c.PodStartup? && !Supported(c.csis)
  }

  // Whether v is decided is the same before and after.
  predicate Consistent(c: Checker, pc: Pc, r: Reply, v: Verdict)
    requires Belongs(c, pc)
  {
    && (v != Failed(CsiUnsupported) ==> (Pending(Resume(c, pc, r)) == Some(v) <==> Decides(c, pc, r, v)))
    && (Pending(Resume(c, pc, r)) == Some(Failed(CsiUnsupported)) ==> Unsupported(c))
  }

  lemma ClaimsDecide(c: Checker, ts: nat, r: Reply, v: Verdict)
    requires Belongs(c, LimitClaims(ts))
    ensures Consistent(c, LimitClaims(ts), r, v)
  {
    LimitNextPending(c, ts, 0);
  }

  lemma ClassesDecide(c: Checker, ts: nat, i: nat, r: Reply, v: Verdict)
    requires Belongs(c, LimitClasses(ts, i))
    ensures Consistent(c, LimitClasses(ts, i), r, v)
  {
    LimitNextPending(c, ts, i + 1);
  }

  lemma MapLimitsDecide(c: Checker, pc: Pc, r: Reply, v: Verdict)
    requires Belongs(c, pc) && (pc.LimitMaps? || pc.CreateMap?)
    ensures Consistent(c, pc, r, v)
  {
  }

  lemma MapsDecide(c: Checker, pc: Pc, r: Reply, v: Verdict)
    requires Belongs(c, pc) && (pc.GetMap? || pc.DeleteMap?)
    ensures Consistent(c, pc, r, v)
  {
  }

  lemma StorageNext(c: Checker, ts: nat, j: nat)
    requires c.PodStartup?
    ensures Pending(CsiNext(c, ts, j)) in {None, Some(Failed(CsiUnsupported))}
    ensures Pending(CsiNext(c, ts, j)).Some? ==> Unsupported(c)
  {
  }

  // Creating a storage object decides against the run, if it fails, and nothing else.
  lemma StorageVerdict(c: Checker, ts: nat, j: nat, r: Reply, v: Verdict)
    requires Belongs(c, CsiCreate(ts, j))
    ensures Decides(c, CsiCreate(ts, j), r, v) <==> v == Failed(CsiCreateFailed) && !Granted(r)
  {
    PlanKinds(c, c.csis, ts, j);
  }

  lemma StorageDecides(c: Checker, ts: nat, j: nat, r: Reply, v: Verdict)
    requires Belongs(c, CsiCreate(ts, j))
    ensures Consistent(c, CsiCreate(ts, j), r, v)
  {
    StorageVerdict(c, ts, j, r, v);
    if Granted(r) {
      StorageNext(c, ts, j + 1);
    }
  }

  lemma PodDecides(c: Checker, pc: Pc, r: Reply, v: Verdict)
    requires Belongs(c, pc) && (pc.CreatePool? || pc.CreatePod?)
    ensures Consistent(c, pc, r, v)
  {
  }

  lemma ReadsDecide(c: Checker, pc: Pc, r: Reply, v: Verdict)
    requires Belongs(c, pc) && Plausible(c, pc, r) && (pc.ListPods? || pc.CheckCrd? || pc.Observe?)
    ensures Consistent(c, pc, r, v)
  {
  }

  lemma OthersDecideNothing(c: Checker, pc: Pc, r: Reply, v: Verdict)
    requires Belongs(c, pc) && Plausible(c, pc, r) && (pc.GcList? || pc.GcAge? || pc.GcDelete? || pc.TakeStamp?)
    ensures Consistent(c, pc, r, v)
  {
  }

  // An undecided run is decided by exactly the answer that makes the verdict, or for want of support for a
  // CSI type.
  lemma DecidingStep(c: Checker, gran: nat, s: Step, v: Verdict)
    requires CallStep(c, gran, s) && Pending(s.before).None?
    ensures Consistent(c, s.before, s.reply, v)
  {
    var pc := s.before;
    match pc {
      case LimitClaims(ts) => ClaimsDecide(c, ts, s.reply, v);
      case LimitClasses(ts, i) => ClassesDecide(c, ts, i, s.reply, v);
      case CsiCreate(ts, j) => StorageDecides(c, ts, j, s.reply, v);
      case _ =>
        if pc.LimitMaps? || pc.CreateMap? {
          MapLimitsDecide(c, pc, s.reply, v);
        } else if pc.GetMap? || pc.DeleteMap? {
          MapsDecide(c, pc, s.reply, v);
        } else if pc.CreatePool? || pc.CreatePod? {
          PodDecides(c, pc, s.reply, v);
        } else if pc.ListPods? || pc.CheckCrd? || pc.Observe? {
          ReadsDecide(c, pc, s.reply, v);
        } else {
          OthersDecideNothing(c, pc, s.reply, v);
        }
    }
  }

  // A decided run stays with its verdict, and nothing decides again.
  lemma DecidedStep(c: Checker, gran: nat, s: Step, v: Verdict)
    requires CallStep(c, gran, s) && Pending(s.before).Some?
    ensures Pending(s.after) == Pending(s.before) && !Decides(c, s.before, s.reply, v)
  {
  }

  lemma StepsOf(c: Checker, gran: nat, trace: seq<Step>, from: Pc, to: Pc, n: nat)
    requires Path(c, gran, trace, from, to) && n < |trace|
    ensures CallStep(c, gran, trace[n]) && trace[n].before == PcAt(trace, from, n)
    ensures trace[n].after == PcAt(trace, from, n + 1)
  {
    assert StepAt(c, gran, trace, from, to, n);
  }

  // Call n of the trace decides v.
  predicate DecidedBy(c: Checker, trace: seq<Step>, n: nat, v: Verdict)
  {
    n < |trace| && Belongs(c, trace[n].before) && Decides(c, trace[n].before, trace[n].reply, v)
  }

  // Whether v is decided after n calls, given whether it was after one less.
  lemma DecidedNext(c: Checker, gran: nat, trace: seq<Step>, to: Pc, n: nat, v: Verdict)
    requires Path(c, gran, trace, Start(c), to) && n < |trace|
    ensures v != Failed(CsiUnsupported) && Pending(PcAt(trace, Start(c), n)).None? ==>
              (Pending(PcAt(trace, Start(c), n + 1)) == Some(v) <==> DecidedBy(c, trace, n, v))
    ensures Pending(PcAt(trace, Start(c), n)).None? ==>
              (Pending(PcAt(trace, Start(c), n + 1)) == Some(Failed(CsiUnsupported)) ==> Unsupported(c))
    ensures Pending(PcAt(trace, Start(c), n)).Some? ==>
              && Pending(PcAt(trace, Start(c), n + 1)) == Pending(PcAt(trace, Start(c), n))
              && !DecidedBy(c, trace, n, v)
  {
    StepsOf(c, gran, trace, Start(c), to, n);
    if Pending(trace[n].before).Some? {
      DecidedStep(c, gran, trace[n], v);
    } else {
      DecidingStep(c, gran, trace[n], v);
    }
  }

  // Some call decides v.
  ghost predicate IsDecided(c: Checker, trace: seq<Step>, v: Verdict)
  {
    exists n: nat :: DecidedBy(c, trace, n, v)
  }

  // What is decided after n calls was by one of them.
  lemma {:induction false} DecidedSoFar(c: Checker, gran: nat, trace: seq<Step>, to: Pc, n: nat, v: Verdict)
    requires Path(c, gran, trace, Start(c), to) && n <= |trace|
    ensures v != Failed(CsiUnsupported) ==>
              (Pending(PcAt(trace, Start(c), n)) == Some(v) <==> exists m: nat :: m < n && DecidedBy(c, trace, m, v))
    ensures Pending(PcAt(trace, Start(c), n)) == Some(Failed(CsiUnsupported)) ==> Unsupported(c)
  {
    if n > 0 {
      DecidedSoFar(c, gran, trace, to, n - 1, v);
      DecidedNext(c, gran, trace, to, n - 1, v);
    }
  }

  // A run ends with a verdict exactly when one of its calls was answered so, and otherwise only because a
  // listed CSI type is not supported.
  lemma VerdictDecided(c: Checker, gran: nat, trace: seq<Step>, v: Verdict, w: Verdict)
    requires Path(c, gran, trace, Start(c), Done(v))
    ensures w != Failed(CsiUnsupported) ==> (v == w <==> IsDecided(c, trace, w))
    ensures v == Failed(CsiUnsupported) ==> Unsupported(c)
  {
    assert StepAt(c, gran, trace, Start(c), Done(v), |trace|);
    DecidedSoFar(c, gran, trace, Done(v), |trace|, w);
    DecidedSoFar(c, gran, trace, Done(v), |trace|, v);
  }

  // ---- What a run deletes before it ends ----

  // Call n asks for the deletion of k.
  predicate AsksDelete(c: Checker, trace: seq<Step>, n: nat, k: Key)
  {
    n < |trace| && Belongs(c, trace[n].before) && Want(c, trace[n].before) == Delete(k)
  }

  // Call n asked for the creation of an object of the kind, and was granted it.
  predicate Created(c: Checker, trace: seq<Step>, n: nat, kind: Kind)
  {
    && n < |trace| && Belongs(c, trace[n].before) && Makes(Want(c, trace[n].before), kind) && Granted(trace[n].reply)
  }

  lemma NotDoneYet(c: Checker, gran: nat, trace: seq<Step>, v: Verdict, n: nat)
    requires Path(c, gran, trace, Start(c), Done(v)) && n <= |trace| && !PcAt(trace, Start(c), n).Done?
    ensures n < |trace|
  {
    assert StepAt(c, gran, trace, Start(c), Done(v), |trace|);
  }

  // A run that waits for its pod goes on to delete it, and then its node pool.
  lemma PodTaken(c: Checker, gran: nat, trace: seq<Step>, v: Verdict, n: nat, ts: nat)
    requires Path(c, gran, trace, Start(c), Done(v)) && n <= |trace| && c.PodStartup?
    requires PcAt(trace, Start(c), n) == Observe(ts)
    ensures AsksDelete(c, trace, n + 1, PodKey(c, ts))
    ensures c.provisioning ==> AsksDelete(c, trace, n + 2, PoolKey(c, ts))
  {
    NotDoneYet(c, gran, trace, v, n);
    StepsOf(c, gran, trace, Start(c), Done(v), n);
    NotDoneYet(c, gran, trace, v, n + 1);
    StepsOf(c, gran, trace, Start(c), Done(v), n + 1);
    if c.provisioning {
      NotDoneYet(c, gran, trace, v, n + 2);
      StepsOf(c, gran, trace, Start(c), Done(v), n + 2);
    }
  }

  // Once its pod was created a run asks for its deletion, and with provisioning next for that of its node
  // pool, whatever becomes of the first.
  lemma PodDeletionTried(c: Checker, gran: nat, trace: seq<Step>, v: Verdict, n: nat)
    requires Path(c, gran, trace, Start(c), Done(v)) && Created(c, trace, n, Pod)
    ensures AsksDelete(c, trace, n + 2, Want(c, trace[n].before).key)
    ensures c.PodStartup? && c.provisioning ==>
              exists ts :: Want(c, trace[n].before).key == PodKey(c, ts) && AsksDelete(c, trace, n + 3, PoolKey(c, ts))
  {
    StepsOf(c, gran, trace, Start(c), Done(v), n);
    var pc := trace[n].before;
    if pc.CsiCreate? {
      PlanKinds(c, c.csis, pc.ts, pc.j);
    }
    PodTaken(c, gran, trace, v, n + 1, pc.ts);
  }

  // Once its ConfigMap was created, the last call of a run asks for its deletion.
  lemma {:induction false} MapTaken(c: Checker, gran: nat, trace: seq<Step>, v: Verdict, n: nat, ts: nat)
    requires Path(c, gran, trace, Start(c), Done(v)) && n <= |trace| && c.ApiServer?
    requires var pc := PcAt(trace, Start(c), n); (pc.GetMap? || pc.DeleteMap? || pc.CleanMap?) && pc.ts == ts
    ensures n < |trace| && AsksDelete(c, trace, |trace| - 1, MapKey(c, ts))
    decreases |trace| - n
  {
    NotDoneYet(c, gran, trace, v, n);
    StepsOf(c, gran, trace, Start(c), Done(v), n);
    if trace[n].before.CleanMap? {
      if n + 1 < |trace| {
        StepsOf(c, gran, trace, Start(c), Done(v), n + 1);
      }
    } else {
      MapTaken(c, gran, trace, v, n + 1, ts);
    }
  }

  lemma MapDeletionTried(c: Checker, gran: nat, trace: seq<Step>, v: Verdict, n: nat)
    requires Path(c, gran, trace, Start(c), Done(v)) && Created(c, trace, n, ConfigMap)
    ensures n < |trace| - 1 && AsksDelete(c, trace, |trace| - 1, Want(c, trace[n].before).key)
  {
    StepsOf(c, gran, trace, Start(c), Done(v), n);
    var pc := trace[n].before;
    if pc.CsiCreate? {
      PlanKinds(c, c.csis, pc.ts, pc.j);
    }
    MapTaken(c, gran, trace, v, n + 1, pc.ts);
  }

  predicate Tolerated(r: Reply)
  {
    r.Status? && Tolerable(r.err)
  }

  // Call m + i deletes entry i of the plan.
  predicate TakesEntry(c: Checker, trace: seq<Step>, ts: nat, m: nat, i: nat)
  {
    i < |Plan(c, ts)| && AsksDelete(c, trace, m + i, Plan(c, ts)[i].key)
  }

  // From call m on the run deletes the plan's objects in order, here from entry j on: all of them, or up to
  // the first whose deletion fails with other than NotFound. With that it ends.
  ghost predicate TakesPlan(c: Checker, trace: seq<Step>, ts: nat, m: nat, j: nat)
  {
    && m + j < |trace| <= m + |Plan(c, ts)|
    && (forall i: nat | j <= i < |trace| - m :: TakesEntry(c, trace, ts, m, i))
    && (forall i: nat | m + j <= i < |trace| - 1 :: Tolerated(trace[i].reply))
    && (|trace| < m + |Plan(c, ts)| ==> !Tolerated(trace[|trace| - 1].reply))
  }

  lemma {:induction false} PlanTaken(c: Checker, gran: nat, trace: seq<Step>, v: Verdict, m: nat, j: nat, ts: nat,
                                     w: Verdict)
    requires Path(c, gran, trace, Start(c), Done(v)) && m + j <= |trace|
    requires PcAt(trace, Start(c), m + j) == CsiDelete(ts, j, w)
    ensures TakesPlan(c, trace, ts, m, j)
    decreases |trace| - m - j
  {
    var n := m + j;
    NotDoneYet(c, gran, trace, v, n);
    StepsOf(c, gran, trace, Start(c), Done(v), n);
    assert TakesEntry(c, trace, ts, m, j);
    if trace[n].after.Done? {
      if n + 1 < |trace| {
        StepsOf(c, gran, trace, Start(c), Done(v), n + 1);
      }
    } else {
      PlanTaken(c, gran, trace, v, m, j + 1, ts, w);
    }
  }

  // Program points between the creation of the storage objects and their deferred deletion.
  predicate WithStorage(pc: Pc)
  {
    || pc.ListPods? || pc.CheckCrd? || pc.CreatePool? || pc.CreatePod? || pc.Observe? || pc.DeletePod? || pc.DeletePool?
  }

  lemma {:induction false} StorageTaken(c: Checker, gran: nat, trace: seq<Step>, v: Verdict, n: nat, ts: nat)
      returns (m: nat)
    requires Path(c, gran, trace, Start(c), Done(v)) && n <= |trace| && Plan(c, ts) != []
    requires WithStorage(PcAt(trace, Start(c), n)) && PcAt(trace, Start(c), n).ts == ts
    ensures n < m && TakesPlan(c, trace, ts, m, 0)
    decreases |trace| - n
  {
    NotDoneYet(c, gran, trace, v, n);
    StepsOf(c, gran, trace, Start(c), Done(v), n);
    if trace[n].after.CsiDelete? {
      m := n + 1;
      PlanTaken(c, gran, trace, v, m, 0, ts, trace[n].after.v);
    } else {
      m := StorageTaken(c, gran, trace, v, n + 1, ts);
    }
  }

  // A run that got to list its pods, its storage objects all created, ends by deleting these.
  lemma StorageDeletionTried(c: Checker, gran: nat, trace: seq<Step>, v: Verdict, n: nat) returns (m: nat)
    requires Path(c, gran, trace, Start(c), Done(v)) && n < |trace| && c.PodStartup? && c.csis != []
    requires Belongs(c, trace[n].before) && Counts(c, trace[n].before, Pod)
    ensures RunStamp(trace[n].before).Some? && n < m
    ensures Plan(c, RunStamp(trace[n].before).value) != [] ==>
              TakesPlan(c, trace, RunStamp(trace[n].before).value, m, 0)
  {
    StepsOf(c, gran, trace, Start(c), Done(v), n);
    var ts := trace[n].before.ts;
    m := n + 1;
    if Plan(c, ts) != [] {
      m := StorageTaken(c, gran, trace, v, n, ts);
    }
  }

  // ---- What comes before ----

  lemma {:induction false} LimitNextStays(c: Checker, ts: nat, i: nat)
    requires c.PodStartup?
    ensures var pc := LimitNext(c, ts, i); pc.LimitClasses? || pc.CsiCreate? || pc.ListPods? || pc.Done?
    decreases |c.csis| - i
  {
    if i < |c.csis| && !c.csis[i].AzureFile? {
      LimitNextStays(c, ts, i + 1);
    }
  }

  // What leads to the creation of the pod, and of the node pool.
  lemma LeadsToPod(c: Checker, pc: Pc, r: Reply)
    requires Belongs(c, pc)
    ensures Resume(c, pc, r).CreatePod? ==>
              && Resume(c, pc, r).ts == pc.ts && (pc.CreatePool? || (pc.ListPods? && !c.provisioning))
              && (pc.CreatePool? ==> Granted(r))
    ensures Resume(c, pc, r).CreatePool? ==> pc.CheckCrd? && Resume(c, pc, r).ts == pc.ts && Granted(r)
  {
    if pc.LimitClaims? {
      LimitNextStays(c, pc.ts, 0);
    } else if pc.LimitClasses? {
      LimitNextStays(c, pc.ts, pc.i + 1);
    }
  }

  // Call n was a read that succeeded.
  predicate ReadWell(c: Checker, trace: seq<Step>, n: nat)
  {
    n < |trace| && Belongs(c, trace[n].before) && Want(c, trace[n].before).Probe? && Granted(trace[n].reply)
  }

  // With provisioning a run asks for its pod only after its node pool was created, with the very labels the
  // pod selects its node by, and that only after the CRD was found.
  lemma PodAfterPool(c: Checker, gran: nat, trace: seq<Step>, to: Pc, n: nat)
    requires Path(c, gran, trace, Start(c), to) && c.PodStartup? && c.provisioning
    requires n < |trace| && Belongs(c, trace[n].before) && Makes(Want(c, trace[n].before), Pod)
    ensures n >= 2 && ReadWell(c, trace, n - 2) && Created(c, trace, n - 1, NodePool)
    ensures Want(c, trace[n].before).spec.PodSpec?
    ensures Want(c, trace[n].before).spec.nodeSelector == Want(c, trace[n - 1].before).labels
  {
    StepsOf(c, gran, trace, Start(c), to, n);
    if trace[n].before.CsiCreate? {
      PlanKinds(c, c.csis, trace[n].before.ts, trace[n].before.j);
    }
    StepsOf(c, gran, trace, Start(c), to, n - 1);
    LeadsToPod(c, trace[n - 1].before, trace[n - 1].reply);
    StepsOf(c, gran, trace, Start(c), to, n - 2);
    LeadsToPod(c, trace[n - 2].before, trace[n - 2].reply);
  }

  // What leads to the program points of the API server checker.
  lemma LeadsToMap(c: Checker, pc: Pc, r: Reply)
    requires Belongs(c, pc) && c.ApiServer? && Running(pc)
    ensures Resume(c, pc, r).GetMap? ==> pc.CreateMap? && Resume(c, pc, r).ts == pc.ts && Granted(r)
    ensures Resume(c, pc, r).DeleteMap? ==> pc.GetMap? && Resume(c, pc, r).ts == pc.ts && Granted(r)
    ensures var after := Resume(c, pc, r);
            after.CleanMap? && after.v == Healthy ==> pc.DeleteMap? && after.ts == pc.ts && Granted(r)
    ensures Resume(c, pc, r) == Done(Healthy) ==> pc.CleanMap? && pc.v == Healthy
  {
  }

  // What the last of n calls was, by where the run is after it.
  lemma CallBefore(c: Checker, gran: nat, trace: seq<Step>, to: Pc, n: nat)
    requires Path(c, gran, trace, Start(c), to) && c.ApiServer? && 0 < n <= |trace|
    ensures Belongs(c, trace[n - 1].before) && trace[n - 1].before == PcAt(trace, Start(c), n - 1)
    ensures var after, pc := PcAt(trace, Start(c), n), trace[n - 1].before;
            && (after.GetMap? ==>
                  Created(c, trace, n - 1, ConfigMap) && Want(c, pc) == Create(MapKey(c, after.ts), Labels(c), NoSpec))
            && (after.DeleteMap? ==> pc == GetMap(after.ts) && ReadWell(c, trace, n - 1))
            && (after.CleanMap? && after.v == Healthy ==>
                  && pc == DeleteMap(after.ts) && AsksDelete(c, trace, n - 1, MapKey(c, after.ts))
                  && Granted(trace[n - 1].reply))
            && (after == Done(Healthy) ==>
                  pc.CleanMap? && pc.v == Healthy && AsksDelete(c, trace, n - 1, MapKey(c, pc.ts)))
  {
    StepsOf(c, gran, trace, Start(c), to, n - 1);
    LeadsToMap(c, trace[n - 1].before, trace[n - 1].reply);
  }

  // A healthy run of the API server checker ends by creating, reading and deleting its ConfigMap, each with
  // success, and with a further try at deleting it.
  lemma HealthyExercised(c: Checker, gran: nat, trace: seq<Step>) returns (k: Key)
    requires Path(c, gran, trace, Start(c), Done(Healthy)) && c.ApiServer?
    ensures |trace| >= 4
    ensures Created(c, trace, |trace| - 4, ConfigMap) && Want(c, trace[|trace| - 4].before).key == k
    ensures ReadWell(c, trace, |trace| - 3)
    ensures AsksDelete(c, trace, |trace| - 2, k) && Granted(trace[|trace| - 2].reply)
    ensures AsksDelete(c, trace, |trace| - 1, k)
  {
    var n := |trace|;
    assert StepAt(c, gran, trace, Start(c), Done(Healthy), n);
    CallBefore(c, gran, trace, Done(Healthy), n);
    k := MapKey(c, trace[n - 1].before.ts);
    CallBefore(c, gran, trace, Done(Healthy), n - 1);
    CallBefore(c, gran, trace, Done(Healthy), n - 2);
    CallBefore(c, gran, trace, Done(Healthy), n - 3);
  }
}
