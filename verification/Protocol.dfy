// The order in which one checker run talks to the cluster: which call each program point makes
// and where its answer leads. Run code and interleavings are both tied to these two functions.
module Protocol {
  import opened Results
  import opened Names
  import opened Cluster

  datatype Checker =
    | PodStartup(name: string, timeout: nat, ns: string, labelKey: string, maxPods: int,
                 csis: seq<CsiType>, provisioning: bool, startupTimeout: int)
    | ApiServer(name: string, timeout: nat, ns: string, labelKey: string, maxObjects: int)

  // ---- Labels and names ----

  function Labels(c: Checker): map<string, string>
  {
    map[c.labelKey := c.name]
  }

  function OwnSelector(c: Checker): Selector
  {
    HasValue(c.labelKey, c.name)
  }

  function PodKey(c: Checker, ts: nat): Key
  {
    Key(Pod, c.ns, PodName(Lower(c.name), ts))
  }

  function PoolKey(c: Checker, ts: nat): Key
  {
    Key(NodePool, "", PoolName(Lower(c.name), ts))
  }

  function MapKey(c: Checker, ts: nat): Key
  {
    Key(ConfigMap, c.ns, MapName(Lower(c.name), ts))
  }

  function ClassKey(ts: nat): Key
  {
    Key(StorageClass, "", ClassName(ts))
  }

  function ClaimKey(c: Checker, t: CsiType, ts: nat): Key
  {
    Key(Claim, c.ns, ClaimName(t, ts))
  }

  // Azure File claims name the run's own storage class, the others a class AKS provides.
  function ClaimClass(t: CsiType, ts: nat): ClassRef
  {
    if t.AzureFile? then Custom(ClassName(ts)) else Builtin(t)
  }

  // ---- CSI objects, in creation (and deletion) order ----

  datatype Planned = Planned(key: Key, spec: Spec)

  function Entry(c: Checker, t: CsiType, ts: nat): seq<Planned>
  {
    var claim := Planned(ClaimKey(c, t, ts), ClaimSpec(ClaimClass(t, ts)));
    match t
    case AzureFile => [Planned(ClassKey(ts), NoSpec), claim]
    case AzureDisk => [claim]
    case AzureBlob => [claim]
    case OtherCsi(_) => []
  }

  // Up to the first unsupported type, where creation gives up.
  function PlanOf(c: Checker, csis: seq<CsiType>, ts: nat): seq<Planned>
  {
    if csis == [] || csis[0].OtherCsi? then [] else Entry(c, csis[0], ts) + PlanOf(c, csis[1..], ts)
  }

  function Plan(c: Checker, ts: nat): seq<Planned>
  {
    if c.PodStartup? then PlanOf(c, c.csis, ts) else []
  }

  predicate Supported(csis: seq<CsiType>)
  {
    forall i | 0 <= i < |csis| :: !csis[i].OtherCsi?
  }

  // n for every CSI type listed: n * |csis|.
  function PerCsi(n: int, csis: seq<CsiType>): int
  {
    if csis == [] then 0 else n + PerCsi(n, csis[1..])
  }

  // ---- The synthetic pod ----

  function VolumesOf(csis: seq<CsiType>, ts: nat): seq<Volume>
  {
    if csis == [] then [] else
    (if csis[0].OtherCsi? then [] else [Volume(csis[0], ClaimName(csis[0], ts))]) + VolumesOf(csis[1..], ts)
  }

  function MountsOf(csis: seq<CsiType>): seq<Mount>
  {
    if csis == [] then [] else
    (if csis[0].OtherCsi? then [] else [Mount(csis[0])]) + MountsOf(csis[1..])
  }

  function SyntheticPod(c: Checker, ts: nat): Spec
    requires c.PodStartup?
  {
    PodSpec(VolumesOf(c.csis, ts), MountsOf(c.csis), if c.provisioning then map[c.labelKey := Dec(ts)] else map[])
  }

  function PoolLabels(c: Checker, ts: nat): map<string, string>
  {
    map[c.labelKey := Dec(ts)]
  }

  // ---- Program points ----

  datatype Pc =
    | Idle
    | GcList(kind: Kind)
    | GcAge(kind: Kind, todo: seq<Item>)
    | GcDelete(kind: Kind, todo: seq<Item>)
    | TakeStamp
    // PodStartup
    | LimitClaims(ts: nat)
    | LimitClasses(ts: nat, i: nat)
    | CsiCreate(ts: nat, j: nat)
    | ListPods(ts: nat)
    | CheckCrd(ts: nat)
    | CreatePool(ts: nat)
    | CreatePod(ts: nat)
    | Observe(ts: nat)
    | DeletePod(ts: nat, v: Verdict)
    | DeletePool(ts: nat, v: Verdict)
    | CsiDelete(ts: nat, j: nat, v: Verdict)
    // APIServer
    | LimitMaps
    | CreateMap(ts: nat)
    | GetMap(ts: nat)
    | DeleteMap(ts: nat)
    | CleanMap(ts: nat, v: Verdict)
    | Done(v: Verdict)

  predicate Running(pc: Pc)
  {
    !pc.Idle? && !pc.Done?
  }

  function Start(c: Checker): Pc
  {
    GcList(if c.PodStartup? then Pod else ConfigMap)
  }

  function Scope(c: Checker, kind: Kind): string
  {
    if kind.StorageClass? || kind.NodePool? then "" else c.ns
  }

  // NodePools are collected by label key alone.
  function GcSelector(c: Checker, kind: Kind): Selector
  {
    if kind.NodePool? then HasKey(c.labelKey) else OwnSelector(c)
  }

  function AfterGc(c: Checker, kind: Kind): Pc
  {
    match kind
    case Pod => if c.PodStartup? && c.provisioning then GcList(NodePool) else GcList(Claim)
    case NodePool => GcList(Claim)
    case Claim => GcList(StorageClass)
    case StorageClass => TakeStamp
    case ConfigMap => LimitMaps
  }

  function GcNext(c: Checker, kind: Kind, todo: seq<Item>): Pc
  {
    if todo == [] then AfterGc(c, kind)
    else if kind.NodePool? then GcDelete(kind, todo)
    else GcAge(kind, todo)
  }

  function LimitNext(c: Checker, ts: nat, i: nat): Pc
    requires c.PodStartup?
    decreases |c.csis| - i
  {
    if i >= |c.csis| then CsiNext(c, ts, 0)
    else if c.csis[i].AzureFile? then LimitClasses(ts, i)
    else LimitNext(c, ts, i + 1)
  }

  function CsiNext(c: Checker, ts: nat, j: nat): Pc
    requires c.PodStartup?
  {
    if j < |Plan(c, ts)| then CsiCreate(ts, j)
    else if Supported(c.csis) then ListPods(ts)
    else Done(Failed(CsiUnsupported))
  }

  // Runs the deferred CSI deletion.
  function Unwind(c: Checker, ts: nat, v: Verdict): Pc
  {
    if |Plan(c, ts)| > 0 then CsiDelete(ts, 0, v) else Done(v)
  }

  // A checker stays on its own side of the program points.
  predicate Belongs(c: Checker, pc: Pc)
  {
    match pc
    case Idle => true
    case Done(_) => true
    case TakeStamp => true
    case GcList(kind) => c.ApiServer? <==> kind.ConfigMap?
    case GcAge(kind, todo) => todo != [] && !kind.NodePool? && (c.ApiServer? <==> kind.ConfigMap?)
    case GcDelete(kind, todo) => todo != [] && (c.ApiServer? <==> kind.ConfigMap?)
    case LimitMaps => c.ApiServer?
    case CreateMap(_) => c.ApiServer?
    case GetMap(_) => c.ApiServer?
    case DeleteMap(_) => c.ApiServer?
    case CleanMap(_, _) => c.ApiServer?
    case LimitClaims(_) => c.PodStartup? && c.csis != []
    case LimitClasses(_, i) => c.PodStartup? && i < |c.csis| && c.csis[i].AzureFile?
    case CsiCreate(ts, j) => c.PodStartup? && j < |Plan(c, ts)|
    case CsiDelete(ts, j, _) => c.PodStartup? && j < |Plan(c, ts)|
    case _ => c.PodStartup?
  }

  // The call a program point makes.
  function Want(c: Checker, pc: Pc): Request
    requires Belongs(c, pc)
  {
    match pc
    case GcList(kind) => List(kind, Scope(c, kind), GcSelector(c, kind))
    case GcAge(_, _) => ReadClock
    case GcDelete(_, todo) => Delete(todo[0].key)
    case TakeStamp => ReadClock
    case LimitClaims(_) => List(Claim, c.ns, OwnSelector(c))
    case LimitClasses(_, _) => List(StorageClass, "", OwnSelector(c))
    case CsiCreate(ts, j) => Create(Plan(c, ts)[j].key, Labels(c), Plan(c, ts)[j].spec)
    case ListPods(_) => List(Pod, c.ns, OwnSelector(c))
    case CheckCrd(_) => Probe
    case CreatePool(ts) => Create(PoolKey(c, ts), PoolLabels(c, ts), NoSpec)
    case CreatePod(ts) => Create(PodKey(c, ts), Labels(c), SyntheticPod(c, ts))
    case Observe(_) => Measure
    case DeletePod(ts, _) => Delete(PodKey(c, ts))
    case DeletePool(ts, _) => Delete(PoolKey(c, ts))
    case CsiDelete(ts, j, _) => Delete(Plan(c, ts)[j].key)
    case LimitMaps => List(ConfigMap, c.ns, OwnSelector(c))
    case CreateMap(ts) => Create(MapKey(c, ts), Labels(c), NoSpec)
    case GetMap(_) => Probe
    case DeleteMap(ts) => Delete(MapKey(c, ts))
    case CleanMap(ts, _) => Delete(MapKey(c, ts))
    case Idle => Nothing
    case Done(_) => Nothing
  }

  // NotFound is not an error for any delete but the APIServer checker's explicit one.
  predicate Tolerable(err: Option<Error>)
  {
    err == None || err == Some(NotFound)
  }

  // Where the answer leads.
  function Resume(c: Checker, pc: Pc, r: Reply): Pc
    requires Belongs(c, pc)
  {
    match pc
    case GcList(kind) => if r.Items? then GcNext(c, kind, r.items) else AfterGc(c, kind)
    case GcAge(kind, todo) =>
      if !r.Time? then pc
      else if r.t - todo[0].created > c.timeout then GcDelete(kind, todo)
      else GcNext(c, kind, todo[1..])
    case GcDelete(kind, todo) => GcNext(c, kind, todo[1..])
    case TakeStamp =>
      if !r.Time? then pc
      else if c.ApiServer? then CreateMap(r.t)
      else if c.csis == [] then CsiNext(c, r.t, 0)
      else LimitClaims(r.t)
    case LimitClaims(ts) =>
      if !r.Items? then Done(Failed(LimitList))
      else if |r.items| >= PerCsi(c.maxPods, c.csis) then Done(Failed(ClaimLimit))
      else LimitNext(c, ts, 0)
    case LimitClasses(ts, i) =>
      if !r.Items? then Done(Failed(LimitList))
      else if |r.items| >= c.maxPods then Done(Failed(ClassLimit))
      else LimitNext(c, ts, i + 1)
    case CsiCreate(ts, j) => if r == Status(None) then CsiNext(c, ts, j + 1) else Done(Failed(CsiCreateFailed))
    case ListPods(ts) =>
      if !r.Items? then Unwind(c, ts, Failed(PodList))
      else if |r.items| >= c.maxPods then Unwind(c, ts, Failed(PodLimit))
      else if c.provisioning then CheckCrd(ts)
      else CreatePod(ts)
    case CheckCrd(ts) =>
      if r == Status(None) then CreatePool(ts)
      else if r == Status(Some(NotFound)) then Unwind(c, ts, Skipped)
      else Unwind(c, ts, Failed(CrdCheck))
    case CreatePool(ts) => if r == Status(None) then CreatePod(ts) else Unwind(c, ts, Failed(PoolCreateFailed))
    case CreatePod(ts) =>
      if r == Status(None) then Observe(ts)
      else if r == Status(Some(DeadlineExceeded)) then Unwind(c, ts, Unhealthy(PodCreationTimeout))
      else Unwind(c, ts, Unhealthy(PodCreationError))
    case Observe(ts) => if r.Seen? then DeletePod(ts, r.v) else pc
    case DeletePod(ts, v) => if c.provisioning then DeletePool(ts, v) else Unwind(c, ts, v)
    case DeletePool(ts, v) => Unwind(c, ts, v)
    case CsiDelete(ts, j, v) =>
      if r.Status? && Tolerable(r.err) && j + 1 < |Plan(c, ts)| then CsiDelete(ts, j + 1, v) else Done(v)
    case LimitMaps =>
      if !r.Items? then Done(Failed(MapList))
      else if |r.items| >= c.maxObjects then Done(Failed(MapLimit))
      else TakeStamp
    case CreateMap(ts) =>
      if r == Status(None) then GetMap(ts)
      else Done(Unhealthy(if r == Status(Some(DeadlineExceeded)) then CreateTimeout else CreateError))
    case GetMap(ts) =>
      if r == Status(None) then DeleteMap(ts)
      else CleanMap(ts, Unhealthy(if r == Status(Some(DeadlineExceeded)) then GetTimeout else GetError))
    case DeleteMap(ts) =>
      CleanMap(ts, if r == Status(None) then Healthy
                   else Unhealthy(if r == Status(Some(DeadlineExceeded)) then DeleteTimeout else DeleteError))
    case CleanMap(_, v) => Done(v)
    case Idle => pc
    case Done(_) => pc
  }

  // One call of a run: where the run is before and after it, what it does to the store.
  datatype Step = Step(before: Pc, st: Objects, at: nat, stamp: int, fault: Fault, reply: Reply,
                       st': Objects, after: Pc)

  // The call is the one the run makes there, served by the cluster.
  ghost predicate CallStep(c: Checker, gran: nat, s: Step)
  {
    && Belongs(c, s.before)
    && Serves(gran, s.st, Want(c, s.before), s.at, s.stamp, s.fault, s.reply, s.st')
    && s.after == Resume(c, s.before, s.reply)
  }

  lemma ResumeBelongs(c: Checker, pc: Pc, r: Reply)
    requires Belongs(c, pc)
    ensures Belongs(c, Resume(c, pc, r))
  {
    if pc.LimitClaims? {
      LimitNextBelongs(c, pc.ts, 0);
    } else if pc.LimitClasses? {
      LimitNextBelongs(c, pc.ts, pc.i + 1);
    }
  }

  lemma {:induction false} LimitNextBelongs(c: Checker, ts: nat, i: nat)
    requires c.PodStartup?
    ensures Belongs(c, LimitNext(c, ts, i))
    decreases |c.csis| - i
  {
    if i < |c.csis| && !c.csis[i].AzureFile? {
      LimitNextBelongs(c, ts, i + 1);
    }
  }

  // Whatever a checker creates bears its own label, except NodePools.
  lemma CreationLabels(c: Checker, pc: Pc)
    requires Belongs(c, pc) && Want(c, pc).Create?
    ensures if Want(c, pc).key.kind.NodePool? then pc.CreatePool? else Want(c, pc).labels == Labels(c)
  {
    if pc.CsiCreate? {
      PlanKinds(c, c.csis, pc.ts, pc.j);
    }
  }

  lemma {:induction false} PlanKinds(c: Checker, csis: seq<CsiType>, ts: nat, j: nat)
    requires j < |PlanOf(c, csis, ts)|
    ensures PlanOf(c, csis, ts)[j].key.kind in {Claim, StorageClass}
  {
    if j >= |Entry(c, csis[0], ts)| {
      PlanKinds(c, csis[1..], ts, j - |Entry(c, csis[0], ts)|);
    }
  }
}
