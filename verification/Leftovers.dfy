// What a checker's own runs leave over, kind by kind: pods, claims, storage classes, ConfigMaps. Whenever a
// run has collected and created nothing yet, what is not over age stems from one earlier run.
module Leftovers {
  import opened Cluster
  import opened Protocol
  import opened System

  // ---- The calls that matter ----

  // The kinds a checker keeps within a limit.
  predicate Limits(c: Checker, kind: Kind)
  {
    if c.PodStartup? then kind.Pod? || Stored(kind) else kind.ConfigMap?
  }

  predicate Stored(kind: Kind)
  {
    kind.Claim? || kind.StorageClass?
  }

  // What a call must do, when answered in time, for leftovers of the kind to be cleaned up: collection
  // and the final deletion must work, and a creation reported as failed must have failed. Nothing cleans
  // up after a run that fails to create a storage object, so these creations must work.
  predicate Dutiful(kind: Kind, pc: Pc, fault: Fault)
  {
    match pc
    case GcList(k) => k == kind ==> fault.Works?
    case GcDelete(k, _) => k == kind ==> fault.Works?
    case CsiCreate(_, _) => Stored(kind) ==> fault.Works?
    case CsiDelete(_, _, _) => Stored(kind) ==> fault.Works?
    case CreatePod(_) => kind.Pod? ==> !fault.LosesReply?
    case DeletePod(_, _) => kind.Pod? ==> fault.Works?
    case CreateMap(_) => kind.ConfigMap? ==> !fault.LosesReply?
    case CleanMap(_, _) => kind.ConfigMap? ==> fault.Works?
    case _ => true
  }

  // Checker i's calls answered before its run's deadline are dutiful, and the process does not crash.
  predicate Prompt(w: World, e: Event, i: nat, kind: Kind)
    requires i < |w.locals|
  {
    match e
    case Call(j, _, done, _, fault, _) =>
      j == i && done < w.locals[i].deadline ==> Dutiful(kind, w.locals[i].pc, fault)
    case Crash => false
    case _ => true
  }

  // ---- What is left over ----

  ghost function Own(c: Checker, kind: Kind, st: Objects): set<Key>
  {
    Matching(st, kind, Scope(c, kind), OwnSelector(c))
  }

  // A storage object as the checker's runs plan them.
  ghost predicate InPlan(c: Checker, k: Key)
  {
    !k.name.Given? && exists j | 0 <= j < |Plan(c, k.name.ts)| :: Plan(c, k.name.ts)[j].key == k
  }

  // One run can have made both.
  ghost predicate Alike(c: Checker, p: Key, q: Key)
  {
    if Stored(p.kind) then InPlan(c, p) && InPlan(c, q) && p.name.ts == q.name.ts else p == q
  }

  // The run stamped ts makes it.
  ghost predicate Makes(c: Checker, kind: Kind, ts: nat, k: Key)
  {
    match kind
    case Pod => k == PodKey(c, ts)
    case ConfigMap => k == MapKey(c, ts)
    case NodePool => false
    case _ => k.kind == kind && InPlan(c, k) && k.name.ts == ts
  }

  // Without those the run stamped ts makes.
  ghost function Rest(c: Checker, kind: Kind, st: Objects, ts: nat): set<Key>
  {
    set k | k in Own(c, kind, st) && !Makes(c, kind, ts, k)
  }

  // Not yet over age at time t.
  predicate Young(c: Checker, st: Objects, p: Key, t: nat)
  {
    p in st && st[p].created + c.timeout >= t
  }

  ghost predicate AllBefore(st: Objects, s: set<Key>, t: nat)
  {
    forall p | p in s :: p in st && st[p].created < t
  }

  ghost predicate YoungAlike(c: Checker, st: Objects, s: set<Key>, t: nat)
  {
    forall p, q | p in s && q in s && Young(c, st, p, t) && Young(c, st, q, t) :: Alike(c, p, q)
  }

  // ---- Phases of a run ----

  // Between runs: all was made before, and what is not over age stems from one run.
  ghost predicate Rested(c: Checker, kind: Kind, cancel: nat, st: Objects, l: Local)
  {
    && AllBefore(st, Own(c, kind, st), l.clock)
    && (l.clock < cancel ==> YoungAlike(c, st, Own(c, kind, st), l.clock))
  }

  // s was there when the run began.
  ghost predicate Begun(c: Checker, cancel: nat, st: Objects, s: set<Key>, l: Local)
  {
    && AllBefore(st, s, l.start)
    && (l.start < cancel ==> YoungAlike(c, st, s, l.start))
  }

  // What is over age in s is gone but for what is still to be looked at.
  ghost predicate Swept(c: Checker, st: Objects, s: set<Key>, todo: seq<Item>, l: Local)
  {
    l.clock < l.deadline ==> forall p | p in s :: Young(c, st, p, l.start) || p in KeysOf(todo)
  }

  ghost predicate TodoCurrent(c: Checker, kind: Kind, st: Objects, todo: seq<Item>)
  {
    forall n | 0 <= n < |todo| && todo[n].key in Own(c, kind, st) :: todo[n].created == st[todo[n].key].created
  }

  // Collected up to the items still to be looked at.
  ghost predicate SweptTo(c: Checker, kind: Kind, cancel: nat, st: Objects, todo: seq<Item>, l: Local)
  {
    && Begun(c, cancel, st, Own(c, kind, st), l)
    && Swept(c, st, Own(c, kind, st), todo, l)
    && TodoCurrent(c, kind, st, todo)
  }

  // Collected, nothing created yet.
  ghost predicate Before(c: Checker, kind: Kind, cancel: nat, st: Objects, l: Local)
  {
    Begun(c, cancel, st, Own(c, kind, st), l) && Swept(c, st, Own(c, kind, st), [], l)
  }

  // What the run stamped ts makes may be there as well.
  ghost predicate After(c: Checker, kind: Kind, cancel: nat, st: Objects, ts: nat, l: Local)
  {
    && Begun(c, cancel, st, Rest(c, kind, st, ts), l)
    && Swept(c, st, Rest(c, kind, st, ts), [], l)
    && forall k | k in Own(c, kind, st) && Makes(c, kind, ts, k) ::
         st[k].created < l.start || st[k].created < l.deadline
  }

  predicate Late(l: Local)
  {
    l.deadline <= l.clock
  }

  // The run's own pod is gone, or the run has used its whole time.
  ghost predicate PodGone(c: Checker, cancel: nat, st: Objects, ts: nat, l: Local)
  {
    Before(c, Pod, cancel, st, l) || (Late(l) && After(c, Pod, cancel, st, ts, l))
  }

  // So are its storage objects but for entry j and later.
  ghost predicate StoreGone(c: Checker, kind: Kind, cancel: nat, st: Objects, ts: nat, j: nat, l: Local)
  {
    && After(c, kind, cancel, st, ts, l)
    && (Late(l) || forall k | k in Own(c, kind, st) && Makes(c, kind, ts, k) ::
          exists n | j <= n < |Plan(c, ts)| :: Plan(c, ts)[n].key == k)
  }

  // Where a run is with respect to the objects of one kind.
  datatype Phase =
    | AtRest
    | Uncollected
    | Sweeping(todo: seq<Item>)
    | Clean
    | Holding(ts: nat)
    | PodGoing(ts: nat)
    | StoreGoing(ts: nat, j: nat)

  // In which order a run collects.
  function Rank(kind: Kind): nat
  {
    match kind
    case Pod => 0
    case ConfigMap => 0
    case NodePool => 1
    case Claim => 2
    case StorageClass => 3
  }

  function SweepPhase(kind: Kind, k: Kind, todo: seq<Item>): Phase
  {
    if k == kind then Sweeping(todo) else if Rank(k) < Rank(kind) then Uncollected else Clean
  }

  // Storage objects are held from their creation on, pods and ConfigMaps from theirs.
  function PhaseOf(kind: Kind, pc: Pc): Phase
  {
    match pc
    case Idle => AtRest
    case Done(_) => AtRest
    case GcList(k) => if Rank(k) <= Rank(kind) then Uncollected else Clean
    case GcAge(k, todo) => SweepPhase(kind, k, todo)
    case GcDelete(k, todo) => SweepPhase(kind, k, todo)
    case CsiCreate(ts, _) => if Stored(kind) then Holding(ts) else Clean
    case ListPods(ts) => if Stored(kind) then Holding(ts) else Clean
    case CheckCrd(ts) => if Stored(kind) then Holding(ts) else Clean
    case CreatePool(ts) => if Stored(kind) then Holding(ts) else Clean
    case CreatePod(ts) => if Stored(kind) then Holding(ts) else Clean
    case Observe(ts) => Holding(ts)
    case DeletePod(ts, _) => Holding(ts)
    case DeletePool(ts, _) => if Stored(kind) then Holding(ts) else PodGoing(ts)
    case CsiDelete(ts, j, _) => if Stored(kind) then StoreGoing(ts, j) else PodGoing(ts)
    case GetMap(ts) => Holding(ts)
    case DeleteMap(ts) => Holding(ts)
    case CleanMap(ts, _) => Holding(ts)
    case _ => Clean
  }

  ghost predicate In(c: Checker, kind: Kind, cancel: nat, st: Objects, l: Local, phase: Phase)
  {
    match phase
    case AtRest => Rested(c, kind, cancel, st, l)
    case Uncollected => Begun(c, cancel, st, Own(c, kind, st), l)
    case Sweeping(todo) => SweptTo(c, kind, cancel, st, todo, l)
    case Clean => Before(c, kind, cancel, st, l)
    case Holding(ts) => After(c, kind, cancel, st, ts, l)
    case PodGoing(ts) => kind.Pod? && PodGone(c, cancel, st, ts, l)
    case StoreGoing(ts, j) => StoreGone(c, kind, cancel, st, ts, j, l)
  }

  predicate Timely(c: Checker, cancel: nat, l: Local)
  {
    l.start <= l.clock && l.deadline == Min(cancel, l.start + c.timeout)
  }

  ghost predicate Calm(c: Checker, kind: Kind, cancel: nat, st: Objects, l: Local)
  {
    && Limits(c, kind) && (Running(l.pc) ==> Timely(c, cancel, l))
    && In(c, kind, cancel, st, l, PhaseOf(kind, l.pc))
  }

  // ---- Fewer objects, or later ----

  ghost predicate Fewer(c: Checker, kind: Kind, st: Objects, st': Objects)
  {
    forall k | k in Own(c, kind, st') :: k in st && st[k] == st'[k]
  }

  // But for what the run stamped ts makes, in time.
  ghost predicate FewerBut(c: Checker, kind: Kind, st: Objects, st': Objects, ts: nat, deadline: nat)
  {
    forall k | k in Own(c, kind, st') ::
      (k in st && st[k] == st'[k]) || (Makes(c, kind, ts, k) && st'[k].created < deadline)
  }

  lemma FewerBegun(c: Checker, cancel: nat, st: Objects, st': Objects,
                   s: set<Key>, s': set<Key>, todo: seq<Item>, l: Local)
    requires s' <= s && forall p | p in s' :: p in st && p in st' && st'[p] == st[p]
    requires Begun(c, cancel, st, s, l)
    ensures Begun(c, cancel, st', s', l)
    ensures Swept(c, st, s, todo, l) ==> Swept(c, st', s', todo, l)
  {
    forall p, q | p in s' && q in s' && l.start < cancel && Young(c, st', p, l.start) && Young(c, st', q, l.start)
      ensures Alike(c, p, q)
    {
      assert Young(c, st, p, l.start) && Young(c, st, q, l.start);
    }
    if Swept(c, st, s, todo, l) && l.clock < l.deadline {
      forall p | p in s' ensures Young(c, st', p, l.start) || p in KeysOf(todo) {
        assert Young(c, st, p, l.start) || p in KeysOf(todo);
      }
    }
  }

  lemma FewerOwn(c: Checker, kind: Kind, cancel: nat, st: Objects, st': Objects, todo: seq<Item>, l: Local)
    requires Fewer(c, kind, st, st') && Begun(c, cancel, st, Own(c, kind, st), l)
    ensures Begun(c, cancel, st', Own(c, kind, st'), l)
    ensures Swept(c, st, Own(c, kind, st), todo, l) ==> Swept(c, st', Own(c, kind, st'), todo, l)
  {
    FewerBegun(c, cancel, st, st', Own(c, kind, st), Own(c, kind, st'), todo, l);
  }

  lemma FewerRested(c: Checker, kind: Kind, cancel: nat, st: Objects, st': Objects, l: Local)
    requires Rested(c, kind, cancel, st, l) && Fewer(c, kind, st, st')
    ensures Rested(c, kind, cancel, st', l)
  {
    var s := Own(c, kind, st');
    forall p, q
      | p in s && q in s && l.clock < cancel && Young(c, st', p, l.clock) && Young(c, st', q, l.clock)
      ensures Alike(c, p, q)
    {
      assert Young(c, st, p, l.clock) && Young(c, st, q, l.clock);
    }
  }

  // What holds after a creation keeps holding while only the run stamped ts adds anything.
  lemma FewerAfter(c: Checker, kind: Kind, cancel: nat, st: Objects, st': Objects, ts: nat, l: Local)
    requires FewerBut(c, kind, st, st', ts, l.deadline) && After(c, kind, cancel, st, ts, l)
    ensures After(c, kind, cancel, st', ts, l)
  {
    FewerBegun(c, cancel, st, st', Rest(c, kind, st, ts), Rest(c, kind, st', ts), [], l);
  }

  // Somebody else's step, or an object vanishing, keeps the phase.
  lemma FewerIn(c: Checker, kind: Kind, cancel: nat, st: Objects, st': Objects, l: Local, phase: Phase)
    requires In(c, kind, cancel, st, l, phase) && Fewer(c, kind, st, st')
    ensures In(c, kind, cancel, st', l, phase)
  {
    match phase {
      case AtRest => FewerRested(c, kind, cancel, st, st', l);
      case Uncollected => FewerOwn(c, kind, cancel, st, st', [], l);
      case Sweeping(todo) => FewerOwn(c, kind, cancel, st, st', todo, l);
      case Clean => FewerOwn(c, kind, cancel, st, st', [], l);
      case Holding(ts) => FewerAfter(c, kind, cancel, st, st', ts, l);
      case PodGoing(ts) =>
        if Before(c, Pod, cancel, st, l) {
          FewerOwn(c, kind, cancel, st, st', [], l);
        } else {
          FewerAfter(c, kind, cancel, st, st', ts, l);
        }
      case StoreGoing(ts, j) => FewerAfter(c, kind, cancel, st, st', ts, l);
    }
  }

  lemma BeforeAfter(c: Checker, kind: Kind, cancel: nat, st: Objects, ts: nat, l: Local)
    requires Before(c, kind, cancel, st, l)
    ensures After(c, kind, cancel, st, ts, l)
  {
    FewerBegun(c, cancel, st, st, Own(c, kind, st), Rest(c, kind, st, ts), [], l);
  }

  // Once the run's own objects are gone, it is as if nothing had been created.
  lemma GoneBefore(c: Checker, kind: Kind, cancel: nat, st: Objects, ts: nat, l: Local)
    requires After(c, kind, cancel, st, ts, l) && forall k | k in Own(c, kind, st) :: !Makes(c, kind, ts, k)
    ensures Before(c, kind, cancel, st, l)
  {
    assert Rest(c, kind, st, ts) == Own(c, kind, st);
  }

  // ---- Runs end at rest ----

  lemma BeforeRests(c: Checker, kind: Kind, cancel: nat, st: Objects, l: Local)
    requires Timely(c, cancel, l) && Before(c, kind, cancel, st, l)
    ensures Rested(c, kind, cancel, st, l)
  {
    var s := Own(c, kind, st);
    forall p, q | p in s && q in s && l.clock < cancel && Young(c, st, p, l.clock) && Young(c, st, q, l.clock)
      ensures Alike(c, p, q)
    {
      assert Young(c, st, p, l.start) && Young(c, st, q, l.start);
    }
  }

  // A run that used its whole time leaves at most what it made itself not over age.
  lemma LateRests(c: Checker, kind: Kind, cancel: nat, st: Objects, ts: nat, l: Local)
    requires Timely(c, cancel, l) && Late(l) && After(c, kind, cancel, st, ts, l)
    ensures Rested(c, kind, cancel, st, l)
  {
    var s := Own(c, kind, st);
    forall p | p in s ensures st[p].created < l.clock {
      if !Makes(c, kind, ts, p) {
        assert p in Rest(c, kind, st, ts);
      }
    }
    forall p | p in s && l.clock < cancel && Young(c, st, p, l.clock) ensures Makes(c, kind, ts, p) {
      assert p in Rest(c, kind, st, ts) ==> !Young(c, st, p, l.clock);
    }
  }
}
