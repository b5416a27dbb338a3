// However the checkers' calls interleave, fail or lose their answers, no checker's synthetic
// objects exceed its configured limit.
module Bounds {
  import opened Names
  import opened Cluster
  import opened Protocol
  import opened System

  // ---- Counting ----

  ghost function Count(st: Objects, c: Checker, kind: Kind): nat
  {
    |Matching(st, kind, Scope(c, kind), OwnSelector(c))|
  }

  // Storage classes other than the one of the run stamped ts.
  ghost function OtherClasses(st: Objects, c: Checker, ts: nat): nat
  {
    |Matching(st, StorageClass, "", OwnSelector(c)) - {ClassKey(ts)}|
  }

  // Everything the limits speak of.
  datatype Tally = Tally(pods: nat, claims: nat, classes: nat, others: nat, maps: nat)

  ghost function TallyOf(c: Checker, st: Objects, ts: nat): Tally
  {
    Tally(Count(st, c, Pod), Count(st, c, Claim), Count(st, c, StorageClass), OtherClasses(st, c, ts),
          Count(st, c, ConfigMap))
  }

  predicate AtMost(t: Tally, u: Tally)
  {
    t.pods <= u.pods && t.claims <= u.claims && t.classes <= u.classes && t.others <= u.others && t.maps <= u.maps
  }

  // One object more under key k, in a run stamped ts.
  function Bump(t: Tally, k: Key, ts: nat): Tally
  {
    match k.kind
    case Pod => t.(pods := t.pods + 1)
    case Claim => t.(claims := t.claims + 1)
    case StorageClass => t.(classes := t.classes + 1, others := if k == ClassKey(ts) then t.others else t.others + 1)
    case ConfigMap => t.(maps := t.maps + 1)
    case NodePool => t
  }

  lemma SmallerSet<T>(a: set<T>, b: set<T>)
    requires a <= b
    ensures |a| <= |b|
  {
    assert b == a + (b - a);
  }

  lemma CountShrinks(st: Objects, st': Objects, c: Checker, kind: Kind)
    requires forall k | k in st' && k.kind == kind && Selects(OwnSelector(c), st'[k].labels) ::
              k in st && st[k] == st'[k]
    ensures Count(st', c, kind) <= Count(st, c, kind)
  {
    SmallerSet(Matching(st', kind, Scope(c, kind), OwnSelector(c)), Matching(st, kind, Scope(c, kind), OwnSelector(c)));
  }

  lemma OtherClassesShrink(st: Objects, st': Objects, c: Checker, ts: nat)
    requires forall k | k in st' && k.kind.StorageClass? && k != ClassKey(ts)
              && Selects(OwnSelector(c), st'[k].labels) ::
               k in st && st[k] == st'[k]
    ensures OtherClasses(st', c, ts) <= OtherClasses(st, c, ts)
  {
    SmallerSet(Matching(st', StorageClass, "", OwnSelector(c)) - {ClassKey(ts)},
               Matching(st, StorageClass, "", OwnSelector(c)) - {ClassKey(ts)});
  }

  // Without a creation by this checker nothing grows.
  lemma TallyShrinks(c: Checker, st: Objects, st': Objects, ts: nat)
    requires forall k | k in st' && !k.kind.NodePool? && Selects(OwnSelector(c), st'[k].labels) ::
              k in st && st[k] == st'[k]
    ensures AtMost(TallyOf(c, st', ts), TallyOf(c, st, ts))
  {
    CountShrinks(st, st', c, Pod);
    CountShrinks(st, st', c, Claim);
    CountShrinks(st, st', c, StorageClass);
    CountShrinks(st, st', c, ConfigMap);
    OtherClassesShrink(st, st', c, ts);
  }

  lemma CountGrowsByOne(st: Objects, st': Objects, c: Checker, k: Key)
    requires forall x | x in st' && x != k :: x in st && st[x] == st'[x]
    ensures Count(st', c, k.kind) <= Count(st, c, k.kind) + 1
  {
    var m := Matching(st, k.kind, Scope(c, k.kind), OwnSelector(c));
    var m' := Matching(st', k.kind, Scope(c, k.kind), OwnSelector(c));
    SmallerSet(m', m + {k});
  }

  lemma TallyBumps(c: Checker, st: Objects, st': Objects, k: Key, ts: nat)
    requires forall x | x in st' && x != k :: x in st && st[x] == st'[x]
    ensures AtMost(TallyOf(c, st', ts), Bump(TallyOf(c, st, ts), k, ts))
  {
    KindBumps(c, st, st', k, Pod);
    KindBumps(c, st, st', k, Claim);
    KindBumps(c, st, st', k, StorageClass);
    KindBumps(c, st, st', k, ConfigMap);
    OthersBump(c, st, st', k, ts);
  }

  lemma KindBumps(c: Checker, st: Objects, st': Objects, k: Key, kind: Kind)
    requires forall x | x in st' && x != k :: x in st && st[x] == st'[x]
    ensures Count(st', c, kind) <= Count(st, c, kind) + if kind == k.kind then 1 else 0
  {
    if kind == k.kind {
      CountGrowsByOne(st, st', c, k);
    } else {
      CountShrinks(st, st', c, kind);
    }
  }

  lemma OthersBump(c: Checker, st: Objects, st': Objects, k: Key, ts: nat)
    requires forall x | x in st' && x != k :: x in st && st[x] == st'[x]
    ensures OtherClasses(st', c, ts)
            <= OtherClasses(st, c, ts) + if k.kind.StorageClass? && k != ClassKey(ts) then 1 else 0
  {
    if k.kind.StorageClass? && k != ClassKey(ts) {
      SmallerSet(Matching(st', StorageClass, "", OwnSelector(c)) - {ClassKey(ts)},
                 Matching(st, StorageClass, "", OwnSelector(c)) - {ClassKey(ts)} + {k});
    } else {
      OtherClassesShrink(st, st', c, ts);
    }
  }

  lemma TallySane(c: Checker, st: Objects, ts: nat)
    ensures var t := TallyOf(c, st, ts); t.others <= t.classes <= t.others + 1
  {
  }

  // ---- The CSI plan ----

  function ClaimsIn(plan: seq<Planned>): nat
  {
    if plan == [] then 0 else (if plan[0].key.kind.Claim? then 1 else 0) + ClaimsIn(plan[1..])
  }

  lemma {:induction false} ClaimsInAppend(p: seq<Planned>, q: seq<Planned>)
    ensures ClaimsIn(p + q) == ClaimsIn(p) + ClaimsIn(q)
  {
    if p == [] {
      assert p + q == q;
    } else {
      ClaimsInAppend(p[1..], q);
      assert (p + q)[1..] == p[1..] + q;
    }
  }

  lemma EntryClaims(c: Checker, t: CsiType, ts: nat)
    ensures ClaimsIn(Entry(c, t, ts)) == if t.OtherCsi? then 0 else 1
  {
    var claim := Planned(ClaimKey(c, t, ts), ClaimSpec(ClaimClass(t, ts)));
    assert ClaimsIn([claim]) == 1;
    if t.AzureFile? {
      assert Entry(c, t, ts)[1..] == [claim];
    }
  }

  lemma {:induction false} PlanClaims(c: Checker, csis: seq<CsiType>, ts: nat)
    ensures ClaimsIn(PlanOf(c, csis, ts)) <= |csis|
  {
    if csis != [] && !csis[0].OtherCsi? {
      PlanClaims(c, csis[1..], ts);
      EntryClaims(c, csis[0], ts);
      ClaimsInAppend(Entry(c, csis[0], ts), PlanOf(c, csis[1..], ts));
    }
  }

  // A plan creates claims in the checker's namespace and at most the one storage class of its run.
  lemma {:induction false} PlanKeys(c: Checker, csis: seq<CsiType>, ts: nat, j: nat)
    requires j < |PlanOf(c, csis, ts)|
    ensures var k := PlanOf(c, csis, ts)[j].key;
            || (k == ClassKey(ts) && AzureFile in csis)
            || (exists t: CsiType :: t in csis && !t.OtherCsi? && k == ClaimKey(c, t, ts))
  {
    var e := Entry(c, csis[0], ts);
    if j < |e| {
      assert csis[0] in csis;
      if e[j].key != ClassKey(ts) {
        assert e[j].key == ClaimKey(c, csis[0], ts);
      }
    } else {
      PlanKeys(c, csis[1..], ts, j - |e|);
      var k := PlanOf(c, csis[1..], ts)[j - |e|].key;
      if !(k == ClassKey(ts) && AzureFile in csis[1..]) {
        var t :| t in csis[1..] && !t.OtherCsi? && k == ClaimKey(c, t, ts);
        assert t in csis;
      }
    }
  }

  // ---- Limits kept by one checker ----

  // Pods still to come from the current run.
  function PodsAhead(pc: Pc): nat
  {
    if pc.CheckCrd? || pc.CreatePool? || pc.CreatePod? then 1 else 0
  }

  function ClaimsAhead(c: Checker, pc: Pc): nat
  {
    match pc
    case LimitClasses(_, _) => if c.PodStartup? then |c.csis| else 0
    case CsiCreate(ts, j) => if j <= |Plan(c, ts)| then ClaimsIn(Plan(c, ts)[j..]) else 0
    case _ => 0
  }

  function MapsAhead(c: Checker, pc: Pc): nat
  {
    if pc.CreateMap? || (pc.TakeStamp? && c.ApiServer?) then 1 else 0
  }

  // The run has read a storage class list with room.
  predicate Cleared(c: Checker, pc: Pc)
  {
    && c.PodStartup?
    && match pc
       case LimitClasses(_, i) => i <= |c.csis| && AzureFile in c.csis[..i]
       case CsiCreate(_, _) => AzureFile in c.csis
       case _ => false
  }

  function StampAt(pc: Pc): nat
  {
    match pc
    case LimitClaims(ts) => ts
    case LimitClasses(ts, _) => ts
    case CsiCreate(ts, _) => ts
    case _ => 0
  }

  predicate Fits(c: Checker, t: Tally, pc: Pc)
  {
    && (c.PodStartup? ==>
          && t.pods + PodsAhead(pc) <= c.maxPods
          && (c.csis != [] ==> t.claims + ClaimsAhead(c, pc) <= PerCsi(c.maxPods + 1, c.csis) - 1)
          && (if Cleared(c, pc) then t.others <= c.maxPods - 1 else t.classes <= c.maxPods))
    && (c.ApiServer? ==> t.maps + MapsAhead(c, pc) <= c.maxObjects)
  }

  // The limits as configured.
  predicate Limited(c: Checker, t: Tally)
  {
    && (c.PodStartup? ==>
          && t.pods <= c.maxPods
          && (c.csis != [] ==> t.claims <= PerCsi(c.maxPods + 1, c.csis) - 1)
          && t.classes <= c.maxPods)
    && (c.ApiServer? ==> t.maps <= c.maxObjects)
  }

  // Program points from which nothing more is created before the next limit check.
  predicate Settled(c: Checker, pc: Pc)
  {
    PodsAhead(pc) == 0 && ClaimsAhead(c, pc) == 0 && MapsAhead(c, pc) == 0 && !Cleared(c, pc)
  }

  predicate ReadsLimit(c: Checker, pc: Pc)
  {
    || pc.LimitClaims? || pc.LimitClasses? || pc.ListPods? || pc.CheckCrd? || pc.LimitMaps?
    || (pc.TakeStamp? && c.ApiServer?)
  }

  lemma QuietSettles(c: Checker, pc: Pc, r: Reply)
    requires Belongs(c, pc) && !ReadsLimit(c, pc) && !Want(c, pc).Create?
    requires pc.TakeStamp? ==> r.Time?
    ensures Settled(c, Resume(c, pc, r))
  {
  }

  // What the limit lists have to do with the tally.
  predicate Counted(pc: Pc, r: Reply, t: Tally)
  {
    r.Items? ==>
      && (pc.LimitClaims? ==> |r.items| == t.claims)
      && (pc.LimitClasses? ==> |r.items| == t.classes)
      && (pc.ListPods? ==> |r.items| == t.pods)
      && (pc.LimitMaps? ==> |r.items| == t.maps)
  }

  lemma {:induction false} PerCsiNext(n: int, csis: seq<CsiType>)
    ensures PerCsi(n + 1, csis) == PerCsi(n, csis) + |csis|
  {
    if csis != [] {
      PerCsiNext(n, csis[1..]);
    }
  }

  lemma {:induction false} PerCsiIsProduct(n: int, csis: seq<CsiType>)
    ensures PerCsi(n, csis) == n * |csis|
  {
    if csis != [] {
      PerCsiIsProduct(n, csis[1..]);
    }
  }

  lemma ReadLimit(c: Checker, pc: Pc, r: Reply, t: Tally)
    requires Belongs(c, pc) && ReadsLimit(c, pc) && Counted(pc, r, t)
    requires pc.TakeStamp? ==> r.Time?
    requires Fits(c, t, pc) && t.others <= t.classes <= t.others + 1
    ensures Fits(c, t, Resume(c, pc, r))
  {
    match pc {
      case LimitClaims(ts) =>
        if r.Items? && |r.items| < PerCsi(c.maxPods, c.csis) {
          PerCsiNext(c.maxPods, c.csis);
          LimitNextFits(c, t, ts, 0);
        }
      case LimitClasses(ts, i) =>
        if r.Items? && |r.items| < c.maxPods {
          LimitNextFits(c, t, ts, i + 1);
        }
      case _ =>
    }
  }

  lemma {:induction false} LimitNextFits(c: Checker, t: Tally, ts: nat, i: nat)
    requires c.PodStartup? && i <= |c.csis|
    requires Limited(c, t) && t.claims + |c.csis| <= PerCsi(c.maxPods + 1, c.csis) - 1
    requires AzureFile in c.csis[..i] ==> t.others <= c.maxPods - 1
    ensures Fits(c, t, LimitNext(c, ts, i))
    decreases |c.csis| - i
  {
    if i == |c.csis| {
      assert c.csis[..i] == c.csis;
      PlanClaims(c, c.csis, ts);
      assert Plan(c, ts)[0..] == Plan(c, ts);
    } else if !c.csis[i].AzureFile? {
      assert c.csis[..i + 1] == c.csis[..i] + [c.csis[i]];
      LimitNextFits(c, t, ts, i + 1);
    }
  }

  lemma CreationPoints(c: Checker, pc: Pc, r: Reply)
    requires Belongs(c, pc) && Want(c, pc).Create?
    ensures pc.CsiCreate? || pc.CreatePool? || pc.CreatePod? || pc.CreateMap?
    ensures Settled(c, Resume(c, pc, r))
            || (pc.CreatePool? && Resume(c, pc, r) == CreatePod(pc.ts))
            || (pc.CsiCreate? && Resume(c, pc, r) == CsiCreate(pc.ts, pc.j + 1))
  {
  }

  lemma CreationFits(c: Checker, pc: Pc, r: Reply, t: Tally, t': Tally)
    requires Belongs(c, pc) && Want(c, pc).Create?
    requires Fits(c, t, pc) && AtMost(t', Bump(t, Want(c, pc).key, StampAt(pc)))
    requires t.others <= t.classes <= t.others + 1 && t'.others <= t'.classes <= t'.others + 1
    ensures Fits(c, t', Resume(c, pc, r))
  {
    CreationPoints(c, pc, r);
    if pc.CsiCreate? {
      var plan := Plan(c, pc.ts);
      PlanKeys(c, c.csis, pc.ts, pc.j);
      assert plan[pc.j..][1..] == plan[pc.j + 1..];
    }
  }

  // ---- One step and one checker ----

  ghost predicate Room(c: Checker, st: Objects, pc: Pc)
  {
    Fits(c, TallyOf(c, st, StampAt(pc)), pc)
  }

  ghost predicate WithinLimits(c: Checker, st: Objects)
  {
    Limited(c, TallyOf(c, st, 0))
  }

  lemma LimitedFits(c: Checker, pc: Pc, t: Tally)
    requires Limited(c, t) && Settled(c, pc)
    ensures Fits(c, t, pc)
  {
  }

  lemma RoomIsWithinLimits(c: Checker, st: Objects, pc: Pc)
    requires Room(c, st, pc)
    ensures WithinLimits(c, st)
  {
  }

  lemma ShrinkingKeepsRoom(c: Checker, st: Objects, st': Objects, pc: Pc)
    requires forall k | k in st' && !k.kind.NodePool? && Selects(OwnSelector(c), st'[k].labels) ::
              k in st && st[k] == st'[k]
    requires Room(c, st, pc)
    ensures Room(c, st', pc)
  {
    TallyShrinks(c, st, st', StampAt(pc));
  }

  // A creation by another checker is invisible to this one.
  lemma ForeignStep(c: Checker, other: Checker, gran: nat, s: Step, own: Pc)
    requires other.name != c.name
    requires CallStep(other, gran, s)
    requires Room(c, s.st, own)
    ensures Room(c, s.st', own)
  {
    ForeignObjects(c, other, gran, s);
    ShrinkingKeepsRoom(c, s.st, s.st', own);
  }

  // Another checker's call adds nothing with this checker's label but node pools.
  lemma ForeignObjects(c: Checker, other: Checker, gran: nat, s: Step)
    requires other.name != c.name && CallStep(other, gran, s)
    ensures forall k | k in s.st' && !k.kind.NodePool? && Selects(OwnSelector(c), s.st'[k].labels) ::
              k in s.st && s.st[k] == s.st'[k]
  {
    var req := Want(other, s.before);
    ServesFrame(gran, s.st, req, s.at, s.stamp, s.fault, s.reply, s.st');
    if req.Create? {
      CreationLabels(other, s.before);
    }
  }

  lemma StampKept(c: Checker, pc: Pc, r: Reply)
    requires Belongs(c, pc) && Cleared(c, Resume(c, pc, r))
    ensures StampAt(Resume(c, pc, r)) == StampAt(pc)
  {
    if pc.LimitClaims? {
      LimitNextStamp(c, pc.ts, 0);
    } else if pc.LimitClasses? {
      LimitNextStamp(c, pc.ts, pc.i + 1);
    }
  }

  lemma {:induction false} LimitNextStamp(c: Checker, ts: nat, i: nat)
    requires c.PodStartup?
    ensures var pc := LimitNext(c, ts, i); StampAt(pc) == ts || !Cleared(c, pc)
    decreases |c.csis| - i
  {
    if i < |c.csis| && !c.csis[i].AzureFile? {
      LimitNextStamp(c, ts, i + 1);
    }
  }

  // The kind whose list a limit check reads.
  function LimitKind(pc: Pc): Kind
  {
    if pc.LimitClaims? then Claim else if pc.LimitClasses? then StorageClass
    else if pc.ListPods? then Pod else ConfigMap
  }

  lemma ListsCounted(c: Checker, gran: nat, s: Step)
    requires CallStep(c, gran, s)
    requires s.reply.Items?
    requires s.before.LimitClaims? || s.before.LimitClasses? || s.before.ListPods? || s.before.LimitMaps?
    ensures |s.reply.items| == Count(s.st, c, LimitKind(s.before))
  {
  }

  // What a step of its own does to a checker's tally.
  lemma OwnStepTally(c: Checker, gran: nat, s: Step, ts: nat)
    requires CallStep(c, gran, s)
    ensures var t, t' := TallyOf(c, s.st, ts), TallyOf(c, s.st', ts);
            if Want(c, s.before).Create? then AtMost(t', Bump(t, Want(c, s.before).key, ts)) else AtMost(t', t)
  {
    ServesFrame(gran, s.st, Want(c, s.before), s.at, s.stamp, s.fault, s.reply, s.st');
    if Want(c, s.before).Create? {
      TallyBumps(c, s.st, s.st', Want(c, s.before).key, ts);
    } else {
      TallyShrinks(c, s.st, s.st', ts);
    }
  }

  lemma OwnStepFits(c: Checker, pc: Pc, r: Reply, t: Tally, t': Tally)
    requires Belongs(c, pc) && Counted(pc, r, t) && (pc.TakeStamp? ==> r.Time?)
    requires t.others <= t.classes <= t.others + 1 && t'.others <= t'.classes <= t'.others + 1
    requires if Want(c, pc).Create? then AtMost(t', Bump(t, Want(c, pc).key, StampAt(pc))) else AtMost(t', t)
    requires Fits(c, t, pc)
    ensures Fits(c, t', Resume(c, pc, r))
  {
    if Want(c, pc).Create? {
      CreationFits(c, pc, r, t, t');
    } else if ReadsLimit(c, pc) {
      ReadLimit(c, pc, r, t);
      LessFits(c, Resume(c, pc, r), t, t');
    } else {
      QuietSettles(c, pc, r);
      LessFits(c, pc, t, t');
    }
  }

  lemma LessFits(c: Checker, pc: Pc, t: Tally, t': Tally)
    requires Fits(c, t, pc) && AtMost(t', t)
    ensures Fits(c, t', pc)
  {
  }

  lemma OwnStep(c: Checker, gran: nat, s: Step)
    requires CallStep(c, gran, s)
    requires Room(c, s.st, s.before)
    ensures Room(c, s.st', s.after)
  {
    var ts := StampAt(s.before);
    TallySane(c, s.st, ts);
    TallySane(c, s.st', ts);
    OwnStepTally(c, gran, s, ts);
    if s.reply.Items?
       && (s.before.LimitClaims? || s.before.LimitClasses? || s.before.ListPods? || s.before.LimitMaps?) {
      ListsCounted(c, gran, s);
    }
    OwnStepFits(c, s.before, s.reply, TallyOf(c, s.st, ts), TallyOf(c, s.st', ts));
    if Cleared(c, s.after) {
      StampKept(c, s.before, s.reply);
    }
  }

  // ---- Every reachable state ----

  ghost predicate RoomForAll(env: Env, w: World)
  {
    && |w.locals| == |env.chks|
    && forall i | 0 <= i < |env.chks| :: Room(env.chks[i], w.store, w.locals[i].pc)
  }

  lemma CallKeepsRoom(env: Env, w: World, e: Event, w': World, i: nat)
    requires DistinctNames(env.chks) && e.Call? && Next(env, w, e, w') && i < |env.chks|
    requires Room(env.chks[i], w.store, w.locals[i].pc)
    ensures Room(env.chks[i], w'.store, w'.locals[i].pc)
  {
    var c, other, pc, pc' := env.chks[i], env.chks[e.i], w.locals[e.i].pc, w'.locals[e.i].pc;
    if e.i == i {
      OwnStep(c, env.gran, StepBy(w, e, w'));
    } else {
      ForeignStep(c, other, env.gran, StepBy(w, e, w'), w.locals[i].pc);
    }
  }

  lemma AtRest(c: Checker, st: Objects, pc: Pc)
    requires WithinLimits(c, st) && (pc == Idle || pc == Start(c))
    ensures Room(c, st, pc)
  {
    assert StampAt(pc) == 0;
    LimitedFits(c, pc, TallyOf(c, st, 0));
  }

  lemma ResetKeepsRoom(c: Checker, st: Objects, pc: Pc, pc': Pc)
    requires Room(c, st, pc) && (pc' == Idle || pc' == Start(c))
    ensures Room(c, st, pc')
  {
    RoomIsWithinLimits(c, st, pc);
    AtRest(c, st, pc');
  }

  lemma RoomNext(env: Env, w: World, e: Event, w': World)
    requires DistinctNames(env.chks)
    requires Next(env, w, e, w') && RoomForAll(env, w)
    ensures RoomForAll(env, w')
  {
    forall i | 0 <= i < |env.chks| ensures Room(env.chks[i], w'.store, w'.locals[i].pc) {
      match e {
        case Begin(j, _) => if i == j { ResetKeepsRoom(env.chks[i], w.store, w.locals[i].pc, w'.locals[i].pc); }
        case Call(_, _, _, _, _, _) => CallKeepsRoom(env, w, e, w', i);
        case Vanish(k) => ShrinkingKeepsRoom(env.chks[i], w.store, w'.store, w.locals[i].pc);
        case Crash => ResetKeepsRoom(env.chks[i], w.store, w.locals[i].pc, Idle);
      }
    }
  }

  lemma RoomInit(env: Env, w: World)
    requires Init(env, w) && forall i | 0 <= i < |env.chks| :: WithinLimits(env.chks[i], w.store)
    ensures Wellformed(env, w) && RoomForAll(env, w)
  {
    forall i | 0 <= i < |env.chks| ensures Room(env.chks[i], w.store, w.locals[i].pc) {
      AtRest(env.chks[i], w.store, Idle);
    }
  }

  lemma {:induction false} RoomHolds(env: Env, ws: seq<World>, es: seq<Event>, n: nat)
    requires DistinctNames(env.chks) && Behaviour(env, ws, es) && n < |ws|
    requires forall i | 0 <= i < |env.chks| :: WithinLimits(env.chks[i], ws[0].store)
    ensures Wellformed(env, ws[n]) && RoomForAll(env, ws[n])
  {
    if n == 0 {
      RoomInit(env, ws[0]);
    } else {
      RoomHolds(env, ws, es, n - 1);
      WellformedNext(env, ws[n - 1], es[n - 1], ws[n]);
      RoomNext(env, ws[n - 1], es[n - 1], ws[n]);
    }
  }

  // In every state of every behaviour that starts within the limits, every checker is within its limits.
  lemma LimitsHold(env: Env, ws: seq<World>, es: seq<Event>, n: nat, i: nat)
    requires DistinctNames(env.chks) && Behaviour(env, ws, es) && n < |ws| && i < |env.chks|
    requires forall k | 0 <= k < |env.chks| :: WithinLimits(env.chks[k], ws[0].store)
    ensures var c, st := env.chks[i], ws[n].store;
            && (c.PodStartup? ==> Count(st, c, Pod) <= c.maxPods && Count(st, c, StorageClass) <= c.maxPods)
            && (c.PodStartup? && c.csis != [] ==> Count(st, c, Claim) <= (c.maxPods + 1) * |c.csis| - 1)
            && (c.ApiServer? ==> Count(st, c, ConfigMap) <= c.maxObjects)
  {
    RoomHolds(env, ws, es, n);
    RoomIsWithinLimits(env.chks[i], ws[n].store, ws[n].locals[i].pc);
    if env.chks[i].PodStartup? {
      PerCsiIsProduct(env.chks[i].maxPods + 1, env.chks[i].csis);
    }
  }
}
