// Who may delete what: no checker touches another checker's objects, and garbage collection, even
// by a second process running the same checker, leaves live runs alone.
module Ownership {
  import opened Names
  import opened Cluster
  import opened Protocol
  import opened System

  // The run timestamp in a key's name.
  function Stamp(k: Key): Option<nat>
  {
    if k.name.Given? then None else Some(k.name.ts)
  }

  // The timestamp of the current run, once taken.
  function RunStamp(pc: Pc): Option<nat>
  {
    match pc
    case LimitClaims(ts) => Some(ts)
    case LimitClasses(ts, _) => Some(ts)
    case CsiCreate(ts, _) => Some(ts)
    case ListPods(ts) => Some(ts)
    case CheckCrd(ts) => Some(ts)
    case CreatePool(ts) => Some(ts)
    case CreatePod(ts) => Some(ts)
    case Observe(ts) => Some(ts)
    case DeletePod(ts, _) => Some(ts)
    case DeletePool(ts, _) => Some(ts)
    case CsiDelete(ts, _, _) => Some(ts)
    case CreateMap(ts) => Some(ts)
    case GetMap(ts) => Some(ts)
    case DeleteMap(ts) => Some(ts)
    case CleanMap(ts, _) => Some(ts)
    case _ => None
  }

  // ---- The protocol's keys ----

  lemma {:induction false} PlanStamps(c: Checker, csis: seq<CsiType>, ts: nat, j: nat)
    requires j < |PlanOf(c, csis, ts)|
    ensures Stamp(PlanOf(c, csis, ts)[j].key) == Some(ts)
  {
    var n := |Entry(c, csis[0], ts)|;
    if j >= n {
      PlanStamps(c, csis[1..], ts, j - n);
    }
  }

  // The storage objects a checker asks for can all be created: known types, none of them twice.
  predicate Creatable(csis: seq<CsiType>)
  {
    Supported(csis) && forall i, j | 0 <= i < j < |csis| :: csis[i] != csis[j]
  }

  // A known type's claim is planned. An Azure File claim names the run's own storage class, planned just
  // before it, the others the class provided for their type.
  lemma {:induction false} ClaimPlanned(c: Checker, csis: seq<CsiType>, ts: nat, t: CsiType) returns (j: nat)
    requires Supported(csis) && t in csis
    ensures j < |PlanOf(c, csis, ts)| && PlanOf(c, csis, ts)[j].key == ClaimKey(c, t, ts)
    ensures t.AzureFile? ==>
              && PlanOf(c, csis, ts)[j].spec == ClaimSpec(Custom(ClassName(ts)))
              && j > 0 && PlanOf(c, csis, ts)[j - 1].key == ClassKey(ts)
    ensures !t.AzureFile? ==> PlanOf(c, csis, ts)[j].spec == ClaimSpec(Builtin(t))
  {
    var e := Entry(c, csis[0], ts);
    if t == csis[0] {
      j := |e| - 1;
    } else {
      var m := ClaimPlanned(c, csis[1..], ts, t);
      j := |e| + m;
    }
  }

  // Which CSI type an entry of the plan is for.
  lemma {:induction false} PlanOrigin(c: Checker, csis: seq<CsiType>, ts: nat, j: nat) returns (n: nat)
    requires j < |PlanOf(c, csis, ts)|
    ensures n < |csis| && PlanOf(c, csis, ts)[j] in Entry(c, csis[n], ts)
  {
    var e := Entry(c, csis[0], ts);
    if j < |e| {
      n := 0;
    } else {
      var m := PlanOrigin(c, csis[1..], ts, j - |e|);
      n := m + 1;
    }
  }

  lemma EntriesApart(c: Checker, t: CsiType, u: CsiType, ts: nat, p: Planned, q: Planned)
    requires t != u && p in Entry(c, t, ts) && q in Entry(c, u, ts)
    ensures p.key != q.key
  {
  }

  lemma {:induction false} PlanDistinct(c: Checker, csis: seq<CsiType>, ts: nat, m: nat, n: nat)
    requires Creatable(csis) && m < n < |PlanOf(c, csis, ts)|
    ensures PlanOf(c, csis, ts)[m].key != PlanOf(c, csis, ts)[n].key
  {
    var e, rest := Entry(c, csis[0], ts), PlanOf(c, csis[1..], ts);
    if n >= |e| {
      if m < |e| {
        var o := PlanOrigin(c, csis[1..], ts, n - |e|);
        EntriesApart(c, csis[0], csis[1..][o], ts, e[m], rest[n - |e|]);
      } else {
        PlanDistinct(c, csis[1..], ts, m - |e|, n - |e|);
      }
    }
  }

  // Creations, and deletions outside garbage collection, name the run's own timestamp.
  lemma OwnKeys(c: Checker, pc: Pc)
    requires Belongs(c, pc)
    ensures Want(c, pc).Create? ==> RunStamp(pc).Some? && Stamp(Want(c, pc).key) == RunStamp(pc)
    ensures Want(c, pc).Delete? && !pc.GcDelete? ==> RunStamp(pc).Some? && Stamp(Want(c, pc).key) == RunStamp(pc)
  {
    if pc.CsiCreate? {
      PlanStamps(c, c.csis, pc.ts, pc.j);
    } else if pc.CsiDelete? {
      PlanStamps(c, c.csis, pc.ts, pc.j);
    }
  }

  lemma {:induction false} LimitNextRunStamp(c: Checker, ts: nat, i: nat)
    requires c.PodStartup?
    ensures RunStamp(LimitNext(c, ts, i)) in {None, Some(ts)}
    ensures !LimitNext(c, ts, i).GcAge? && !LimitNext(c, ts, i).GcDelete?
    decreases |c.csis| - i
  {
    if i < |c.csis| && !c.csis[i].AzureFile? {
      LimitNextRunStamp(c, ts, i + 1);
    }
  }

  // Until a run takes its timestamp it has none.
  lemma NoStampYet(c: Checker, pc: Pc, r: Reply)
    requires Belongs(c, pc) && RunStamp(pc).None? && !pc.TakeStamp?
    ensures RunStamp(Resume(c, pc, r)).None?
  {
  }

  // A step keeps the run's timestamp or takes the clock reading as one.
  lemma StampsFlow(c: Checker, pc: Pc, r: Reply)
    requires Belongs(c, pc)
    ensures var pc' := Resume(c, pc, r);
            || RunStamp(pc').None?
            || RunStamp(pc') == RunStamp(pc)
            || (pc.TakeStamp? && r.Time? && RunStamp(pc') == Some(r.t))
  {
    if pc.LimitClaims? {
      LimitNextRunStamp(c, pc.ts, 0);
    } else if pc.LimitClasses? {
      LimitNextRunStamp(c, pc.ts, pc.i + 1);
    } else if RunStamp(pc).None? && !pc.TakeStamp? {
      NoStampYet(c, pc, r);
    }
  }

  function Todo(pc: Pc): seq<Item>
  {
    match pc
    case GcAge(_, todo) => todo
    case GcDelete(_, todo) => todo
    case _ => []
  }

  function TodoKind(pc: Pc): Kind
  {
    match pc
    case GcList(kind) => kind
    case GcAge(kind, _) => kind
    case GcDelete(kind, _) => kind
    case _ => ConfigMap
  }

  // Garbage collection works through the list it got, in order.
  lemma TodosFlow(c: Checker, pc: Pc, r: Reply)
    requires Belongs(c, pc)
    ensures var pc' := Resume(c, pc, r);
            || Todo(pc') == []
            || (TodoKind(pc') == TodoKind(pc)
                && (|| (pc.GcList? && r.Items? && Todo(pc') == r.items)
                    || (Todo(pc') == Todo(pc))
                    || (Todo(pc) != [] && Todo(pc') == Todo(pc)[1..])))
    ensures Resume(c, pc, r).GcDelete? && !Resume(c, pc, r).kind.NodePool? ==>
              && r.Time? && pc.GcAge? && Todo(Resume(c, pc, r)) == pc.todo && r.t - pc.todo[0].created > c.timeout
  {
    if pc.LimitClaims? {
      LimitNextRunStamp(c, pc.ts, 0);
    } else if pc.LimitClasses? {
      LimitNextRunStamp(c, pc.ts, pc.i + 1);
    }
  }

  // ---- The invariant ----

  // An object of checker c, stamped by a run that began at `start`: its creation time is not
  // before that run by more than the truncation.
  ghost predicate Signed(env: Env, births: map<nat, Birth>, k: Key, labels: map<string, string>, created: int)
  {
    && Stamp(k).Some? && Stamp(k).value in births
    && var b := births[Stamp(k).value];
       && b.owner < |env.chks|
       && labels == Labels(env.chks[b.owner])
       && created > b.start - env.gran
  }

  // Named after a run or bearing the label of a checker. Everything else in the cluster is an outsider's.
  ghost predicate Concerns(env: Env, k: Key, labels: map<string, string>)
  {
    Stamp(k).Some? || exists i :: 0 <= i < |env.chks| && Selects(OwnSelector(env.chks[i]), labels)
  }

  ghost predicate SignedStore(env: Env, births: map<nat, Birth>, st: Objects)
  {
    forall k | k in st && !k.kind.NodePool? && Concerns(env, k, st[k].labels) ::
      Signed(env, births, k, st[k].labels, st[k].created)
  }

  ghost predicate LocalInv(env: Env, births: map<nat, Birth>, i: nat, l: Local)
    requires i < |env.chks|
  {
    && Belongs(env.chks[i], l.pc)
    && (Running(l.pc) ==> l.start <= l.clock && l.deadline <= l.start + env.chks[i].timeout)
    && (RunStamp(l.pc).Some? ==> RunStamp(l.pc).value in births && births[RunStamp(l.pc).value] == Birth(i, l.start))
    && (forall n | 0 <= n < |Todo(l.pc)| :: Todo(l.pc)[n].key.kind == TodoKind(l.pc))
    && (!TodoKind(l.pc).NodePool? ==>
          forall n | 0 <= n < |Todo(l.pc)| ::
            Signed(env, births, Todo(l.pc)[n].key, Labels(env.chks[i]), Todo(l.pc)[n].created))
    && (l.pc.GcDelete? && !l.pc.kind.NodePool? ==> l.clock - l.pc.todo[0].created > env.chks[i].timeout)
  }

  ghost predicate Inv(env: Env, w: World)
  {
    && |w.locals| == |env.chks|
    && SignedStore(env, w.births, w.store)
    && forall i | 0 <= i < |w.locals| :: LocalInv(env, w.births, i, w.locals[i])
  }

  // Selecting by its own label, a checker lists only objects signed with that label.
  lemma ListedAreOwn(env: Env, births: map<nat, Birth>, st: Objects, i: nat, kind: Kind, items: seq<Item>)
    requires i < |env.chks| && SignedStore(env, births, st) && !kind.NodePool?
    requires Lists(items, st, Matching(st, kind, Scope(env.chks[i], kind), OwnSelector(env.chks[i])))
    ensures forall n | 0 <= n < |items| :: Signed(env, births, items[n].key, Labels(env.chks[i]), items[n].created)
  {
  }

  lemma ListedKinds(st: Objects, kind: Kind, ns: string, sel: Selector, items: seq<Item>)
    requires Lists(items, st, Matching(st, kind, ns, sel))
    ensures forall n | 0 <= n < |items| :: items[n].key.kind == kind
  {
  }

  lemma StoreStaysSigned(env: Env, w: World, e: Event, w': World)
    requires Inv(env, w) && e.Call? && Next(env, w, e, w')
    ensures SignedStore(env, w'.births, w'.store)
  {
    var c, pc := env.chks[e.i], w.locals[e.i].pc;
    var req := Want(c, pc);
    ServesFrame(env.gran, w.store, req, e.at, e.stamp, e.fault, e.reply, w'.store);
    OwnKeys(c, pc);
    if req.Create? {
      CreationLabels(c, pc);
    }
  }

  lemma OwnLocalStays(env: Env, w: World, e: Event, w': World)
    requires Inv(env, w) && e.Call? && Next(env, w, e, w')
    ensures LocalInv(env, w'.births, e.i, w'.locals[e.i])
  {
    var c, l, l' := env.chks[e.i], w.locals[e.i], w'.locals[e.i];
    ResumeBelongs(c, l.pc, e.reply);
    StampsFlow(c, l.pc, e.reply);
    TodosFlow(c, l.pc, e.reply);
    if l.pc.GcList? && e.reply.Items? {
      ListedKinds(w.store, l.pc.kind, Scope(c, l.pc.kind), GcSelector(c, l.pc.kind), e.reply.items);
    }
    if l.pc.GcList? && !l.pc.kind.NodePool? && e.reply.Items? {
      ListedAreOwn(env, w.births, w.store, e.i, l.pc.kind, e.reply.items);
    }
  }

  lemma OtherLocalStays(env: Env, births: map<nat, Birth>, ts: nat, b: Birth, i: nat, l: Local)
    requires i < |env.chks| && LocalInv(env, births, i, l) && ts !in births
    ensures LocalInv(env, births[ts := b], i, l)
  {
  }

  lemma InvNext(env: Env, w: World, e: Event, w': World)
    requires Inv(env, w) && Next(env, w, e, w')
    ensures Inv(env, w')
  {
    if e.Call? {
      StoreStaysSigned(env, w, e, w');
      OwnLocalStays(env, w, e, w');
      forall i | 0 <= i < |w.locals| && i != e.i ensures LocalInv(env, w'.births, i, w'.locals[i]) {
        if w.locals[e.i].pc.TakeStamp? {
          OtherLocalStays(env, w.births, e.at, w'.births[e.at], i, w.locals[i]);
        }
      }
    }
  }

  lemma {:induction false} InvHolds(env: Env, ws: seq<World>, es: seq<Event>, n: nat)
    requires Behaviour(env, ws, es) && n < |ws|
    requires SignedStore(env, ws[0].births, ws[0].store)
    ensures Inv(env, ws[n])
  {
    if n > 0 {
      InvHolds(env, ws, es, n - 1);
      InvNext(env, ws[n - 1], es[n - 1], ws[n]);
    }
  }

  // ---- Deletions ----

  // Event e makes key k disappear by an API call of checker e.i.
  ghost predicate Deletes(env: Env, w: World, e: Event, w': World, k: Key)
  {
    Next(env, w, e, w') && e.Call? && k in w.store && k !in w'.store
  }

  lemma DeletedSigned(env: Env, w: World, e: Event, w': World, k: Key)
    requires Inv(env, w) && Deletes(env, w, e, w', k) && !k.kind.NodePool?
    ensures Signed(env, w.births, k, w.store[k].labels, w.store[k].created)
    ensures w.store[k].labels == Labels(env.chks[e.i])
    ensures var b := w.births[Stamp(k).value];
            if w.locals[e.i].pc.GcDelete? then e.at + env.gran >= b.start + env.chks[e.i].timeout + 2
            else b == Birth(e.i, w.locals[e.i].start)
    ensures w.locals[e.i].pc.GcDelete? ==>
              var item := w.locals[e.i].pc.todo[0]; item.key == k && e.at > item.created + env.chks[e.i].timeout
    ensures e.at < w.locals[e.i].deadline
  {
    var c, pc := env.chks[e.i], w.locals[e.i].pc;
    ServesFrame(env.gran, w.store, Want(c, pc), e.at, e.stamp, e.fault, e.reply, w'.store);
    OwnKeys(c, pc);
    if pc.GcDelete? {
      assert Todo(pc)[0].key == k;
    }
  }

  // With distinct names, whatever a checker deletes (NodePools apart) was made by that checker,
  // in the current run or, if garbage-collected, in a run of its own.
  lemma NonInterference(env: Env, ws: seq<World>, es: seq<Event>, n: nat, k: Key)
    requires DistinctNames(env.chks) && Behaviour(env, ws, es) && n < |es|
    requires SignedStore(env, ws[0].births, ws[0].store)
    requires Deletes(env, ws[n], es[n], ws[n + 1], k) && !k.kind.NodePool?
    ensures Stamp(k).Some? && Stamp(k).value in ws[n].births
    ensures ws[n].births[Stamp(k).value].owner == es[n].i
  {
    InvHolds(env, ws, es, n);
    DeletedSigned(env, ws[n], es[n], ws[n + 1], k);
    var o := ws[n].births[Stamp(k).value].owner;
    assert Labels(env.chks[o])[env.chks[o].labelKey] == env.chks[o].name;
    assert env.chks[o].labelKey in Labels(env.chks[es[n].i]);
  }

  // An object that neither is named after a run nor bears a checker's label stays, untouched, for as
  // long as no outsider takes it.
  lemma {:induction false} OutsidersStay(env: Env, ws: seq<World>, es: seq<Event>, n: nat, k: Key)
    requires Behaviour(env, ws, es) && n < |ws| && SignedStore(env, ws[0].births, ws[0].store)
    requires k in ws[0].store && !k.kind.NodePool? && !Concerns(env, k, ws[0].store[k].labels)
    requires forall m | 0 <= m < n :: es[m] != Vanish(k)
    ensures k in ws[n].store && ws[n].store[k] == ws[0].store[k]
  {
    if n > 0 {
      OutsidersStay(env, ws, es, n - 1, k);
      InvHolds(env, ws, es, n - 1);
      OutsiderStep(env, ws[n - 1], es[n - 1], ws[n], k);
    }
  }

  lemma OutsiderStep(env: Env, w: World, e: Event, w': World, k: Key)
    requires Inv(env, w) && Next(env, w, e, w') && e != Vanish(k)
    requires k in w.store && !k.kind.NodePool? && !Concerns(env, k, w.store[k].labels)
    ensures k in w'.store && w'.store[k] == w.store[k]
  {
    if e.Call? {
      ServesFrame(env.gran, w.store, Want(env.chks[e.i], w.locals[e.i].pc), e.at, e.stamp, e.fault, e.reply, w'.store);
      if k !in w'.store {
        DeletedSigned(env, w, e, w', k);
      } else {
        OwnKeys(env.chks[e.i], w.locals[e.i].pc);
      }
    }
  }

  // Checkers with the same label, as in two processes running one configuration, share the timeout.
  predicate SharedTimeouts(chks: seq<Checker>)
  {
    forall i, j | 0 <= i < |chks| && 0 <= j < |chks| && Labels(chks[i]) == Labels(chks[j]) ::
      chks[i].timeout == chks[j].timeout
  }

  // Garbage collection deletes an object no earlier than its run's deadline, less the truncation
  // of creation timestamps; strictly after the deadline with exact timestamps, and whenever the
  // timestamp it went by is not before that run. Holds for any number of overlapping processes
  // running the same checker.
  lemma GcSparesLiveRuns(env: Env, ws: seq<World>, es: seq<Event>, n: nat, k: Key)
    requires SharedTimeouts(env.chks) && Behaviour(env, ws, es) && n < |es|
    requires SignedStore(env, ws[0].births, ws[0].store)
    requires Deletes(env, ws[n], es[n], ws[n + 1], k) && !k.kind.NodePool? && ws[n].locals[es[n].i].pc.GcDelete?
    ensures Stamp(k).Some? && Stamp(k).value in ws[n].births && ws[n].births[Stamp(k).value].owner < |env.chks|
    ensures var b := ws[n].births[Stamp(k).value];
            && es[n].at >= b.start + env.chks[b.owner].timeout + 2 - env.gran
            && (env.gran <= 1 ==> es[n].at > b.start + env.chks[b.owner].timeout)
    ensures forall o | 0 <= o < |env.chks| && RunStamp(ws[n].locals[o].pc) == Stamp(k) ::
              ws[n].locals[o].deadline + 2 <= es[n].at + env.gran
    ensures var b, item := ws[n].births[Stamp(k).value], ws[n].locals[es[n].i].pc.todo[0];
            item.key == k && (item.created >= b.start ==> es[n].at > b.start + env.chks[b.owner].timeout)
  {
    InvHolds(env, ws, es, n);
    DeletedSigned(env, ws[n], es[n], ws[n + 1], k);
  }
}
