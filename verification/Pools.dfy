// Node pools are collected by label key alone, with no regard to age or owner: exactly which checkers
// can take the pool of another checker's run while that run is still going.
module Pools {
  import opened Cluster
  import opened Protocol
  import opened System
  import opened Ownership
  import opened Stories

  // ---- Who made a node pool ----

  // A pool named after a run was made by that run, whose checker provisions nodes.
  ghost predicate PoolSigned(env: Env, births: map<nat, Birth>, k: Key, labels: map<string, string>)
  {
    && Stamp(k).Some? && Stamp(k).value in births
    && var o := births[Stamp(k).value].owner;
       && o < |env.chks| && env.chks[o].PodStartup? && env.chks[o].provisioning
       && labels == PoolLabels(env.chks[o], Stamp(k).value)
  }

  ghost predicate PoolsSigned(env: Env, births: map<nat, Birth>, st: Objects)
  {
    forall k | k in st && k.kind.NodePool? && Stamp(k).Some? :: PoolSigned(env, births, k, st[k].labels)
  }

  predicate Provisions(pc: Pc)
  {
    match pc
    case GcList(kind) => kind.NodePool?
    case GcDelete(kind, _) => kind.NodePool?
    case CheckCrd(_) => true
    case CreatePool(_) => true
    case DeletePool(_, _) => true
    case _ => false
  }

  // A pool on the list of checker i, if named after a run, has i's label key.
  ghost predicate SharesKey(env: Env, births: map<nat, Birth>, i: nat, k: Key)
    requires i < |env.chks|
  {
    Stamp(k).Some? ==>
      && Stamp(k).value in births && births[Stamp(k).value].owner < |env.chks|
      && env.chks[births[Stamp(k).value].owner].labelKey == env.chks[i].labelKey
  }

  ghost predicate PoolLocal(env: Env, births: map<nat, Birth>, i: nat, l: Local)
    requires i < |env.chks|
  {
    && (Provisions(l.pc) ==> env.chks[i].PodStartup? && env.chks[i].provisioning)
    && (l.pc.GcDelete? && l.pc.kind.NodePool? ==>
          forall n | 0 <= n < |l.pc.todo| :: SharesKey(env, births, i, l.pc.todo[n].key))
  }

  ghost predicate PoolInv(env: Env, w: World)
  {
    && Inv(env, w)
    && PoolsSigned(env, w.births, w.store)
    && forall i | 0 <= i < |w.locals| :: PoolLocal(env, w.births, i, w.locals[i])
  }

  lemma {:induction false} LimitNextProvisions(c: Checker, ts: nat, i: nat)
    requires c.PodStartup?
    ensures !Provisions(LimitNext(c, ts, i))
    decreases |c.csis| - i
  {
    if i < |c.csis| && !c.csis[i].AzureFile? {
      LimitNextProvisions(c, ts, i + 1);
    }
  }

  // Only a provisioning checker gets to where pools are dealt with.
  lemma ProvisionsFlow(c: Checker, pc: Pc, r: Reply)
    requires Belongs(c, pc) && (Provisions(pc) ==> c.PodStartup? && c.provisioning)
    ensures Provisions(Resume(c, pc, r)) ==> c.PodStartup? && c.provisioning
  {
    if pc.LimitClaims? {
      LimitNextProvisions(c, pc.ts, 0);
    } else if pc.LimitClasses? {
      LimitNextProvisions(c, pc.ts, pc.i + 1);
    }
  }

  // The pools to delete are those listed, in order.
  lemma PoolsFlow(c: Checker, pc: Pc, r: Reply)
    requires Belongs(c, pc)
    ensures var pc' := Resume(c, pc, r);
            pc'.GcDelete? && pc'.kind.NodePool? ==>
              || (pc == GcList(NodePool) && r.Items? && pc'.todo == r.items)
              || (pc.GcDelete? && pc.kind.NodePool? && pc'.todo == pc.todo[1..])
  {
    if pc.LimitClaims? {
      LimitNextProvisions(c, pc.ts, 0);
    } else if pc.LimitClasses? {
      LimitNextProvisions(c, pc.ts, pc.i + 1);
    }
  }

  lemma ListedShareKey(env: Env, births: map<nat, Birth>, st: Objects, i: nat, items: seq<Item>)
    requires i < |env.chks| && PoolsSigned(env, births, st)
    requires Lists(items, st, Matching(st, NodePool, "", HasKey(env.chks[i].labelKey)))
    ensures forall n | 0 <= n < |items| :: SharesKey(env, births, i, items[n].key)
  {
    forall n | 0 <= n < |items| && Stamp(items[n].key).Some? ensures SharesKey(env, births, i, items[n].key) {
      assert PoolSigned(env, births, items[n].key, st[items[n].key].labels);
    }
  }

  lemma OwnPoolLocal(env: Env, w: World, e: Event, w': World)
    requires PoolInv(env, w) && e.Call? && Next(env, w, e, w')
    ensures PoolLocal(env, w'.births, e.i, w'.locals[e.i])
  {
    var c, pc := env.chks[e.i], w.locals[e.i].pc;
    ProvisionsFlow(c, pc, e.reply);
    PoolsFlow(c, pc, e.reply);
    if pc == GcList(NodePool) && e.reply.Items? {
      ListedShareKey(env, w.births, w.store, e.i, e.reply.items);
    }
  }

  lemma PoolsStaySigned(env: Env, w: World, e: Event, w': World)
    requires PoolInv(env, w) && e.Call? && Next(env, w, e, w')
    ensures PoolsSigned(env, w'.births, w'.store)
  {
    var c, pc := env.chks[e.i], w.locals[e.i].pc;
    ServesFrame(env.gran, w.store, Want(c, pc), e.at, e.stamp, e.fault, e.reply, w'.store);
    OwnKeys(c, pc);
    if Want(c, pc).Create? {
      CreationLabels(c, pc);
    }
  }

  lemma PoolInvNext(env: Env, w: World, e: Event, w': World)
    requires PoolInv(env, w) && Next(env, w, e, w')
    ensures PoolInv(env, w')
  {
    InvNext(env, w, e, w');
    if e.Call? {
      OwnPoolLocal(env, w, e, w');
      PoolsStaySigned(env, w, e, w');
    }
  }

  lemma {:induction false} PoolInvHolds(env: Env, ws: seq<World>, es: seq<Event>, n: nat)
    requires Behaviour(env, ws, es) && n < |ws|
    requires SignedStore(env, ws[0].births, ws[0].store) && PoolsSigned(env, ws[0].births, ws[0].store)
    ensures PoolInv(env, ws[n])
  {
    if n > 0 {
      PoolInvHolds(env, ws, es, n - 1);
      PoolInvNext(env, ws[n - 1], es[n - 1], ws[n]);
    }
  }

  // Whatever happens, a pool named after a run is deleted by that run itself or by the collection of
  // a provisioning checker with the same label key.
  lemma PoolsTakenByKey(env: Env, ws: seq<World>, es: seq<Event>, n: nat, k: Key)
    requires Behaviour(env, ws, es) && n < |es|
    requires SignedStore(env, ws[0].births, ws[0].store) && PoolsSigned(env, ws[0].births, ws[0].store)
    requires Deletes(env, ws[n], es[n], ws[n + 1], k) && k.kind.NodePool? && Stamp(k).Some?
    ensures Stamp(k).value in ws[n].births && ws[n].births[Stamp(k).value].owner < |env.chks|
    ensures var o, i := ws[n].births[Stamp(k).value].owner, es[n].i;
            var pc := ws[n].locals[i].pc;
            || (i == o && RunStamp(pc) == Stamp(k))
            || (pc.GcDelete? && env.chks[i].PodStartup? && env.chks[i].provisioning
                && env.chks[i].labelKey == env.chks[o].labelKey)
  {
    PoolInvHolds(env, ws, es, n);
    var c, pc := env.chks[es[n].i], ws[n].locals[es[n].i].pc;
    ServesFrame(env.gran, ws[n].store, Want(c, pc), es[n].at, es[n].stamp, es[n].fault, es[n].reply, ws[n + 1].store);
    OwnKeys(c, pc);
    assert PoolSigned(env, ws[n].births, k, ws[n].store[k].labels);
    if pc.GcDelete? {
      assert Todo(pc)[0].key == k;
      assert PoolLocal(env, ws[n].births, es[n].i, ws[n].locals[es[n].i]);
    }
  }

  // ---- Taking the pool of a run still going ----

  // The last event is checker c, number i, deleting the pool of the current run of checker `other`,
  // number o, before that run's deadline.
  ghost predicate Takes(c: Checker, other: Checker, env: Env, ws: seq<World>, es: seq<Event>, i: nat, o: nat, ts: nat)
  {
    && DistinctNames(env.chks) && i < |env.chks| && o < |env.chks| && i != o
    && env.chks[i] == c && env.chks[o] == other
    && Behaviour(env, ws, es) && es != []
    && SignedStore(env, ws[0].births, ws[0].store) && PoolsSigned(env, ws[0].births, ws[0].store)
    && (forall m | 0 <= m < |es| :: Truncating(env.gran, es[m]))
    && var n := |es| - 1;
       && Deletes(env, ws[n], es[n], ws[n + 1], PoolKey(other, ts)) && es[n].i == i
       && o < |ws[n].locals| && RunStamp(ws[n].locals[o].pc) == Some(ts) && es[n].at < ws[n].locals[o].deadline
  }

  // With timestamps in units of gran.
  ghost predicate CanTake(c: Checker, other: Checker, gran: nat)
  {
    exists env: Env, ws, es, i, o, ts :: env.gran == gran && Takes(c, other, env, ws, es, i, o, ts)
  }

  // The checker's runs get to make a pool.
  predicate MakesPools(c: Checker)
  {
    c.PodStartup? && c.provisioning && c.maxPods >= 1 && Creatable(c.csis) && c.timeout > 0
  }

  // The two checkers, for long enough.
  ghost predicate Pair(env: Env, c: Checker, other: Checker)
  {
    env.chks == [c, other] && env.gran > 0 && env.cancel >= c.timeout + other.timeout
  }

  // The other checker's run has made its pool.
  ghost predicate PoolMade(c: Checker, other: Checker, w: World)
    requires other.PodStartup?
  {
    && |w.locals| == 2 && w.locals[0] == Local(Idle, 0, 0, 0) && w.now == 0
    && w.locals[1].pc == CreatePod(0) && w.locals[1].deadline == other.timeout
    && PoolKey(other, 0) in w.store && w.store[PoolKey(other, 0)].labels == PoolLabels(other, 0)
    && forall k | k in w.store :: !k.kind.Pod? && (k.kind.NodePool? ==> k == PoolKey(other, 0))
  }

  lemma MakePool(env: Env, c: Checker, other: Checker) returns (w: World)
    requires Pair(env, c, other) && c.timeout > 0 && MakesPools(other)
    ensures PoolMade(c, other, w) && Leads(env, Origin(2), w)
  {
    var w0 := BeginRun(env, Origin(2), 1, 0);
    ToldBegin(env, Origin(2), 1, 0);
    var none := UpToClaims(env, w0, 1, map[], 0, 0);
    assert none == map[];
    LeadsOn(env, Origin(2), w0, At(w0, 1, GcList(Claim), map[], 0));
    var st := UpToPods(env, w0, 1, map[], 0, 0);
    var w1 := Stamped(w0, 1, 0);
    LeadsOn(env, Origin(2), At(w0, 1, GcList(Claim), map[], 0), At(w1, 1, ListPods(0), st, 0));
    UpToPodCreation(env, w1, 1, 0, st, 0);
    w := At(w1, 1, CreatePod(0), WithPool(other, 0, st, 0), 0);
    LeadsOn(env, Origin(2), At(w1, 1, ListPods(0), st, 0), w);
  }

  // The first checker's run then lists it for deletion.
  lemma ListPool(env: Env, c: Checker, other: Checker, w: World) returns (w': World)
    requires Pair(env, c, other) && c.PodStartup? && c.provisioning && c.timeout > 0
    requires other.PodStartup? && c.labelKey == other.labelKey && PoolMade(c, other, w)
    ensures |w'.locals| == 2 && w'.locals[1] == w.locals[1] && w'.store == w.store && w'.now == 0
    ensures w'.locals[0].pc == GcDelete(NodePool, [Item(PoolKey(other, 0), w.store[PoolKey(other, 0)].created)])
    ensures w'.locals[0] == Local(w'.locals[0].pc, 0, c.timeout, 0)
    ensures Leads(env, w, w')
  {
    var w0, st, k := BeginRun(env, w, 0, 0), w.store, PoolKey(other, 0);
    ToldBegin(env, w, 0, 0);
    CollectNone(env, w0, 0, Pod, st, 0, 0);
    LeadsOn(env, w, w0, At(w0, 0, GcList(NodePool), st, 0));
    var items := [Item(k, st[k].created)];
    assert Selected(c, NodePool, st) == {k};
    assert items[0].key in KeysOf(items);
    Told(env, w0, 0, GcList(NodePool), st, 0, 0, Items(items), st);
    w' := At(w0, 0, GcDelete(NodePool, items), st, 0);
    LeadsOn(env, w, At(w0, 0, GcList(NodePool), st, 0), w');
  }

  lemma StoryTakes(env: Env, c: Checker, other: Checker, ws: seq<World>, es: seq<Event>)
    requires Pair(env, c, other) && c.name != other.name && c.PodStartup? && MakesPools(other) && c.timeout > 0
    requires Story(env, ws, es) && ws[0] == Origin(2)
    requires var w, k := ws[|es|], PoolKey(other, 0);
             && |w.locals| == 2 && k in w.store && w.now == 0
             && w.locals[0] == Local(GcDelete(NodePool, [Item(k, w.store[k].created)]), 0, c.timeout, 0)
             && w.locals[1].pc == CreatePod(0) && w.locals[1].deadline == other.timeout
    ensures CanTake(c, other, env.gran)
  {
    var w, k := ws[|es|], PoolKey(other, 0);
    var e := Call(0, 0, 0, 0, Works, Status(None));
    var w' := At(w, 0, Resume(c, w.locals[0].pc, Status(None)), w.store - {k}, 0);
    assert Next(env, w, e, w');
    StoryAppend(env, ws, es, [w, w'], [e]);
    var ws', es' := ws + [w, w'][1..], es + [e];
    assert ws'[|es|] == w && ws'[|es| + 1] == w';
    assert Takes(c, other, env, ws', es', 0, 1, 0);
  }

  // Given another checker whose runs make pools, a checker can take the pool of one of its runs still
  // going exactly when it provisions nodes too and has the same label key.
  lemma TakesExactly(c: Checker, other: Checker, gran: nat)
    requires c.name != other.name && MakesPools(other) && c.timeout > 0 && gran > 0
    ensures CanTake(c, other, gran) <==> c.PodStartup? && c.provisioning && c.labelKey == other.labelKey
  {
    if c.PodStartup? && c.provisioning && c.labelKey == other.labelKey {
      var env := Env([c, other], gran, c.timeout + other.timeout);
      var w := MakePool(env, c, other);
      var w' := ListPool(env, c, other, w);
      LeadsOn(env, Origin(2), w, w');
      var ws, es :| Story(env, ws, es) && ws[0] == Origin(2) && ws[|es|] == w';
      StoryTakes(env, c, other, ws, es);
    }
    if env: Env, ws, es, i, o, ts :| env.gran == gran && Takes(c, other, env, ws, es, i, o, ts) {
      TakersShareKey(c, other, env, ws, es, i, o, ts);
    }
  }

  lemma TakersShareKey(c: Checker, other: Checker, env: Env, ws: seq<World>, es: seq<Event>, i: nat, o: nat, ts: nat)
    requires Takes(c, other, env, ws, es, i, o, ts)
    ensures c.PodStartup? && c.provisioning && c.labelKey == other.labelKey
  {
    var n := |es| - 1;
    PoolsTakenByKey(env, ws, es, n, PoolKey(other, ts));
    InvHolds(env, ws, es, n);
  }
}
