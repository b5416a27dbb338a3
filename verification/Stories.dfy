// Telling behaviours: stretches of behaviour in which every call made in time works and the cluster
// truncates timestamps to whole units, put together from the stages of a run.
module Stories {
  import opened Names
  import opened Cluster
  import opened Protocol
  import opened System
  import opened Ownership

  // The cluster stamps what is created with the whole unit it is made in.
  predicate Truncating(gran: nat, e: Event)
  {
    e.Call? ==> gran > 0 && e.stamp == RoundedDown(e.at, gran)
  }

  lemma Truncations(gran: nat)
    requires gran > 0
    ensures RoundedDown(gran - 1, gran) == 0 && RoundedDown(gran, gran) == gran
    ensures RoundedDown(2 * gran - 1, gran) == gran
  {
    assert RoundedDown(0, gran) == 0;
  }

  // Calls answered before their run's deadline work, nothing is taken away from outside and no process
  // restarts.
  predicate Orderly(w: World, e: Event)
  {
    match e
    case Begin(_, _) => true
    case Call(i, _, done, _, fault, _) => i < |w.locals| && (done < w.locals[i].deadline ==> fault.Works?)
    case _ => false
  }

  ghost predicate Story(env: Env, ws: seq<World>, es: seq<Event>)
  {
    Chain(env, ws, es) && forall n | 0 <= n < |es| :: Orderly(ws[n], es[n]) && Truncating(env.gran, es[n])
  }

  ghost predicate Leads(env: Env, w: World, w': World)
  {
    exists ws, es :: Story(env, ws, es) && ws[0] == w && ws[|es|] == w'
  }

  lemma LeadsNowhere(env: Env, w: World)
    ensures Leads(env, w, w)
  {
    assert Story(env, [w], []);
  }

  lemma LeadsOne(env: Env, w: World, e: Event, w': World)
    requires Next(env, w, e, w') && Orderly(w, e) && Truncating(env.gran, e)
    ensures Leads(env, w, w')
  {
    assert Story(env, [w, w'], [e]);
  }

  lemma StoryAppend(env: Env, ws: seq<World>, es: seq<Event>, ws': seq<World>, es': seq<Event>)
    requires Story(env, ws, es) && Story(env, ws', es') && ws[|es|] == ws'[0]
    ensures Story(env, ws + ws'[1..], es + es')
  {
    ChainAppend(env, ws, es, ws', es');
    var vs, fs := ws + ws'[1..], es + es';
    forall n | 0 <= n < |fs| ensures Orderly(vs[n], fs[n]) && Truncating(env.gran, fs[n]) {
      if n < |es| {
        assert vs[n] == ws[n];
      } else {
        assert vs[n] == ws'[n - |es|];
      }
    }
  }

  lemma LeadsOn(env: Env, a: World, b: World, c: World)
    requires Leads(env, a, b) && Leads(env, b, c)
    ensures Leads(env, a, c)
  {
    var ws, es :| Story(env, ws, es) && ws[0] == a && ws[|es|] == b;
    var ws', es' :| Story(env, ws', es') && ws'[0] == b && ws'[|es'|] == c;
    StoryAppend(env, ws, es, ws', es');
    assert (ws + ws'[1..])[|es + es'|] == c;
  }

  // ---- One call ----

  // w with checker i at pc, the store st, and the time t.
  ghost function At(w: World, i: nat, pc: Pc, st: Objects, t: nat): World
    requires i < |w.locals|
  {
    w.(store := st, locals := w.locals[i := w.locals[i].(pc := pc, clock := t)], now := t)
  }

  // Checker i's run in w has time left at t.
  ghost predicate InTime(env: Env, w: World, i: nat, t: nat)
  {
    i < |w.locals| == |env.chks| && t < w.locals[i].deadline && env.gran > 0
  }

  lemma Told(env: Env, w: World, i: nat, pc: Pc, st: Objects, t0: nat, t: nat, reply: Reply, st': Objects)
    requires InTime(env, w, i, t) && t0 <= t
    requires Belongs(env.chks[i], pc) && Running(pc) && !pc.TakeStamp?
    requires Serves(env.gran, st, Want(env.chks[i], pc), t, RoundedDown(t, env.gran), Works, reply, st')
    ensures Leads(env, At(w, i, pc, st, t0), At(w, i, Resume(env.chks[i], pc, reply), st', t))
  {
    LeadsOne(env, At(w, i, pc, st, t0), Call(i, t, t, RoundedDown(t, env.gran), Works, reply),
             At(w, i, Resume(env.chks[i], pc, reply), st', t));
  }

  // A call made after the deadline.
  lemma ToldLate(env: Env, v: World, i: nat, t: nat, reply: Reply)
    requires i < |v.locals| == |env.chks| && env.gran > 0 && v.locals[i].deadline <= t
    requires v.locals[i].clock <= t && v.now <= t
    requires var pc, stamp := v.locals[i].pc, RoundedDown(t, env.gran);
             && Belongs(env.chks[i], pc) && Running(pc) && !pc.TakeStamp?
             && Serves(env.gran, v.store, Want(env.chks[i], pc), t, stamp, Fails(DeadlineExceeded), reply, v.store)
    ensures Leads(env, v, At(v, i, Resume(env.chks[i], v.locals[i].pc, reply), v.store, t))
  {
    LeadsOne(env, v, Call(i, t, t, RoundedDown(t, env.gran), Fails(DeadlineExceeded), reply),
             At(v, i, Resume(env.chks[i], v.locals[i].pc, reply), v.store, t));
  }

  // Taking the run's timestamp.
  ghost function Stamped(w: World, i: nat, t: nat): World
    requires i < |w.locals|
  {
    w.(births := w.births[t := Birth(i, w.locals[i].start)])
  }

  lemma ToldStamp(env: Env, w: World, i: nat, st: Objects, t: nat)
    requires InTime(env, w, i, t) && t !in w.births
    ensures Leads(env, At(w, i, TakeStamp, st, t),
                  At(Stamped(w, i, t), i, Resume(env.chks[i], TakeStamp, Time(t)), st, t))
  {
    LeadsOne(env, At(w, i, TakeStamp, st, t), Call(i, t, t, RoundedDown(t, env.gran), Works, Time(t)),
             At(Stamped(w, i, t), i, Resume(env.chks[i], TakeStamp, Time(t)), st, t));
  }

  // ---- Lists ----

  lemma {:induction false} Listing(st: Objects, matching: set<Key>) returns (items: seq<Item>)
    requires matching <= st.Keys
    ensures Lists(items, st, matching)
    decreases |matching|
  {
    if matching == {} {
      items := [];
    } else {
      var k :| k in matching;
      var rest := Listing(st, matching - {k});
      items := [Item(k, st[k].created)] + rest;
      KeysOfCons(items);
      assert items[1..] == rest;
    }
  }

  // ---- Garbage collection ----

  ghost function Selected(c: Checker, kind: Kind, st: Objects): set<Key>
  {
    Matching(st, kind, Scope(c, kind), GcSelector(c, kind))
  }

  lemma ToldGcList(env: Env, w: World, i: nat, kind: Kind, st: Objects, t0: nat, t: nat) returns (items: seq<Item>)
    requires InTime(env, w, i, t) && t0 <= t && Belongs(env.chks[i], GcList(kind))
    ensures Lists(items, st, Selected(env.chks[i], kind, st))
    ensures Leads(env, At(w, i, GcList(kind), st, t0), At(w, i, GcNext(env.chks[i], kind, items), st, t))
  {
    items := Listing(st, Selected(env.chks[i], kind, st));
    Told(env, w, i, GcList(kind), st, t0, t, Items(items), st);
  }

  // Looking at an item too young to go.
  lemma ToldYoung(env: Env, w: World, i: nat, kind: Kind, items: seq<Item>, st: Objects, t: nat)
    requires InTime(env, w, i, t) && items != [] && !kind.NodePool? && Belongs(env.chks[i], GcAge(kind, items))
    requires t - items[0].created <= env.chks[i].timeout
    ensures Leads(env, At(w, i, GcNext(env.chks[i], kind, items), st, t),
                  At(w, i, GcNext(env.chks[i], kind, items[1..]), st, t))
  {
    Told(env, w, i, GcAge(kind, items), st, t, t, Time(t), st);
  }

  // Deleting an item over age, or a node pool.
  lemma ToldGone(env: Env, w: World, i: nat, kind: Kind, items: seq<Item>, st: Objects, t: nat)
    requires InTime(env, w, i, t) && items != [] && Belongs(env.chks[i], GcDelete(kind, items))
    requires kind.NodePool? || t - items[0].created > env.chks[i].timeout
    ensures Leads(env, At(w, i, GcNext(env.chks[i], kind, items), st, t),
                  At(w, i, GcNext(env.chks[i], kind, items[1..]), st - {items[0].key}, t))
  {
    var c, k := env.chks[i], items[0].key;
    if !kind.NodePool? {
      Told(env, w, i, GcAge(kind, items), st, t, t, Time(t), st);
    } else {
      LeadsNowhere(env, At(w, i, GcDelete(kind, items), st, t));
    }
    var reply := Status(if k in st then None else Some(NotFound));
    Told(env, w, i, GcDelete(kind, items), st, t, t, reply, st - {k});
    LeadsOn(env, At(w, i, GcNext(c, kind, items), st, t), At(w, i, GcDelete(kind, items), st, t),
            At(w, i, GcNext(c, kind, items[1..]), st - {k}, t));
  }

  lemma {:induction false} AllGone(env: Env, w: World, i: nat, kind: Kind, items: seq<Item>, st: Objects, t: nat)
    requires InTime(env, w, i, t) && (env.chks[i].ApiServer? <==> kind.ConfigMap?)
    requires forall n | 0 <= n < |items| :: kind.NodePool? || t - items[n].created > env.chks[i].timeout
    ensures Leads(env, At(w, i, GcNext(env.chks[i], kind, items), st, t),
                  At(w, i, AfterGc(env.chks[i], kind), st - KeysOf(items), t))
  {
    var c := env.chks[i];
    if items == [] {
      assert st - KeysOf(items) == st;
      LeadsNowhere(env, At(w, i, AfterGc(c, kind), st, t));
    } else {
      ToldGone(env, w, i, kind, items, st, t);
      AllGone(env, w, i, kind, items[1..], st - {items[0].key}, t);
      KeysOfCons(items);
      assert st - {items[0].key} - KeysOf(items[1..]) == st - KeysOf(items);
      LeadsOn(env, At(w, i, GcNext(c, kind, items), st, t),
              At(w, i, GcNext(c, kind, items[1..]), st - {items[0].key}, t),
              At(w, i, AfterGc(c, kind), st - KeysOf(items), t));
    }
  }

  lemma {:induction false} AllYoung(env: Env, w: World, i: nat, kind: Kind, items: seq<Item>, st: Objects, t: nat)
    requires InTime(env, w, i, t) && (env.chks[i].ApiServer? <==> kind.ConfigMap?) && !kind.NodePool?
    requires forall n | 0 <= n < |items| :: t - items[n].created <= env.chks[i].timeout
    ensures Leads(env, At(w, i, GcNext(env.chks[i], kind, items), st, t), At(w, i, AfterGc(env.chks[i], kind), st, t))
  {
    var c := env.chks[i];
    if items == [] {
      LeadsNowhere(env, At(w, i, AfterGc(c, kind), st, t));
    } else {
      ToldYoung(env, w, i, kind, items, st, t);
      AllYoung(env, w, i, kind, items[1..], st, t);
      LeadsOn(env, At(w, i, GcNext(c, kind, items), st, t), At(w, i, GcNext(c, kind, items[1..]), st, t),
              At(w, i, AfterGc(c, kind), st, t));
    }
  }

  // A pass over a kind all of whose selected objects are over age, or node pools.
  lemma CollectOld(env: Env, w: World, i: nat, kind: Kind, st: Objects, t0: nat, t: nat)
    requires InTime(env, w, i, t) && t0 <= t && (env.chks[i].ApiServer? <==> kind.ConfigMap?)
    requires forall k | k in Selected(env.chks[i], kind, st) ::
               kind.NodePool? || t - st[k].created > env.chks[i].timeout
    ensures Leads(env, At(w, i, GcList(kind), st, t0),
                  At(w, i, AfterGc(env.chks[i], kind), st - Selected(env.chks[i], kind, st), t))
  {
    var items := ToldGcList(env, w, i, kind, st, t0, t);
    AllGone(env, w, i, kind, items, st, t);
    LeadsOn(env, At(w, i, GcList(kind), st, t0), At(w, i, GcNext(env.chks[i], kind, items), st, t),
            At(w, i, AfterGc(env.chks[i], kind), st - KeysOf(items), t));
  }

  // A pass over a kind none of whose selected objects is over age.
  lemma CollectNone(env: Env, w: World, i: nat, kind: Kind, st: Objects, t0: nat, t: nat)
    requires InTime(env, w, i, t) && t0 <= t && (env.chks[i].ApiServer? <==> kind.ConfigMap?) && !kind.NodePool?
    requires forall k | k in Selected(env.chks[i], kind, st) :: t - st[k].created <= env.chks[i].timeout
    ensures Leads(env, At(w, i, GcList(kind), st, t0), At(w, i, AfterGc(env.chks[i], kind), st, t))
  {
    var items := ToldGcList(env, w, i, kind, st, t0, t);
    AllYoung(env, w, i, kind, items, st, t);
    LeadsOn(env, At(w, i, GcList(kind), st, t0), At(w, i, GcNext(env.chks[i], kind, items), st, t),
            At(w, i, AfterGc(env.chks[i], kind), st, t));
  }

  // Collection of pods, none over age, and of node pools.
  lemma UpToClaims(env: Env, w: World, i: nat, st: Objects, t0: nat, t: nat) returns (st': Objects)
    requires InTime(env, w, i, t) && t0 <= t && env.chks[i].PodStartup?
    requires forall k | k in Selected(env.chks[i], Pod, st) :: t - st[k].created <= env.chks[i].timeout
    ensures Leads(env, At(w, i, GcList(Pod), st, t0), At(w, i, GcList(Claim), st', t))
    ensures st' == if env.chks[i].provisioning then st - Selected(env.chks[i], NodePool, st) else st
  {
    CollectNone(env, w, i, Pod, st, t0, t);
    st' := st;
    if env.chks[i].provisioning {
      st' := st - Selected(env.chks[i], NodePool, st);
      CollectOld(env, w, i, NodePool, st, t, t);
      LeadsOn(env, At(w, i, GcList(Pod), st, t0), At(w, i, GcList(NodePool), st, t), At(w, i, GcList(Claim), st', t));
    }
  }

  // ---- Limits and storage ----

  lemma PassClass(env: Env, w: World, i: nat, ts: nat, n: nat, st: Objects, t: nat)
    requires InTime(env, w, i, t) && env.chks[i].PodStartup? && env.chks[i].maxPods >= 1
    requires Selected(env.chks[i], StorageClass, st) == {}
    requires n < |env.chks[i].csis| && env.chks[i].csis[n].AzureFile?
    ensures Leads(env, At(w, i, LimitClasses(ts, n), st, t), At(w, i, LimitNext(env.chks[i], ts, n + 1), st, t))
  {
    assert KeysOf([]) == {};
    assert Resume(env.chks[i], LimitClasses(ts, n), Items([])) == LimitNext(env.chks[i], ts, n + 1);
    Told(env, w, i, LimitClasses(ts, n), st, t, t, Items([]), st);
  }

  lemma {:induction false} PassClasses(env: Env, w: World, i: nat, ts: nat, n: nat, st: Objects, t: nat)
    requires InTime(env, w, i, t) && env.chks[i].PodStartup? && env.chks[i].maxPods >= 1
    requires Selected(env.chks[i], StorageClass, st) == {}
    ensures Leads(env, At(w, i, LimitNext(env.chks[i], ts, n), st, t), At(w, i, CsiNext(env.chks[i], ts, 0), st, t))
    decreases |env.chks[i].csis| - n
  {
    var c := env.chks[i];
    if n >= |c.csis| {
      LeadsNowhere(env, At(w, i, CsiNext(c, ts, 0), st, t));
    } else {
      PassClasses(env, w, i, ts, n + 1, st, t);
      if c.csis[n].AzureFile? {
        PassClass(env, w, i, ts, n, st, t);
        LeadsOn(env, At(w, i, LimitClasses(ts, n), st, t), At(w, i, LimitNext(c, ts, n + 1), st, t),
                At(w, i, CsiNext(c, ts, 0), st, t));
      }
    }
  }

  lemma {:induction false} RoomForOne(n: int, csis: seq<CsiType>)
    requires n >= 1 && csis != []
    ensures PerCsi(n, csis) > 0
  {
    if |csis| > 1 {
      RoomForOne(n, csis[1..]);
    }
  }

  lemma PassClaims(env: Env, w: World, i: nat, ts: nat, st: Objects, t: nat)
    requires InTime(env, w, i, t) && env.chks[i].PodStartup? && env.chks[i].maxPods >= 1 && env.chks[i].csis != []
    requires Selected(env.chks[i], Claim, st) == {}
    ensures Leads(env, At(w, i, LimitClaims(ts), st, t), At(w, i, LimitNext(env.chks[i], ts, 0), st, t))
  {
    assert KeysOf([]) == {};
    RoomForOne(env.chks[i].maxPods, env.chks[i].csis);
    assert Resume(env.chks[i], LimitClaims(ts), Items([])) == LimitNext(env.chks[i], ts, 0);
    Told(env, w, i, LimitClaims(ts), st, t, t, Items([]), st);
  }

  lemma PassLimits(env: Env, w: World, i: nat, ts: nat, st: Objects, t: nat)
    requires InTime(env, w, i, t) && env.chks[i].PodStartup? && env.chks[i].maxPods >= 1 && env.chks[i].csis != []
    requires Selected(env.chks[i], Claim, st) == {} && Selected(env.chks[i], StorageClass, st) == {}
    ensures Leads(env, At(w, i, LimitClaims(ts), st, t), At(w, i, CsiNext(env.chks[i], ts, 0), st, t))
  {
    var c := env.chks[i];
    PassClaims(env, w, i, ts, st, t);
    PassClasses(env, w, i, ts, 0, st, t);
    LeadsOn(env, At(w, i, LimitClaims(ts), st, t), At(w, i, LimitNext(c, ts, 0), st, t),
            At(w, i, CsiNext(c, ts, 0), st, t));
  }

  // The store with the planned objects, stamped `created`.
  ghost function Made(c: Checker, st: Objects, plan: seq<Planned>, created: int): Objects
  {
    if plan == [] then st else
    Made(c, st, plan[..|plan| - 1], created)[plan[|plan| - 1].key := Object(Labels(c), created, plan[|plan| - 1].spec)]
  }

  lemma {:induction false} MadeObjects(c: Checker, st: Objects, plan: seq<Planned>, created: int)
    ensures forall k | k in st :: k in Made(c, st, plan, created)
    ensures forall k | k in Made(c, st, plan, created) ::
              || (exists n :: 0 <= n < |plan| && plan[n].key == k)
              || (k in st && Made(c, st, plan, created)[k] == st[k])
    ensures forall n | 0 <= n < |plan| ::
              && plan[n].key in Made(c, st, plan, created)
              && Made(c, st, plan, created)[plan[n].key].created == created
              && Made(c, st, plan, created)[plan[n].key].labels == Labels(c)
  {
    if plan != [] {
      var n := |plan| - 1;
      MadeObjects(c, st, plan[..n], created);
      forall k | k in Made(c, st, plan, created)
        ensures (exists m :: 0 <= m < |plan| && plan[m].key == k) || (k in st && Made(c, st, plan, created)[k] == st[k])
      {
        if k == plan[n].key {
        } else if m :| 0 <= m < n && plan[..n][m].key == k {
          assert plan[m].key == k;
        }
      }
      forall m | 0 <= m < |plan|
        ensures plan[m].key in Made(c, st, plan, created)
        ensures Made(c, st, plan, created)[plan[m].key].created == created
        ensures Made(c, st, plan, created)[plan[m].key].labels == Labels(c)
      {
        if m < n {
          assert plan[..n][m] == plan[m];
        }
      }
    }
  }

  predicate Fresh(st: Objects, plan: seq<Planned>)
  {
    && (forall n | 0 <= n < |plan| :: plan[n].key !in st)
    && forall m, n | 0 <= m < n < |plan| :: plan[m].key != plan[n].key
  }

  lemma MadeLacks(c: Checker, st: Objects, plan: seq<Planned>, created: int, j: nat)
    requires j < |plan| && Fresh(st, plan[..j + 1])
    ensures plan[j].key !in Made(c, st, plan[..j], created)
  {
    MadeObjects(c, st, plan[..j], created);
    var made := plan[..j + 1];
    assert made[j] == plan[j] && forall n | 0 <= n < j :: made[n] == plan[..j][n];
  }

  // The world once the first j planned objects are made.
  ghost function MadeTo(env: Env, w: World, i: nat, ts: nat, st: Objects, t: nat, j: nat): World
    requires i < |w.locals| == |env.chks| && env.chks[i].PodStartup? && j <= |Plan(env.chks[i], ts)| && env.gran > 0
  {
    var c := env.chks[i];
    At(w, i, CsiNext(c, ts, j), Made(c, st, Plan(c, ts)[..j], RoundedDown(t, env.gran)), t)
  }

  lemma MakeOne(env: Env, w: World, i: nat, ts: nat, st: Objects, t: nat, j: nat)
    requires InTime(env, w, i, t) && env.chks[i].PodStartup?
    requires j < |Plan(env.chks[i], ts)| && Fresh(st, Plan(env.chks[i], ts)[..j + 1])
    ensures Leads(env, MadeTo(env, w, i, ts, st, t, j), MadeTo(env, w, i, ts, st, t, j + 1))
  {
    var c, created := env.chks[i], RoundedDown(t, env.gran);
    var plan := Plan(c, ts);
    assert plan[..j + 1][..j] == plan[..j];
    MadeLacks(c, st, plan, created, j);
    Told(env, w, i, CsiCreate(ts, j), Made(c, st, plan[..j], created), t, t, Status(None),
         Made(c, st, plan[..j + 1], created));
  }

  lemma {:induction false} MakeAll(env: Env, w: World, i: nat, ts: nat, st: Objects, t: nat, j: nat)
    requires InTime(env, w, i, t) && env.chks[i].PodStartup?
    requires j <= |Plan(env.chks[i], ts)| && Fresh(st, Plan(env.chks[i], ts)[..j])
    ensures Leads(env, MadeTo(env, w, i, ts, st, t, 0), MadeTo(env, w, i, ts, st, t, j))
  {
    if j == 0 {
      LeadsNowhere(env, MadeTo(env, w, i, ts, st, t, 0));
    } else {
      var made := Plan(env.chks[i], ts)[..j];
      assert made[..j - 1] == Plan(env.chks[i], ts)[..j - 1];
      MakeAll(env, w, i, ts, st, t, j - 1);
      MakeOne(env, w, i, ts, st, t, j - 1);
      LeadsOn(env, MadeTo(env, w, i, ts, st, t, 0), MadeTo(env, w, i, ts, st, t, j - 1),
              MadeTo(env, w, i, ts, st, t, j));
    }
  }

  lemma PlanFresh(c: Checker, ts: nat, st: Objects)
    requires c.PodStartup? && Creatable(c.csis)
    requires forall k | k in st :: Stamp(k) != Some(ts)
    ensures Fresh(st, Plan(c, ts))
  {
    var plan := Plan(c, ts);
    forall n | 0 <= n < |plan| ensures plan[n].key !in st {
      PlanStamps(c, c.csis, ts, n);
    }
    forall m, n | 0 <= m < n < |plan| ensures plan[m].key != plan[n].key {
      PlanDistinct(c, c.csis, ts, m, n);
    }
  }

  // ---- From the collection of claims to the list of pods ----

  predicate Other(kind: Kind)
  {
    !kind.Claim? && !kind.StorageClass?
  }

  // st' is st up to claims and storage classes; those that are new are stamped as given.
  ghost predicate Restocked(st: Objects, st': Objects, ts: nat, created: int)
  {
    && (forall k: Key | Other(k.kind) :: k in st <==> k in st')
    && (forall k | k in st' :: (k in st && st'[k] == st[k])
                               || (!Other(k.kind) && Stamp(k) == Some(ts) && st'[k].created == created))
  }

  // The selected claims and classes are over age, no name is stamped t.
  ghost predicate Stale(c: Checker, st: Objects, t: nat)
  {
    && (forall k | k in Selected(c, Claim, st) :: t - st[k].created > c.timeout)
    && (forall k | k in Selected(c, StorageClass, st) :: t - st[k].created > c.timeout)
    && (forall k | k in st :: Stamp(k) != Some(t))
  }

  lemma Collected(env: Env, w: World, i: nat, st: Objects, t0: nat, t: nat) returns (st': Objects)
    requires InTime(env, w, i, t) && t0 <= t && env.chks[i].PodStartup? && Stale(env.chks[i], st, t)
    ensures Leads(env, At(w, i, GcList(Claim), st, t0), At(w, i, TakeStamp, st', t))
    ensures Selected(env.chks[i], Claim, st') == {} && Selected(env.chks[i], StorageClass, st') == {}
    ensures (forall k | k in st' :: k in st && st'[k] == st[k]) && forall k | k in st && Other(k.kind) :: k in st'
  {
    var c := env.chks[i];
    var mid := st - Selected(c, Claim, st);
    CollectOld(env, w, i, Claim, st, t0, t);
    assert forall k | k in Selected(c, StorageClass, mid) :: k in Selected(c, StorageClass, st);
    CollectOld(env, w, i, StorageClass, mid, t, t);
    st' := mid - Selected(c, StorageClass, mid);
    LeadsOn(env, At(w, i, GcList(Claim), st, t0), At(w, i, GcList(StorageClass), mid, t), At(w, i, TakeStamp, st', t));
  }

  lemma Stocked(env: Env, w: World, i: nat, st: Objects, t: nat) returns (st': Objects)
    requires InTime(env, w, i, t) && env.chks[i].PodStartup? && Creatable(env.chks[i].csis)
    requires env.chks[i].csis == [] || env.chks[i].maxPods >= 1
    requires Selected(env.chks[i], Claim, st) == {} && Selected(env.chks[i], StorageClass, st) == {}
    requires forall k | k in st :: Stamp(k) != Some(t)
    ensures Leads(env, At(w, i, Resume(env.chks[i], TakeStamp, Time(t)), st, t), At(w, i, ListPods(t), st', t))
    ensures Restocked(st, st', t, RoundedDown(t, env.gran))
  {
    var c := env.chks[i];
    var plan := Plan(c, t);
    PlanFresh(c, t, st);
    var created := RoundedDown(t, env.gran);
    st' := Made(c, st, plan, created);
    assert plan[..|plan|] == plan;
    MakeAll(env, w, i, t, st, t, |plan|);
    assert plan[..0] == [];
    RestockedBy(c, st, t, created);
    if c.csis != [] {
      PassLimits(env, w, i, t, st, t);
      LeadsOn(env, At(w, i, LimitClaims(t), st, t), At(w, i, CsiNext(c, t, 0), st, t), At(w, i, ListPods(t), st', t));
    }
  }

  lemma RestockedBy(c: Checker, st: Objects, ts: nat, created: int)
    requires c.PodStartup?
    ensures Restocked(st, Made(c, st, Plan(c, ts), created), ts, created)
  {
    var plan := Plan(c, ts);
    var st' := Made(c, st, plan, created);
    MadeObjects(c, st, plan, created);
    forall k | k in st' && !(k in st && st'[k] == st[k])
      ensures !Other(k.kind) && Stamp(k) == Some(ts) && st'[k].created == created
    {
      var n :| 0 <= n < |plan| && plan[n].key == k;
      PlanKinds(c, c.csis, ts, n);
      PlanStamps(c, c.csis, ts, n);
    }
  }

  lemma UpToPods(env: Env, w: World, i: nat, st: Objects, t0: nat, t: nat) returns (st': Objects)
    requires InTime(env, w, i, t) && t0 <= t && env.chks[i].PodStartup? && Creatable(env.chks[i].csis)
    requires (env.chks[i].csis == [] || env.chks[i].maxPods >= 1) && Stale(env.chks[i], st, t) && t !in w.births
    ensures Leads(env, At(w, i, GcList(Claim), st, t0), At(Stamped(w, i, t), i, ListPods(t), st', t))
    ensures Restocked(st, st', t, RoundedDown(t, env.gran))
  {
    var c, w' := env.chks[i], Stamped(w, i, t);
    var mid := Collected(env, w, i, st, t0, t);
    ToldStamp(env, w, i, mid, t);
    LeadsOn(env, At(w, i, GcList(Claim), st, t0), At(w, i, TakeStamp, mid, t),
            At(w', i, Resume(c, TakeStamp, Time(t)), mid, t));
    st' := Stocked(env, w', i, mid, t);
    LeadsOn(env, At(w, i, GcList(Claim), st, t0), At(w', i, Resume(c, TakeStamp, Time(t)), mid, t),
            At(w', i, ListPods(t), st', t));
  }

  // ---- Pool and pod ----

  // What the store is once the pool, if any, is made.
  ghost function WithPool(c: Checker, ts: nat, st: Objects, created: int): Objects
    requires c.PodStartup?
  {
    if c.provisioning then st[PoolKey(c, ts) := Object(PoolLabels(c, ts), created, NoSpec)] else st
  }

  ghost function WithPod(c: Checker, ts: nat, st: Objects, created: int): Objects
    requires c.PodStartup?
  {
    st[PodKey(c, ts) := Object(Labels(c), created, SyntheticPod(c, ts))]
  }

  lemma UpToPodCreation(env: Env, w: World, i: nat, ts: nat, st: Objects, t: nat)
    requires InTime(env, w, i, t) && env.chks[i].PodStartup? && env.chks[i].maxPods >= 1
    requires Selected(env.chks[i], Pod, st) == {} && PoolKey(env.chks[i], ts) !in st
    ensures Leads(env, At(w, i, ListPods(ts), st, t),
                  At(w, i, CreatePod(ts), WithPool(env.chks[i], ts, st, RoundedDown(t, env.gran)), t))
  {
    var c := env.chks[i];
    assert KeysOf([]) == {};
    Told(env, w, i, ListPods(ts), st, t, t, Items([]), st);
    if c.provisioning {
      var st' := WithPool(c, ts, st, RoundedDown(t, env.gran));
      Told(env, w, i, CheckCrd(ts), st, t, t, Status(None), st);
      Told(env, w, i, CreatePool(ts), st, t, t, Status(None), st');
      LeadsOn(env, At(w, i, ListPods(ts), st, t), At(w, i, CheckCrd(ts), st, t), At(w, i, CreatePool(ts), st, t));
      LeadsOn(env, At(w, i, ListPods(ts), st, t), At(w, i, CreatePool(ts), st, t), At(w, i, CreatePod(ts), st', t));
    }
  }

  // In a cluster with nothing but storage the pod, and the pool, are new.
  lemma OnlyPod(c: Checker, ts: nat, st: Objects, unit: int, created: int)
    requires c.PodStartup? && Restocked(map[], st, ts, unit)
    ensures Selected(c, Pod, st) == {} && PoolKey(c, ts) !in st && PodKey(c, ts) !in WithPool(c, ts, st, unit)
    ensures Selected(c, Pod, WithPod(c, ts, WithPool(c, ts, st, unit), created)) == {PodKey(c, ts)}
  {
  }

  // ---- ConfigMaps ----

  // With no ConfigMap to collect and room for one, the run makes its own.
  lemma UpToMap(env: Env, w: World, i: nat, st: Objects, t: nat)
    requires InTime(env, w, i, t) && env.chks[i].ApiServer? && env.chks[i].maxObjects >= 1 && t !in w.births
    requires Selected(env.chks[i], ConfigMap, st) == {} && MapKey(env.chks[i], t) !in st
    ensures Leads(env, At(w, i, GcList(ConfigMap), st, t),
                  At(Stamped(w, i, t), i, GetMap(t), WithMap(env.chks[i], t, st, RoundedDown(t, env.gran)), t))
  {
    var c, w' := env.chks[i], Stamped(w, i, t);
    var st', from := WithMap(c, t, st, RoundedDown(t, env.gran)), At(w, i, GcList(ConfigMap), st, t);
    CollectNone(env, w, i, ConfigMap, st, t, t);
    assert KeysOf([]) == {};
    Told(env, w, i, LimitMaps, st, t, t, Items([]), st);
    LeadsOn(env, from, At(w, i, LimitMaps, st, t), At(w, i, TakeStamp, st, t));
    ToldStamp(env, w, i, st, t);
    LeadsOn(env, from, At(w, i, TakeStamp, st, t), At(w', i, CreateMap(t), st, t));
    Told(env, w', i, CreateMap(t), st, t, t, Status(None), st');
    LeadsOn(env, from, At(w', i, CreateMap(t), st, t), At(w', i, GetMap(t), st', t));
  }

  ghost function WithMap(c: Checker, ts: nat, st: Objects, created: int): Objects
  {
    st[MapKey(c, ts) := Object(Labels(c), created, NoSpec)]
  }

  // ---- The beginning ----

  // An empty cluster and n checkers that have not run yet.
  ghost function Origin(n: nat): World
  {
    World(map[], seq(n, _ => Local(Idle, 0, 0, 0)), 0, map[])
  }

  lemma ToldBegin(env: Env, w: World, i: nat, t: nat)
    requires i < |w.locals| == |env.chks| && !Running(w.locals[i].pc) && w.locals[i].clock <= t && w.now <= t
    ensures Leads(env, w, BeginRun(env, w, i, t))
    ensures BeginRun(env, w, i, t) == At(BeginRun(env, w, i, t), i, Start(env.chks[i]), w.store, t)
  {
    LeadsOne(env, w, Event.Begin(i, t), BeginRun(env, w, i, t));
  }
}
