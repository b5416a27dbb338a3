// Exactly which checkers can disable themselves: come to report a maximum of theirs reached, by nothing
// but what their own runs left over.
module Maxima {
  import opened Results
  import opened Cluster
  import opened Protocol
  import opened System
  import opened Ownership
  import opened Bounds
  import opened Leftovers
  import opened SelfDisable
  import opened Stories
  import opened LimitOfOne

  // A run has ended because there were too many pods, claims or storage classes, or ConfigMaps.
  predicate AtMaximum(c: Checker, pc: Pc)
  {
    && pc.Done?
    && if c.PodStartup? then pc.v in {Maximum(Pod), Maximum(Claim), Maximum(StorageClass)}
       else pc.v == Maximum(ConfigMap)
  }

  // Checker c, running as number i among others, ends a run that way, although its calls on which the
  // cleaning up rests work in time and the process does not restart, from a start at which what is not
  // over age of each kind stems from one run.
  ghost predicate Disables(c: Checker, env: Env, ws: seq<World>, es: seq<Event>, i: nat)
  {
    && DistinctNames(env.chks) && i < |env.chks| && env.chks[i] == c
    && (forall kind | Limits(c, kind) :: PromptFrom(env, ws, es, i, kind))
    && (forall m | 0 <= m < |es| :: Truncating(env.gran, es[m]))
    && |es| < |ws| && i < |ws[|es|].locals| && AtMaximum(c, ws[|es|].locals[i].pc)
  }

  // With timestamps in units of gran.
  ghost predicate CanDisable(c: Checker, gran: nat)
  {
    exists env: Env, ws, es, i :: env.gran == gran && Disables(c, env, ws, es, i)
  }

  // The first CSI type listed is unknown: no run gets to create anything.
  predicate NothingPlanned(c: Checker)
  {
    c.PodStartup? && c.csis != [] && c.csis[0].OtherCsi?
  }

  // The limit is no more than one, or the runs make storage objects that nothing but age removes, because
  // a type is listed twice or a known one before an unknown one.
  predicate Overfull(c: Checker)
  {
    match c
    case ApiServer(_, _, _, _, maxObjects) => maxObjects <= 1
    case PodStartup(_, _, _, _, maxPods, csis, _, _) =>
      maxPods <= 0 || (!NothingPlanned(c) && (maxPods == 1 || !Creatable(csis)))
  }

  // ---- Checkers that cannot ----

  // Program points of a run that creates nothing.
  predicate Barren(pc: Pc)
  {
    match pc
    case CsiCreate(_, _) => false
    case ListPods(_) => false
    case CheckCrd(_) => false
    case CreatePool(_) => false
    case CreatePod(_) => false
    case Observe(_) => false
    case DeletePod(_, _) => false
    case DeletePool(_, _) => false
    case CsiDelete(_, _, _) => false
    case Done(v) => v != Maximum(Pod)
    case _ => true
  }

  lemma {:induction false} LimitNextBarren(c: Checker, ts: nat, i: nat)
    requires NothingPlanned(c)
    ensures Barren(LimitNext(c, ts, i))
    decreases |c.csis| - i
  {
    if i < |c.csis| && !c.csis[i].AzureFile? {
      LimitNextBarren(c, ts, i + 1);
    }
  }

  lemma BarrenStep(c: Checker, pc: Pc, r: Reply)
    requires NothingPlanned(c) && Belongs(c, pc) && Barren(pc)
    ensures Barren(Resume(c, pc, r))
  {
    if pc.LimitClaims? {
      LimitNextBarren(c, pc.ts, 0);
    } else if pc.LimitClasses? {
      LimitNextBarren(c, pc.ts, pc.i + 1);
    }
  }

  lemma {:induction false} StaysBarren(env: Env, ws: seq<World>, es: seq<Event>, n: nat, i: nat)
    requires Behaviour(env, ws, es) && n < |ws| && i < |env.chks| && NothingPlanned(env.chks[i])
    ensures i < |ws[n].locals| == |env.chks| && Barren(ws[n].locals[i].pc)
  {
    if n > 0 {
      StaysBarren(env, ws, es, n - 1, i);
      assert Next(env, ws[n - 1], es[n - 1], ws[n]);
      if es[n - 1].Call? && es[n - 1].i == i {
        BarrenStep(env.chks[i], ws[n - 1].locals[i].pc, es[n - 1].reply);
      }
    }
  }

  // A checker that is not overfull never reports a maximum, whatever the other checkers, the rest of
  // its calls and the shutdown time.
  lemma NeverDisablesItself(env: Env, ws: seq<World>, es: seq<Event>, n: nat, i: nat)
    requires DistinctNames(env.chks) && i < |env.chks| && !Overfull(env.chks[i])
    requires Behaviour(env, ws, es) && n < |ws|
    requires forall kind | Limits(env.chks[i], kind) :: PromptFrom(env, ws, es, i, kind)
    ensures i < |ws[n].locals| && !AtMaximum(env.chks[i], ws[n].locals[i].pc)
  {
    var c := env.chks[i];
    if c.ApiServer? {
      NeverAtMaximum(env, ws, es, n, i, ConfigMap);
    } else {
      NeverAtMaximum(env, ws, es, n, i, Claim);
      NeverAtMaximum(env, ws, es, n, i, StorageClass);
      if NothingPlanned(c) {
        StaysBarren(env, ws, es, n, i);
      } else {
        NeverAtMaximum(env, ws, es, n, i, Pod);
      }
    }
  }

  // ---- Storage objects pile up ----

  // The checker lists storage that its runs cannot create to the end.
  predicate PilesUp(c: Checker)
  {
    c.PodStartup? && c.csis != [] && (c.maxPods <= 0 || (!NothingPlanned(c) && !Creatable(c.csis)))
  }

  ghost predicate OnItsOwn(env: Env, c: Checker)
  {
    env.chks == [c] && env.gran > 0 && c.timeout > 0
  }

  // r runs have left at least r claims, all before time r.
  ghost predicate Filled(c: Checker, w: World, r: nat)
  {
    && |w.locals| == 1 && !Running(w.locals[0].pc) && w.locals[0].clock <= r && w.now <= r
    && (forall ts | ts in w.births :: ts < r)
    && StockBefore(w.store, r)
    && |Selected(c, Claim, w.store)| >= r
  }

  // The next run, at time r, finds nothing to collect.
  lemma NothingOld(env: Env, c: Checker, w: World, r: nat) returns (w0: World)
    requires OnItsOwn(env, c) && PilesUp(c) && Filled(c, w, r) && r <= c.timeout && env.cancel > r
    ensures w0 == BeginRun(env, w, 0, r) && InTime(env, w0, 0, r)
    ensures Leads(env, w, At(w0, 0, TakeStamp, w.store, r))
  {
    var st := w.store;
    w0 := BeginRun(env, w, 0, r);
    ToldBegin(env, w, 0, r);
    var st' := UpToClaims(env, w0, 0, st, r, r);
    assert st' == st;
    LeadsOn(env, w, w0, At(w0, 0, GcList(Claim), st, r));
    CollectNone(env, w0, 0, Claim, st, r, r);
    LeadsOn(env, w, At(w0, 0, GcList(Claim), st, r), At(w0, 0, GcList(StorageClass), st, r));
    CollectNone(env, w0, 0, StorageClass, st, r, r);
    LeadsOn(env, w, At(w0, 0, GcList(StorageClass), st, r), At(w0, 0, TakeStamp, st, r));
  }

  lemma UpToLimits(env: Env, c: Checker, w: World, r: nat) returns (w': World)
    requires OnItsOwn(env, c) && PilesUp(c) && Filled(c, w, r) && r <= c.timeout && env.cancel > r
    ensures w' == Stamped(BeginRun(env, w, 0, r), 0, r) && InTime(env, w', 0, r)
    ensures Leads(env, w, At(w', 0, LimitClaims(r), w.store, r))
  {
    var w0 := NothingOld(env, c, w, r);
    w' := Stamped(w0, 0, r);
    ToldStamp(env, w0, 0, w.store, r);
    LeadsOn(env, w, At(w0, 0, TakeStamp, w.store, r), At(w', 0, LimitClaims(r), w.store, r));
  }

  // The claims are too many, or not.
  lemma ReadClaims(env: Env, c: Checker, w: World, ts: nat, st: Objects, t: nat) returns (pc: Pc)
    requires OnItsOwn(env, c) && c.PodStartup? && c.csis != [] && InTime(env, w, 0, t)
    ensures pc == if |Selected(c, Claim, st)| >= PerCsi(c.maxPods, c.csis) then Done(Maximum(Claim))
                  else LimitNext(c, ts, 0)
    ensures Leads(env, At(w, 0, LimitClaims(ts), st, t), At(w, 0, pc, st, t))
  {
    var items := Listing(st, Selected(c, Claim, st));
    pc := Resume(c, LimitClaims(ts), Items(items));
    Told(env, w, 0, LimitClaims(ts), st, t, t, Items(items), st);
  }

  // So are the storage classes, or not.
  lemma ReadClass(env: Env, c: Checker, w: World, ts: nat, n: nat, st: Objects, t: nat) returns (pc: Pc)
    requires OnItsOwn(env, c) && c.PodStartup? && InTime(env, w, 0, t) && n < |c.csis| && c.csis[n].AzureFile?
    ensures pc == Done(Maximum(StorageClass)) || pc == LimitNext(c, ts, n + 1)
    ensures Leads(env, At(w, 0, LimitClasses(ts, n), st, t), At(w, 0, pc, st, t))
  {
    var items := Listing(st, Selected(c, StorageClass, st));
    pc := Resume(c, LimitClasses(ts, n), Items(items));
    Told(env, w, 0, LimitClasses(ts, n), st, t, t, Items(items), st);
  }

  lemma {:induction false} ReadClasses(env: Env, c: Checker, w: World, ts: nat, n: nat, st: Objects, t: nat)
    returns (pc: Pc)
    requires OnItsOwn(env, c) && c.PodStartup? && InTime(env, w, 0, t)
    ensures pc == Done(Maximum(StorageClass)) || pc == CsiNext(c, ts, 0)
    ensures Leads(env, At(w, 0, LimitNext(c, ts, n), st, t), At(w, 0, pc, st, t))
    decreases |c.csis| - n
  {
    if n >= |c.csis| {
      pc := CsiNext(c, ts, 0);
      LeadsNowhere(env, At(w, 0, pc, st, t));
    } else if c.csis[n].AzureFile? {
      var next := ReadClass(env, c, w, ts, n, st, t);
      pc := next;
      if next != Done(Maximum(StorageClass)) {
        pc := ReadClasses(env, c, w, ts, n + 1, st, t);
        LeadsOn(env, At(w, 0, LimitClasses(ts, n), st, t), At(w, 0, next, st, t), At(w, 0, pc, st, t));
      }
    } else {
      pc := ReadClasses(env, c, w, ts, n + 1, st, t);
    }
  }

  // How far creation gets before a name comes again.
  lemma FirstRepeat(plan: seq<Planned>) returns (m: nat)
    ensures m <= |plan| && PrefixDistinct(plan, m)
    ensures m < |plan| ==> exists n | 0 <= n < m :: plan[n].key == plan[m].key
  {
    m := 0;
    while m < |plan| && forall n | 0 <= n < m :: plan[n].key != plan[m].key
      invariant m <= |plan| && PrefixDistinct(plan, m)
    {
      m := m + 1;
    }
  }

  // It gets beyond a first claim.
  lemma FirstClaim(c: Checker, ts: nat, m: nat) returns (f: nat)
    requires c.PodStartup? && c.csis != [] && !NothingPlanned(c) && m <= |Plan(c, ts)|
    requires m < |Plan(c, ts)| ==> exists n | 0 <= n < m :: Plan(c, ts)[n].key == Plan(c, ts)[m].key
    ensures f < m && Plan(c, ts)[f].key == ClaimKey(c, c.csis[0], ts)
  {
    f := if c.csis[0].AzureFile? then 1 else 0;
    assert Plan(c, ts) == Entry(c, c.csis[0], ts) + PlanOf(c, c.csis[1..], ts);
  }

  // Creation stops short, with a claim more in place and nothing to delete it.
  lemma StopsShort(env: Env, c: Checker, w: World, ts: nat, st: Objects, t: nat) returns (m: nat, v: Verdict)
    requires OnItsOwn(env, c) && c.PodStartup? && c.csis != [] && InTime(env, w, 0, t)
    requires !NothingPlanned(c) && !Creatable(c.csis) && forall k | k in st :: Stamp(k) != Some(ts)
    ensures m <= |Plan(c, ts)| && Fresh(st, Plan(c, ts)[..m])
    ensures exists f | 0 <= f < m :: Plan(c, ts)[f].key == ClaimKey(c, c.csis[0], ts)
    ensures Leads(env, At(w, 0, CsiNext(c, ts, 0), st, t),
                  At(w, 0, Done(v), Made(c, st, Plan(c, ts)[..m], RoundedDown(t, env.gran)), t))
  {
    var plan, created := Plan(c, ts), RoundedDown(t, env.gran);
    m := FirstRepeat(plan);
    var f := FirstClaim(c, ts, m);
    FreshPrefix(c, ts, st, m);
    MakeAll(env, w, 0, ts, st, t, m);
    assert plan[..0] == [];
    var st' := Made(c, st, plan[..m], created);
    if m < |plan| {
      var n :| 0 <= n < m && plan[n].key == plan[m].key;
      MadeObjects(c, st, plan[..m], created);
      assert plan[..m][n] == plan[n];
      v := Failed(CsiCreateFailed);
      Told(env, w, 0, CsiCreate(ts, m), st', t, t, Status(Some(AlreadyExists)), st');
      LeadsOn(env, At(w, 0, CsiNext(c, ts, 0), st, t), At(w, 0, CsiCreate(ts, m), st', t), At(w, 0, Done(v), st', t));
    } else {
      v := Failed(CsiUnsupported);
      if Supported(c.csis) {
        WholePlanDistinct(c, ts);
      }
    }
  }

  lemma FreshPrefix(c: Checker, ts: nat, st: Objects, m: nat)
    requires c.PodStartup? && m <= |Plan(c, ts)| && PrefixDistinct(Plan(c, ts), m)
    requires forall k | k in st :: Stamp(k) != Some(ts)
    ensures Fresh(st, Plan(c, ts)[..m])
  {
    forall n | 0 <= n < m ensures Plan(c, ts)[n].key !in st {
      PlanStamps(c, c.csis, ts, n);
    }
  }

  // Then there is a claim more than before.
  lemma OneClaimMore(c: Checker, ts: nat, st: Objects, m: nat, created: int)
    requires c.PodStartup? && c.csis != [] && m <= |Plan(c, ts)| && Fresh(st, Plan(c, ts)[..m])
    requires exists f | 0 <= f < m :: Plan(c, ts)[f].key == ClaimKey(c, c.csis[0], ts)
    ensures |Selected(c, Claim, Made(c, st, Plan(c, ts)[..m], created))| >= |Selected(c, Claim, st)| + 1
  {
    var plan := Plan(c, ts)[..m];
    var st' := Made(c, st, plan, created);
    MadeObjects(c, st, plan, created);
    var f :| 0 <= f < m && Plan(c, ts)[f].key == ClaimKey(c, c.csis[0], ts);
    var k := plan[f].key;
    forall x | x in Selected(c, Claim, st) ensures x in Selected(c, Claim, st') {
      assert x in st' && st'[x] == st[x];
    }
    SmallerSet(Selected(c, Claim, st) + {k}, Selected(c, Claim, st'));
  }

  // All that is there is storage stamped before r and created no earlier than time began.
  predicate StockBefore(st: Objects, r: nat)
  {
    forall k | k in st :: !Other(k.kind) && Stamp(k).Some? && Stamp(k).value < r && st[k].created >= 0
  }

  lemma StockAfter(c: Checker, st: Objects, r: nat, m: nat, created: int)
    requires c.PodStartup? && StockBefore(st, r) && created >= 0 && m <= |Plan(c, r)|
    ensures StockBefore(Made(c, st, Plan(c, r)[..m], created), r + 1)
  {
    var plan := Plan(c, r)[..m];
    var st' := Made(c, st, plan, created);
    MadeObjects(c, st, plan, created);
    forall k | k in st' ensures !Other(k.kind) && Stamp(k).Some? && Stamp(k).value < r + 1 && st'[k].created >= 0 {
      if n :| 0 <= n < m && plan[n].key == k {
        PlanStamps(c, c.csis, r, n);
        PlanKinds(c, c.csis, r, n);
      }
    }
  }

  // One run more: it ends at a maximum or leaves one claim more.
  lemma OneMoreRun(env: Env, c: Checker, w: World, r: nat) returns (w': World)
    requires OnItsOwn(env, c) && PilesUp(c) && Filled(c, w, r) && r <= c.timeout && env.cancel > r
    ensures Leads(env, w, w') && |w'.locals| == 1
    ensures AtMaximum(c, w'.locals[0].pc) || Filled(c, w', r + 1)
    ensures r >= PerCsi(c.maxPods, c.csis) ==> AtMaximum(c, w'.locals[0].pc)
  {
    var st := w.store;
    var w0 := UpToLimits(env, c, w, r);
    var pc := ReadClaims(env, c, w0, r, st, r);
    LeadsOn(env, w, At(w0, 0, LimitClaims(r), st, r), At(w0, 0, pc, st, r));
    w' := At(w0, 0, pc, st, r);
    if |Selected(c, Claim, st)| < PerCsi(c.maxPods, c.csis) {
      NoRoomForNone(c.maxPods, c.csis);
      w' := RunPastClaims(env, c, w, w0, r);
    }
  }

  lemma RunPastClaims(env: Env, c: Checker, w: World, w0: World, r: nat) returns (w': World)
    requires OnItsOwn(env, c) && PilesUp(c) && Filled(c, w, r) && c.maxPods >= 1
    requires w0 == Stamped(BeginRun(env, w, 0, r), 0, r) && InTime(env, w0, 0, r)
    requires Leads(env, w, At(w0, 0, LimitNext(c, r, 0), w.store, r))
    ensures Leads(env, w, w') && |w'.locals| == 1
    ensures AtMaximum(c, w'.locals[0].pc) || Filled(c, w', r + 1)
  {
    var st := w.store;
    var pc := ReadClasses(env, c, w0, r, 0, st, r);
    LeadsOn(env, w, At(w0, 0, LimitNext(c, r, 0), st, r), At(w0, 0, pc, st, r));
    w' := At(w0, 0, pc, st, r);
    if pc != Done(Maximum(StorageClass)) {
      w' := EndsShort(env, c, w, w0, r);
      LeadsOn(env, w, At(w0, 0, pc, st, r), w');
    }
  }

  lemma EndsShort(env: Env, c: Checker, w: World, w0: World, r: nat) returns (w': World)
    requires OnItsOwn(env, c) && c.PodStartup? && c.csis != [] && !NothingPlanned(c) && !Creatable(c.csis)
    requires Filled(c, w, r) && w0 == Stamped(BeginRun(env, w, 0, r), 0, r) && InTime(env, w0, 0, r)
    ensures Leads(env, At(w0, 0, CsiNext(c, r, 0), w.store, r), w') && Filled(c, w', r + 1)
  {
    var m, v := StopsShort(env, c, w0, r, w.store, r);
    var st' := Made(c, w.store, Plan(c, r)[..m], RoundedDown(r, env.gran));
    OneClaimMore(c, r, w.store, m, RoundedDown(r, env.gran));
    StockAfter(c, w.store, r, m, RoundedDown(r, env.gran));
    w' := At(w0, 0, Done(v), st', r);
    FilledAfter(env, c, w, w0, r, v, st');
  }

  lemma FilledAfter(env: Env, c: Checker, w: World, w0: World, r: nat, v: Verdict, st': Objects)
    requires OnItsOwn(env, c) && Filled(c, w, r) && w0 == Stamped(BeginRun(env, w, 0, r), 0, r)
    requires StockBefore(st', r + 1) && |Selected(c, Claim, st')| >= |Selected(c, Claim, w.store)| + 1
    ensures Filled(c, At(w0, 0, Done(v), st', r), r + 1)
  {
  }

  lemma {:induction false} Fill(env: Env, c: Checker, r: nat) returns (w: World)
    requires OnItsOwn(env, c) && PilesUp(c) && r <= c.timeout + 1 && env.cancel > r
    ensures Leads(env, Origin(1), w) && |w.locals| == 1
    ensures AtMaximum(c, w.locals[0].pc) || Filled(c, w, r)
  {
    if r == 0 {
      w := Origin(1);
      LeadsNowhere(env, w);
    } else {
      var w0 := Fill(env, c, r - 1);
      w := w0;
      if !AtMaximum(c, w0.locals[0].pc) {
        w := OneMoreRun(env, c, w0, r - 1);
        LeadsOn(env, Origin(1), w0, w);
      }
    }
  }

  // How long the checker's runs may be apart while leftovers pile up.
  function Patience(c: Checker): nat
  {
    if c.PodStartup? && c.maxPods > 0 then c.maxPods * |c.csis| else 0
  }

  lemma LimitOfClaims(c: Checker)
    requires c.PodStartup?
    ensures PerCsi(c.maxPods, c.csis) <= Patience(c)
  {
    PerCsiIsProduct(c.maxPods, c.csis);
    NoRoomForNone(c.maxPods, c.csis);
  }

  lemma Overflows(env: Env, c: Checker) returns (w: World)
    requires OnItsOwn(env, c) && PilesUp(c) && Patience(c) <= c.timeout && env.cancel > Patience(c)
    ensures Leads(env, Origin(1), w) && |w.locals| == 1 && AtMaximum(c, w.locals[0].pc)
  {
    var r := Patience(c);
    w := Fill(env, c, r);
    if !AtMaximum(c, w.locals[0].pc) {
      var w0 := w;
      LimitOfClaims(c);
      w := OneMoreRun(env, c, w0, r);
      LeadsOn(env, Origin(1), w0, w);
    }
  }

  // ---- ConfigMaps ----

  // A run whose deadline passes before it has read its ConfigMap cannot delete it.
  lemma MapStays(env: Env, c: Checker, w: World, ts: nat, st: Objects, t0: nat, t: nat) returns (w': World)
    requires OnItsOwn(env, c) && c.ApiServer? && |w.locals| == 1 && w.locals[0].deadline <= t && t0 <= t
    ensures |w'.locals| == 1 && !Running(w'.locals[0].pc) && w'.locals[0].clock == w'.now == t && w'.store == st
    ensures Leads(env, At(w, 0, GetMap(ts), st, t0), w')
  {
    var late := Unhealthy(GetTimeout);
    ToldLate(env, At(w, 0, GetMap(ts), st, t0), 0, t, Status(Some(DeadlineExceeded)));
    ToldLate(env, At(w, 0, CleanMap(ts, late), st, t), 0, t, Status(Some(DeadlineExceeded)));
    w' := At(w, 0, Done(late), st, t);
    LeadsOn(env, At(w, 0, GetMap(ts), st, t0), At(w, 0, CleanMap(ts, late), st, t), w');
  }

  // The first run makes its ConfigMap and runs out of time.
  lemma MapLeft(env: Env, c: Checker) returns (w: World)
    requires OnItsOwn(env, c) && c.ApiServer? && c.maxObjects == 1 && env.cancel >= 2 * c.timeout
    ensures |w.locals| == 1 && !Running(w.locals[0].pc) && w.locals[0].clock == w.now == c.timeout
    ensures w.store == WithMap(c, 0, map[], 0) && Leads(env, Origin(1), w)
  {
    var w0, st := BeginRun(env, Origin(1), 0, 0), WithMap(c, 0, map[], 0);
    var w1 := Stamped(w0, 0, 0);
    ToldBegin(env, Origin(1), 0, 0);
    UpToMap(env, w0, 0, map[], 0);
    LeadsOn(env, Origin(1), w0, At(w1, 0, GetMap(0), st, 0));
    w := MapStays(env, c, w1, 0, st, 0, c.timeout);
    LeadsOn(env, Origin(1), At(w1, 0, GetMap(0), st, 0), w);
  }

  // The next finds it too young to collect, and the limit reached.
  lemma MapFound(env: Env, c: Checker, w: World, t: nat) returns (w': World)
    requires OnItsOwn(env, c) && c.ApiServer? && |Selected(c, ConfigMap, w.store)| >= c.maxObjects
    requires |w.locals| == 1 && !Running(w.locals[0].pc) && w.locals[0].clock == w.now == t && env.cancel > t
    requires forall k | k in w.store :: t - w.store[k].created <= c.timeout
    ensures |w'.locals| == 1 && AtMaximum(c, w'.locals[0].pc) && Leads(env, w, w')
  {
    var st, w0 := w.store, BeginRun(env, w, 0, t);
    ToldBegin(env, w, 0, t);
    CollectNone(env, w0, 0, ConfigMap, st, t, t);
    LeadsOn(env, w, w0, At(w0, 0, LimitMaps, st, t));
    var items := Listing(st, Selected(c, ConfigMap, st));
    Told(env, w0, 0, LimitMaps, st, t, t, Items(items), st);
    w' := At(w0, 0, Done(Maximum(ConfigMap)), st, t);
    LeadsOn(env, w, At(w0, 0, LimitMaps, st, t), w');
  }

  lemma ReachesMapLimit(env: Env, c: Checker) returns (w: World)
    requires OnItsOwn(env, c) && c.ApiServer? && c.maxObjects <= 1 && env.cancel >= 2 * c.timeout
    ensures |w.locals| == 1 && AtMaximum(c, w.locals[0].pc) && Leads(env, Origin(1), w)
  {
    if c.maxObjects == 1 {
      var w0 := MapLeft(env, c);
      assert Selected(c, ConfigMap, w0.store) == {MapKey(c, 0)};
      w := MapFound(env, c, w0, c.timeout);
      LeadsOn(env, Origin(1), w0, w);
    } else {
      w := MapFound(env, c, Origin(1), 0);
    }
  }

  // ---- Exactly ----

  lemma ReachesMaximum(env: Env, c: Checker) returns (w: World)
    requires OnItsOwn(env, c) && Overfull(c) && c.timeout >= 2 && c.timeout >= Patience(c)
    requires env.cancel >= env.gran + 2 * c.timeout
    ensures |w.locals| == 1 && AtMaximum(c, w.locals[0].pc) && Leads(env, Origin(1), w)
  {
    if c.ApiServer? {
      w := ReachesMapLimit(env, c);
    } else if PilesUp(c) {
      w := Overflows(env, c);
    } else {
      w := ReachesLimit(env, c);
    }
  }

  // A checker with time for as many runs as storage objects fit its limit can disable itself exactly when
  // it is overfull, whether it provisions nodes or not, and whatever the timestamps' unit.
  lemma DisablesExactly(c: Checker, gran: nat)
    requires gran >= 1 && c.timeout >= 2 && c.timeout >= Patience(c)
    ensures CanDisable(c, gran) <==> Overfull(c)
  {
    if Overfull(c) {
      var env := Env([c], gran, gran + 2 * c.timeout);
      var w := ReachesMaximum(env, c);
      var ws, es :| Story(env, ws, es) && ws[0] == Origin(1) && ws[|es|] == w;
      forall kind | Limits(c, kind) ensures PromptFrom(env, ws, es, 0, kind) {
        StoryIsPrompt(env, c, ws, es, kind);
      }
      assert Disables(c, env, ws, es, 0);
    }
    if env: Env, ws, es, i :| env.gran == gran && Disables(c, env, ws, es, i) {
      DisablesOnlyOverfull(c, env, ws, es, i);
    }
  }

  lemma DisablesOnlyOverfull(c: Checker, env: Env, ws: seq<World>, es: seq<Event>, i: nat)
    requires Disables(c, env, ws, es, i)
    ensures Overfull(c)
  {
    var kind: Kind := if c.PodStartup? then Pod else ConfigMap;
    assert PromptFrom(env, ws, es, i, kind);
    if !Overfull(c) {
      NeverDisablesItself(env, ws, es, |es|, i);
    }
  }
}
