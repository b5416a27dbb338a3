// Exactly which pod startup checkers can come to report the maximum number of pods reached: those allowed
// at most one that get as far as listing their pods.
module LimitOfOne {
  import opened Results
  import opened Names
  import opened Cluster
  import opened Protocol
  import opened System
  import opened Ownership
  import opened References
  import opened Leftovers
  import opened SelfDisable
  import opened Stories

  // Checker c, running as number i among others, ends a run with the maximum number of pods reached,
  // although its calls on which the cleaning up of pods rests work in time, nothing is taken away from
  // outside and the process does not restart, from a start with at most one pod not over age.
  ghost predicate FillsPods(c: Checker, env: Env, ws: seq<World>, es: seq<Event>, i: nat)
  {
    && DistinctNames(env.chks) && PromptFrom(env, ws, es, i, Pod) && env.chks[i] == c
    && SignedStore(env, ws[0].births, ws[0].store)
    && (forall m | 0 <= m < |es| :: !es[m].Vanish? && Truncating(env.gran, es[m]))
    && i < |ws[|es|].locals| && ws[|es|].locals[i].pc == Done(Failed(PodLimit))
  }

  // With timestamps in units of gran.
  ghost predicate CanFillPods(c: Checker, gran: nat)
  {
    exists env: Env, ws, es, i :: env.gran == gran && FillsPods(c, env, ws, es, i)
  }

  // Its limit is no more than one, and storage does not keep it from listing its pods: with storage
  // enabled, a limit below one, an unknown CSI type or one listed twice does.
  predicate Exposed(c: Checker)
    requires c.PodStartup?
  {
    c.maxPods <= 1 && (c.csis == [] || (c.maxPods == 1 && Creatable(c.csis)))
  }

  // ---- Checkers that never list their pods ----

  predicate Blocked(c: Checker)
  {
    c.PodStartup? && c.csis != [] && (c.maxPods <= 0 || !Creatable(c.csis))
  }

  predicate PastStorage(pc: Pc)
  {
    || pc.ListPods? || pc.CheckCrd? || pc.CreatePool? || pc.CreatePod? || pc.Observe? || pc.DeletePod? || pc.DeletePool?
    || pc.CsiDelete? || pc == Done(Failed(PodLimit))
  }

  predicate PrefixDistinct(plan: seq<Planned>, j: nat)
    requires j <= |plan|
  {
    forall m, n | 0 <= m < n < j :: plan[m].key != plan[n].key
  }

  ghost predicate PrefixThere(st: Objects, plan: seq<Planned>, j: nat)
    requires j <= |plan|
  {
    forall n | 0 <= n < j :: plan[n].key in st
  }

  ghost predicate Stuck(c: Checker, st: Objects, pc: Pc)
  {
    && Belongs(c, pc) && !PastStorage(pc)
    && (pc.LimitClasses? || pc.CsiCreate? ==> c.PodStartup? && c.maxPods > 0)
    && (pc.CsiCreate? ==> PrefixDistinct(Plan(c, pc.ts), pc.j) && PrefixThere(st, Plan(c, pc.ts), pc.j))
  }

  lemma {:induction false} TypeInPlan(c: Checker, csis: seq<CsiType>, ts: nat, a: nat) returns (n: nat)
    requires Supported(csis) && a < |csis|
    ensures n < |PlanOf(c, csis, ts)| && PlanOf(c, csis, ts)[n] == Entry(c, csis[a], ts)[0]
  {
    if a == 0 {
      n := 0;
    } else {
      var m := TypeInPlan(c, csis[1..], ts, a - 1);
      n := |Entry(c, csis[0], ts)| + m;
    }
  }

  // A CSI type listed twice makes for a key planned twice.
  lemma {:induction false} RepeatedKey(c: Checker, csis: seq<CsiType>, ts: nat, a: nat, b: nat)
    requires Supported(csis) && a < b < |csis| && csis[a] == csis[b]
    ensures !PrefixDistinct(PlanOf(c, csis, ts), |PlanOf(c, csis, ts)|)
  {
    var e, rest := Entry(c, csis[0], ts), PlanOf(c, csis[1..], ts);
    var plan := PlanOf(c, csis, ts);
    if a == 0 {
      var n := TypeInPlan(c, csis[1..], ts, b - 1);
      assert plan[0].key == plan[|e| + n].key;
    } else {
      RepeatedKey(c, csis[1..], ts, a - 1, b - 1);
      var m, n :| 0 <= m < n < |rest| && rest[m].key == rest[n].key;
      assert plan[|e| + m].key == plan[|e| + n].key;
    }
  }

  lemma WholePlanDistinct(c: Checker, ts: nat)
    requires c.PodStartup? && Supported(c.csis) && PrefixDistinct(Plan(c, ts), |Plan(c, ts)|)
    ensures Creatable(c.csis)
  {
    if a, b :| 0 <= a < b < |c.csis| && c.csis[a] == c.csis[b] {
      RepeatedKey(c, c.csis, ts, a, b);
    }
  }

  // Once the limits are passed.
  lemma StuckNext(c: Checker, st: Objects, ts: nat, j: nat)
    requires Blocked(c) && c.maxPods > 0 && j <= |Plan(c, ts)|
    requires PrefixDistinct(Plan(c, ts), j) && PrefixThere(st, Plan(c, ts), j)
    ensures Stuck(c, st, CsiNext(c, ts, j))
  {
    if j == |Plan(c, ts)| && Supported(c.csis) {
      WholePlanDistinct(c, ts);
    }
  }

  lemma {:induction false} StuckLimits(c: Checker, st: Objects, ts: nat, i: nat)
    requires Blocked(c) && c.maxPods > 0
    ensures Stuck(c, st, LimitNext(c, ts, i))
    decreases |c.csis| - i
  {
    if i >= |c.csis| {
      StuckNext(c, st, ts, 0);
    } else if !c.csis[i].AzureFile? {
      StuckLimits(c, st, ts, i + 1);
    }
  }

  lemma StuckStep(c: Checker, gran: nat, s: Step)
    requires Blocked(c) && Running(s.before) && Stuck(c, s.st, s.before) && CallStep(c, gran, s)
    ensures Stuck(c, s.st', s.after)
  {
    ResumeBelongs(c, s.before, s.reply);
    match s.before {
      case LimitClaims(ts) =>
        if s.reply.Items? && |s.reply.items| < PerCsi(c.maxPods, c.csis) {
          NoRoomForNone(c.maxPods, c.csis);
          StuckLimits(c, s.st', ts, 0);
        }
      case LimitClasses(ts, i) => StuckLimits(c, s.st', ts, i + 1);
      case CsiCreate(ts, j) =>
        if s.reply == Status(None) {
          CreatedNext(c, gran, ts, j, s);
        }
      case _ =>
    }
  }

  // An entry was created: its key was not there before, unlike those of the entries before it.
  lemma CreatedNext(c: Checker, gran: nat, ts: nat, j: nat, s: Step)
    requires Blocked(c) && c.maxPods > 0 && j < |Plan(c, ts)| && s.before == CsiCreate(ts, j) && s.reply == Status(None)
    requires PrefixDistinct(Plan(c, ts), j) && PrefixThere(s.st, Plan(c, ts), j) && CallStep(c, gran, s)
    ensures Stuck(c, s.st', CsiNext(c, ts, j + 1))
  {
    StuckNext(c, s.st', ts, j + 1);
  }

  lemma {:induction false} NoRoomForNone(n: int, csis: seq<CsiType>)
    ensures n <= 0 ==> PerCsi(n, csis) <= 0
  {
    if csis != [] {
      NoRoomForNone(n, csis[1..]);
    }
  }

  ghost predicate StuckIn(env: Env, w: World, i: nat)
  {
    && Inv(env, w) && i < |env.chks| && Stuck(env.chks[i], w.store, w.locals[i].pc)
  }

  lemma StuckAmidOthers(env: Env, w: World, e: Event, w': World, i: nat)
    requires DistinctNames(env.chks) && StuckIn(env, w, i) && Next(env, w, e, w') && e.Call? && e.i != i
    ensures Stuck(env.chks[i], w'.store, w'.locals[i].pc)
  {
    var c, pc := env.chks[i], w.locals[i].pc;
    if pc.CsiCreate? {
      var plan := Plan(c, pc.ts);
      forall n | 0 <= n < pc.j ensures plan[n].key in w'.store {
        if plan[n].key !in w'.store {
          PlanStamps(c, c.csis, pc.ts, n);
          PlanKinds(c, c.csis, pc.ts, n);
          ForeignDelete(env, w, e, w', plan[n].key);
        }
      }
    }
  }

  lemma StuckHoldsNext(env: Env, w: World, e: Event, w': World, i: nat)
    requires DistinctNames(env.chks) && StuckIn(env, w, i) && Blocked(env.chks[i])
    requires Next(env, w, e, w') && !e.Vanish? && !e.Crash?
    ensures StuckIn(env, w', i)
  {
    InvNext(env, w, e, w');
    if e.Call? {
      if e.i == i {
        StuckStep(env.chks[i], env.gran, StepBy(w, e, w'));
      } else {
        StuckAmidOthers(env, w, e, w', i);
      }
    }
  }

  lemma {:induction false} StuckHolds(env: Env, ws: seq<World>, es: seq<Event>, n: nat, i: nat)
    requires DistinctNames(env.chks) && i < |env.chks| && Blocked(env.chks[i])
    requires Behaviour(env, ws, es) && n < |ws| && SignedStore(env, ws[0].births, ws[0].store)
    requires forall m | 0 <= m < |es| :: !es[m].Vanish? && !es[m].Crash?
    ensures StuckIn(env, ws[n], i)
  {
    if n > 0 {
      StuckHolds(env, ws, es, n - 1, i);
      StuckHoldsNext(env, ws[n - 1], es[n - 1], ws[n], i);
    }
  }

  // ---- Checkers that can ----

  // The checker alone, for long enough.
  ghost predicate Alone(env: Env, c: Checker)
  {
    env.chks == [c] && env.gran > 0 && env.cancel >= env.gran + 2 * c.timeout
  }

  // A deletion made after the deadline changes nothing but the program point.
  lemma LateDelete(env: Env, w: World, i: nat, pc: Pc, t: nat)
    requires i < |w.locals| == |env.chks| && env.gran > 0 && Belongs(env.chks[i], pc) && Want(env.chks[i], pc).Delete?
    requires w.locals[i].deadline <= t && w.locals[i].clock <= t && w.now <= t
    ensures Leads(env, At(w, i, pc, w.store, t),
                  At(w, i, Resume(env.chks[i], pc, Status(Some(DeadlineExceeded))), w.store, t))
  {
    ToldLate(env, At(w, i, pc, w.store, t), i, t, Status(Some(DeadlineExceeded)));
  }

  lemma LateUnwind(env: Env, w: World, i: nat, ts: nat, v: Verdict, t: nat)
    requires i < |w.locals| == |env.chks| && env.chks[i].PodStartup? && env.gran > 0
    requires w.locals[i].deadline <= t && w.locals[i].clock <= t && w.now <= t
    ensures Leads(env, At(w, i, Unwind(env.chks[i], ts, v), w.store, t), At(w, i, Done(v), w.store, t))
  {
    if |Plan(env.chks[i], ts)| > 0 {
      LateDelete(env, w, i, CsiDelete(ts, 0, v), t);
    } else {
      LeadsNowhere(env, At(w, i, Done(v), w.store, t));
    }
  }

  // A run whose deadline passes while it waits for its pod can delete nothing.
  lemma RunsOut(env: Env, w: World, i: nat, ts: nat, t: nat)
    requires i < |w.locals| == |env.chks| && env.chks[i].PodStartup? && env.gran > 0
    requires w.locals[i].pc == Observe(ts) && w.locals[i].deadline <= t && w.locals[i].clock <= t && w.now <= t
    ensures Leads(env, w, At(w, i, Done(Unhealthy(PodStartupDurationExceeded)), w.store, t))
  {
    var c, v, st := env.chks[i], Unhealthy(PodStartupDurationExceeded), w.store;
    var unwinding := At(w, i, Unwind(c, ts, v), st, t);
    ToldLate(env, w, i, t, Seen(v));
    LateDelete(env, w, i, DeletePod(ts, v), t);
    if c.provisioning {
      LateDelete(env, w, i, DeletePool(ts, v), t);
      LeadsOn(env, At(w, i, DeletePod(ts, v), st, t), At(w, i, DeletePool(ts, v), st, t), unwinding);
    }
    LeadsOn(env, w, At(w, i, DeletePod(ts, v), st, t), unwinding);
    LateUnwind(env, w, i, ts, v, t);
    LeadsOn(env, w, unwinding, At(w, i, Done(v), st, t));
  }

  // The world with plan entry j to be deleted next.
  ghost function Unwinding(env: Env, w: World, i: nat, ts: nat, j: nat, v: Verdict, st: Objects, t: nat): World
    requires i < |w.locals| == |env.chks| && env.chks[i].PodStartup?
  {
    At(w, i, if j < |Plan(env.chks[i], ts)| then CsiDelete(ts, j, v) else Done(v), st, t)
  }

  lemma UnwindOne(env: Env, w: World, i: nat, ts: nat, j: nat, v: Verdict, st: Objects, t: nat)
    requires InTime(env, w, i, t) && env.chks[i].PodStartup? && j < |Plan(env.chks[i], ts)|
    ensures Leads(env, Unwinding(env, w, i, ts, j, v, st, t),
                  Unwinding(env, w, i, ts, j + 1, v, st - {Plan(env.chks[i], ts)[j].key}, t))
  {
    var k := Plan(env.chks[i], ts)[j].key;
    Told(env, w, i, CsiDelete(ts, j, v), st, t, t, Status(if k in st then None else Some(NotFound)), st - {k});
  }

  lemma {:induction false} Unwound(env: Env, w: World, i: nat, ts: nat, j: nat, v: Verdict, st: Objects, t: nat)
    returns (st': Objects)
    requires InTime(env, w, i, t) && env.chks[i].PodStartup? && j <= |Plan(env.chks[i], ts)|
    ensures Leads(env, Unwinding(env, w, i, ts, j, v, st, t), At(w, i, Done(v), st', t))
    decreases |Plan(env.chks[i], ts)| - j
  {
    var c := env.chks[i];
    if j == |Plan(c, ts)| {
      st' := st;
      LeadsNowhere(env, At(w, i, Done(v), st, t));
    } else {
      var next := st - {Plan(c, ts)[j].key};
      UnwindOne(env, w, i, ts, j, v, st, t);
      st' := Unwound(env, w, i, ts, j + 1, v, next, t);
      LeadsOn(env, Unwinding(env, w, i, ts, j, v, st, t), Unwinding(env, w, i, ts, j + 1, v, next, t),
              At(w, i, Done(v), st', t));
    }
  }

  lemma LimitReached(env: Env, w: World, i: nat, ts: nat, st: Objects, t: nat) returns (st': Objects)
    requires InTime(env, w, i, t) && env.chks[i].PodStartup?
    requires |Selected(env.chks[i], Pod, st)| >= env.chks[i].maxPods
    ensures Leads(env, At(w, i, ListPods(ts), st, t), At(w, i, Done(Failed(PodLimit)), st', t))
  {
    var c := env.chks[i];
    var items := Listing(st, Selected(c, Pod, st));
    Told(env, w, i, ListPods(ts), st, t, t, Items(items), st);
    st' := Unwound(env, w, i, ts, 0, Failed(PodLimit), st, t);
    LeadsOn(env, At(w, i, ListPods(ts), st, t), At(w, i, Unwind(c, ts, Failed(PodLimit)), st, t),
            At(w, i, Done(Failed(PodLimit)), st', t));
  }

  // What the one run so far has put in the store, stamped s: its pod, created at a whole unit, and
  // storage objects from the unit before.
  ghost predicate OneRun(c: Checker, st: Objects, s: nat, unit: nat)
    requires c.PodStartup?
  {
    && PodKey(c, s) in st && st[PodKey(c, s)].created == unit && st[PodKey(c, s)].labels == Labels(c)
    && (forall k | k in st :: Stamp(k) == Some(s))
    && (forall k | k in st && k.kind.Pod? :: k == PodKey(c, s))
    && (forall k | k in st && !Other(k.kind) :: st[k].created == 0)
  }

  // The first run, begun just before a whole unit, up to its list of pods.
  lemma FirstList(env: Env, c: Checker) returns (w: World, st: Objects)
    requires Alone(env, c) && c.PodStartup? && c.timeout >= 2
    requires c.csis == [] || (c.maxPods >= 1 && Creatable(c.csis))
    ensures |w.locals| == 1 && w.locals[0].deadline == env.gran - 1 + c.timeout && w.births.Keys == {env.gran - 1}
    ensures w.locals[0].start == env.gran - 1
    ensures Restocked(map[], st, env.gran - 1, 0)
    ensures Leads(env, Origin(1), At(w, 0, ListPods(env.gran - 1), st, env.gran - 1))
  {
    var s: nat, w0 := env.gran - 1, BeginRun(env, Origin(1), 0, env.gran - 1);
    Truncations(env.gran);
    ToldBegin(env, Origin(1), 0, s);
    var none := UpToClaims(env, w0, 0, map[], s, s);
    assert none == map[];
    LeadsOn(env, Origin(1), w0, At(w0, 0, GcList(Claim), map[], s));
    st := UpToPods(env, w0, 0, map[], s, s);
    w := Stamped(w0, 0, s);
    LeadsOn(env, Origin(1), At(w0, 0, GcList(Claim), map[], s), At(w, 0, ListPods(s), st, s));
  }

  lemma OneRunAfter(c: Checker, st: Objects, s: nat, unit: nat)
    requires c.PodStartup? && Restocked(map[], st, s, 0)
    ensures PodKey(c, s) !in WithPool(c, s, st, 0) && OneRun(c, WithPod(c, s, WithPool(c, s, st, 0), unit), s, unit)
  {
  }

  // It creates its pod at the whole unit.
  lemma FirstPod(env: Env, c: Checker) returns (w: World)
    requires Alone(env, c) && c.PodStartup? && c.maxPods == 1 && Creatable(c.csis) && c.timeout >= 2
    ensures |w.locals| == 1 && w.locals[0].pc == Observe(env.gran - 1)
    ensures w.locals[0].deadline == env.gran - 1 + c.timeout && w.locals[0].start == env.gran - 1
    ensures w.locals[0].clock == w.now == env.gran && w.births.Keys == {env.gran - 1}
    ensures OneRun(c, w.store, env.gran - 1, env.gran) && Leads(env, Origin(1), w)
  {
    var s: nat := env.gran - 1;
    Truncations(env.gran);
    var w0, st0 := FirstList(env, c);
    var st1 := WithPool(c, s, st0, 0);
    var st2 := WithPod(c, s, st1, env.gran);
    UpToPodCreation(env, w0, 0, s, st0, s);
    LeadsOn(env, Origin(1), At(w0, 0, ListPods(s), st0, s), At(w0, 0, CreatePod(s), st1, s));
    OneRunAfter(c, st0, s, env.gran);
    Told(env, w0, 0, CreatePod(s), st1, s, env.gran, Status(None), st2);
    w := At(w0, 0, Observe(s), st2, env.gran);
    LeadsOn(env, Origin(1), At(w0, 0, CreatePod(s), st1, s), w);
  }

  // It waits for it until the deadline and can then delete nothing.
  lemma FirstRun(env: Env, c: Checker) returns (w: World)
    requires Alone(env, c) && c.PodStartup? && c.maxPods == 1 && Creatable(c.csis) && c.timeout >= 2
    ensures |w.locals| == 1 && w.locals[0].pc.Done? && w.locals[0].clock == w.now == env.gran - 1 + c.timeout
    ensures OneRun(c, w.store, env.gran - 1, env.gran) && w.births.Keys == {env.gran - 1} && Leads(env, Origin(1), w)
  {
    var w1 := FirstPod(env, c);
    var t := env.gran - 1 + c.timeout;
    RunsOut(env, w1, 0, env.gran - 1, t);
    w := At(w1, 0, Done(Unhealthy(PodStartupDurationExceeded)), w1.store, t);
    LeadsOn(env, Origin(1), w1, w);
  }

  // The second run finds the pod too young to collect, everything else gone, and the limit reached.
  lemma SecondRun(env: Env, c: Checker, w: World) returns (w': World)
    requires Alone(env, c) && c.PodStartup? && c.maxPods == 1 && Creatable(c.csis) && c.timeout >= 2
    requires |w.locals| == 1 && w.locals[0].pc.Done? && w.locals[0].clock == w.now == env.gran - 1 + c.timeout
    requires OneRun(c, w.store, env.gran - 1, env.gran) && w.births.Keys == {env.gran - 1}
    ensures |w'.locals| == 1 && w'.locals[0].pc == Done(Failed(PodLimit)) && Leads(env, w, w')
  {
    var t0: nat, st := env.gran - 1 + c.timeout, w.store;
    var w0, t := BeginRun(env, w, 0, t0), t0 + 1;
    ToldBegin(env, w, 0, t0);
    var st0 := UpToClaims(env, w0, 0, st, t0, t);
    LeadsOn(env, w, w0, At(w0, 0, GcList(Claim), st0, t));
    var st1 := UpToPods(env, w0, 0, st0, t, t);
    var w1 := Stamped(w0, 0, t);
    LeadsOn(env, w, At(w0, 0, GcList(Claim), st0, t), At(w1, 0, ListPods(t), st1, t));
    assert Selected(c, Pod, st1) == {PodKey(c, env.gran - 1)};
    var st2 := LimitReached(env, w1, 0, t, st1, t);
    w' := At(w1, 0, Done(Failed(PodLimit)), st2, t);
    LeadsOn(env, w, At(w1, 0, ListPods(t), st1, t), w');
  }

  lemma ReachesLimit(env: Env, c: Checker) returns (w: World)
    requires Alone(env, c) && c.PodStartup? && Exposed(c) && c.timeout >= 2
    ensures |w.locals| == 1 && w.locals[0].pc == Done(Failed(PodLimit)) && Leads(env, Origin(1), w)
  {
    if c.maxPods == 1 {
      var w1 := FirstRun(env, c);
      w := SecondRun(env, c, w1);
      LeadsOn(env, Origin(1), w1, w);
    } else {
      var s: nat := env.gran - 1;
      var w0, st := FirstList(env, c);
      var st' := LimitReached(env, w0, 0, s, st, s);
      w := At(w0, 0, Done(Failed(PodLimit)), st', s);
      LeadsOn(env, Origin(1), At(w0, 0, ListPods(s), st, s), w);
    }
  }

  // A story told from the beginning is a behaviour in which all is prompt.
  lemma StoryIsPrompt(env: Env, c: Checker, ws: seq<World>, es: seq<Event>, kind: Kind)
    requires env.chks == [c] && Limits(c, kind) && Story(env, ws, es) && ws[0] == Origin(1)
    ensures PromptFrom(env, ws, es, 0, kind) && SignedStore(env, ws[0].births, ws[0].store)
  {
    forall m | 0 <= m < |es| ensures 0 < |ws[m].locals| && Prompt(ws[m], es[m], 0, kind) {
      assert Next(env, ws[m], es[m], ws[m + 1]) && Orderly(ws[m], es[m]);
    }
  }

  // A pod startup checker with time to create a pod can come to report the maximum number of pods
  // exactly when it is exposed, whether it provisions nodes or not, and whatever the timestamps' unit.
  lemma PodLimitExactly(c: Checker, gran: nat)
    requires c.PodStartup? && c.timeout >= 2 && gran >= 1
    ensures CanFillPods(c, gran) <==> Exposed(c)
  {
    if Exposed(c) {
      var env := Env([c], gran, gran + 2 * c.timeout);
      var w := ReachesLimit(env, c);
      var ws, es :| Story(env, ws, es) && ws[0] == Origin(1) && ws[|es|] == w;
      StoryIsPrompt(env, c, ws, es, Pod);
      assert FillsPods(c, env, ws, es, 0);
    }
    if env: Env, ws, es, i :| env.gran == gran && FillsPods(c, env, ws, es, i) {
      NeverUnlessExposed(c, env, ws, es, i);
    }
  }

  lemma NeverUnlessExposed(c: Checker, env: Env, ws: seq<World>, es: seq<Event>, i: nat)
    requires c.PodStartup? && FillsPods(c, env, ws, es, i)
    ensures Exposed(c)
  {
    if c.maxPods >= 2 {
      NeverAtMaximum(env, ws, es, |es|, i, Pod);
    }
    if Blocked(c) {
      forall m | 0 <= m < |es| ensures !es[m].Vanish? && !es[m].Crash? {
        assert Prompt(ws[m], es[m], i, Pod);
      }
      StuckHolds(env, ws, es, |es|, i);
    }
  }
}
