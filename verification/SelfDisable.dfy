// A checker does not disable itself: its own leftovers never reach a maximum that one run stays below.
module SelfDisable {
  import opened Results
  import opened Cluster
  import opened Protocol
  import opened System
  import opened Ownership
  import opened NewNames
  import opened Bounds
  import opened Leftovers
  import opened CalmRuns

  // ---- The limit is never reached ----

  // What a run reports when it finds too many objects of the kind.
  function Maximum(kind: Kind): Verdict
  {
    Failed(match kind
           case Pod => PodLimit
           case Claim => ClaimLimit
           case StorageClass => ClassLimit
           case _ => MapLimit)
  }

  // One run's leftovers stay below the limit.
  predicate Ample(c: Checker, kind: Kind)
  {
    match kind
    case Pod => c.PodStartup? && c.maxPods >= 2
    case ConfigMap => c.ApiServer? && c.maxObjects >= 2
    case NodePool => false
    case _ => Settles(c) && c.maxPods >= if Creatable(c.csis) then 2 else 1
  }

  // The run is not ending, nor has it ended, because of the maximum.
  predicate NotAtLimit(kind: Kind, pc: Pc)
  {
    match pc
    case Done(v) => v != Maximum(kind)
    case DeletePod(_, v) => v != Maximum(kind)
    case DeletePool(_, v) => v != Maximum(kind)
    case CsiDelete(_, _, v) => v != Maximum(kind)
    case CleanMap(_, v) => v != Maximum(kind)
    case _ => true
  }

  // The list a limit check of the kind reads.
  predicate ReadsList(kind: Kind, pc: Pc)
  {
    match kind
    case Pod => pc.ListPods?
    case Claim => pc.LimitClaims?
    case StorageClass => pc.LimitClasses?
    case _ => pc.LimitMaps?
  }

  // How many objects of the kind one run makes, at most.
  function OneRunMakes(c: Checker, kind: Kind): nat
  {
    if !Stored(kind) then 1
    else if !c.PodStartup? || c.csis == [] || c.csis[0].OtherCsi? then 0
    else if kind.Claim? then |c.csis| else 1
  }

  lemma LoneIsSmall<T>(s: set<T>)
    requires forall p, q | p in s && q in s :: p == q
    ensures |s| <= 1
  {
    if s != {} {
      var p :| p in s;
      assert s == {p};
    }
  }

  lemma {:induction false} PlannedClaims(plan: seq<Planned>, s: set<Key>)
    requires forall k | k in s :: k.kind.Claim? && exists j | 0 <= j < |plan| :: plan[j].key == k
    ensures |s| <= ClaimsIn(plan)
  {
    if plan == [] {
      assert s == {};
    } else {
      var rest := s - {plan[0].key};
      forall k | k in rest ensures exists j | 0 <= j < |plan[1..]| :: plan[1..][j].key == k {
        var j :| 0 <= j < |plan| && plan[j].key == k;
        assert plan[1..][j - 1].key == k;
      }
      PlannedClaims(plan[1..], rest);
      if plan[0].key in s {
        assert s == rest + {plan[0].key};
      } else {
        assert s == rest;
      }
    }
  }

  // Objects one run can have made are no more than one run makes.
  lemma AlikeAreFew(c: Checker, kind: Kind, s: set<Key>)
    requires Limits(c, kind) && forall p, q | p in s && q in s :: p.kind == kind && Alike(c, p, q)
    ensures |s| <= OneRunMakes(c, kind)
  {
    if s != {} {
      var p :| p in s;
      assert Alike(c, p, p);
      if kind.Claim? {
        var ts := p.name.ts;
        forall k | k in s ensures exists j | 0 <= j < |Plan(c, ts)| :: Plan(c, ts)[j].key == k {
          assert Alike(c, p, k);
        }
        PlannedClaims(Plan(c, ts), s);
        PlanClaims(c, c.csis, ts);
      } else {
        forall q | q in s ensures q == p {
          assert Alike(c, p, q);
          if kind.StorageClass? {
            PlannedClass(c, p);
            PlannedClass(c, q);
          }
        }
        LoneIsSmall(s);
      }
    }
  }

  lemma PlannedClass(c: Checker, k: Key)
    requires InPlan(c, k) && k.kind.StorageClass?
    ensures k == ClassKey(k.name.ts)
  {
    var j :| 0 <= j < |Plan(c, k.name.ts)| && Plan(c, k.name.ts)[j].key == k;
    PlanKeys(c, c.csis, k.name.ts, j);
  }

  // Whenever the list is read, it shows no more than one run makes.
  lemma FewListed(c: Checker, kind: Kind, cancel: nat, gran: nat, s: Step, l: Local, l': Local)
    requires OwnCall(c, kind, gran, s, l, l')
    requires Calm(c, kind, cancel, s.st, l) && ReadsList(kind, l.pc) && s.reply.Items?
    ensures |s.reply.items| == |Own(c, kind, s.st)| <= OneRunMakes(c, kind)
  {
    var own := Own(c, kind, s.st);
    forall p, q | p in own && q in own ensures p.kind == kind && Alike(c, p, q) {
      assert Young(c, s.st, p, l.start) && Young(c, s.st, q, l.start);
    }
    AlikeAreFew(c, kind, own);
  }

  lemma LimitFlow(c: Checker, kind: Kind, pc: Pc, r: Reply)
    requires Belongs(c, pc) && Limits(c, kind) && Running(pc) && NotAtLimit(kind, pc)
    requires Ample(c, kind) && (ReadsList(kind, pc) && r.Items? ==> |r.items| <= OneRunMakes(c, kind))
    requires pc.Observe? && r.Seen? ==> Measurable(r.v)
    ensures NotAtLimit(kind, Resume(c, pc, r))
  {
    if pc.LimitClaims? {
      LimitNextOpen(c, kind, pc.ts, 0);
      if kind.Claim? {
        ClaimsBelow(c);
      }
    } else if pc.LimitClasses? {
      LimitNextOpen(c, kind, pc.ts, pc.i + 1);
    }
  }

  lemma ClaimsBelow(c: Checker)
    requires Ample(c, Claim) && c.csis != []
    ensures OneRunMakes(c, Claim) < PerCsi(c.maxPods, c.csis)
  {
    PerCsiIsProduct(c.maxPods, c.csis);
    assert c.maxPods * |c.csis| >= |c.csis|;
  }

  lemma {:induction false} LimitNextOpen(c: Checker, kind: Kind, ts: nat, i: nat)
    requires c.PodStartup?
    ensures NotAtLimit(kind, LimitNext(c, ts, i))
    decreases |c.csis| - i
  {
    if i < |c.csis| && !c.csis[i].AzureFile? {
      LimitNextOpen(c, kind, ts, i + 1);
    }
  }

  // ---- Every reachable state ----

  ghost predicate Healthful(env: Env, w: World, i: nat, kind: Kind)
    requires i < |env.chks|
  {
    && i < |w.locals|
    && Calm(env.chks[i], kind, env.cancel, w.store, w.locals[i])
    && NotAtLimit(kind, w.locals[i].pc)
    && (Stored(kind) ==> Inv(env, w) && NewAhead(env.chks[i], w.store, w.locals[i].pc))
  }

  lemma ForeignFewer(env: Env, w: World, e: Event, w': World, i: nat, kind: Kind)
    requires DistinctNames(env.chks) && e.Call? && Next(env, w, e, w') && i < |env.chks| && e.i != i && !kind.NodePool?
    ensures Fewer(env.chks[i], kind, w.store, w'.store)
  {
    ForeignObjects(env.chks[i], env.chks[e.i], env.gran, StepBy(w, e, w'));
  }

  lemma OwnHealthful(c: Checker, kind: Kind, cancel: nat, gran: nat, s: Step, l: Local, l': Local)
    requires OwnCall(c, kind, gran, s, l, l') && Ample(c, kind) && Calm(c, kind, cancel, s.st, l)
    requires NotAtLimit(kind, l.pc) && (Stored(kind) ==> NewAhead(c, s.st, l.pc))
    ensures Calm(c, kind, cancel, s.st', l') && NotAtLimit(kind, l'.pc)
  {
    OwnCalm(c, kind, cancel, gran, s, l, l');
    if ReadsList(kind, l.pc) && s.reply.Items? {
      FewListed(c, kind, cancel, gran, s, l, l');
    }
    LimitFlow(c, kind, l.pc, s.reply);
  }

  lemma CallHealthful(env: Env, w: World, e: Event, w': World, i: nat, kind: Kind)
    requires DistinctNames(env.chks) && i < |env.chks| && Limits(env.chks[i], kind) && Ample(env.chks[i], kind)
    requires Healthful(env, w, i, kind) && e.Call? && Next(env, w, e, w') && Prompt(w, e, i, kind)
    ensures Calm(env.chks[i], kind, env.cancel, w'.store, w'.locals[i]) && NotAtLimit(kind, w'.locals[i].pc)
  {
    var c, l, l' := env.chks[i], w.locals[i], w'.locals[i];
    if e.i == i {
      OwnHealthful(c, kind, env.cancel, env.gran, StepBy(w, e, w'), l, l');
    } else {
      ForeignFewer(env, w, e, w', i, kind);
      FewerIn(c, kind, env.cancel, w.store, w'.store, l, PhaseOf(kind, l.pc));
    }
  }

  // A run that begins finds what the one before left.
  lemma BeginsCalm(c: Checker, kind: Kind, cancel: nat, st: Objects, l: Local, l': Local)
    requires Limits(c, kind) && Rested(c, kind, cancel, st, l) && l.clock <= l'.start == l'.clock
    requires l'.pc == Start(c) && l'.deadline == Min(cancel, l'.start + c.timeout)
    ensures Calm(c, kind, cancel, st, l')
  {
    var s := Own(c, kind, st);
    forall p, q | p in s && q in s && l'.start < cancel && Young(c, st, p, l'.start) && Young(c, st, q, l'.start)
      ensures Alike(c, p, q)
    {
      assert Young(c, st, p, l.clock) && Young(c, st, q, l.clock);
    }
  }

  lemma HealthfulNext(env: Env, w: World, e: Event, w': World, i: nat, kind: Kind)
    requires DistinctNames(env.chks) && i < |env.chks| && Limits(env.chks[i], kind) && Ample(env.chks[i], kind)
    requires Healthful(env, w, i, kind) && Next(env, w, e, w') && Prompt(w, e, i, kind)
    ensures Healthful(env, w', i, kind)
  {
    var c, l, l' := env.chks[i], w.locals[i], w'.locals[i];
    if Stored(kind) {
      InvNext(env, w, e, w');
      NewAheadNext(env, w, e, w', i);
    }
    match e {
      case Begin(j, t) =>
        if i == j {
          BeginsCalm(c, kind, env.cancel, w.store, l, l');
        }
      case Call(_, _, _, _, _, _) => CallHealthful(env, w, e, w', i, kind);
      case Vanish(k) => FewerIn(c, kind, env.cancel, w.store, w'.store, l, PhaseOf(kind, l.pc));
      case Crash => assert false;
    }
  }

  // Checker i, begun at rest, answers its calls promptly throughout.
  ghost predicate PromptFrom(env: Env, ws: seq<World>, es: seq<Event>, i: nat, kind: Kind)
  {
    && i < |env.chks| && Limits(env.chks[i], kind) && Behaviour(env, ws, es)
    && i < |ws[0].locals| && Rested(env.chks[i], kind, env.cancel, ws[0].store, ws[0].locals[i])
    && (Stored(kind) ==> SignedStore(env, ws[0].births, ws[0].store))
    && forall m | 0 <= m < |es| :: i < |ws[m].locals| && Prompt(ws[m], es[m], i, kind)
  }

  lemma {:induction false} StaysHealthful(env: Env, ws: seq<World>, es: seq<Event>, n: nat, i: nat, kind: Kind)
    requires DistinctNames(env.chks) && PromptFrom(env, ws, es, i, kind) && n < |ws| && Ample(env.chks[i], kind)
    ensures Healthful(env, ws[n], i, kind)
  {
    if n > 0 {
      StaysHealthful(env, ws, es, n - 1, i, kind);
      HealthfulNext(env, ws[n - 1], es[n - 1], ws[n], i, kind);
    }
  }

  // No kind's maximum is ever reported, given that what the cleaning up of that kind rests on works in
  // time, one run's leftovers are below the limit and those it started with are of one run: whatever
  // the other checkers, the rest of the calls and the shutdown time.
  lemma NeverAtMaximum(env: Env, ws: seq<World>, es: seq<Event>, n: nat, i: nat, kind: Kind)
    requires DistinctNames(env.chks) && PromptFrom(env, ws, es, i, kind) && n < |ws| && Ample(env.chks[i], kind)
    ensures i < |ws[n].locals| && ws[n].locals[i].pc != Done(Maximum(kind))
  {
    StaysHealthful(env, ws, es, n, i, kind);
  }

  // Under the same conditions, a list read by the limit check shows what one run can have left.
  lemma LeftoversWhenListed(env: Env, ws: seq<World>, es: seq<Event>, n: nat, i: nat, kind: Kind)
    requires DistinctNames(env.chks) && PromptFrom(env, ws, es, i, kind) && n < |es| && Ample(env.chks[i], kind)
    requires es[n].Call? && es[n].i == i && ReadsList(kind, ws[n].locals[i].pc) && es[n].reply.Items?
    ensures |es[n].reply.items| == |Own(env.chks[i], kind, ws[n].store)| <= OneRunMakes(env.chks[i], kind)
  {
    StaysHealthful(env, ws, es, n, i, kind);
    FewListed(env.chks[i], kind, env.cancel, env.gran, StepBy(ws[n], es[n], ws[n + 1]), ws[n].locals[i],
              ws[n + 1].locals[i]);
  }
}
