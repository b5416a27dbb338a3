// A checker's own calls keep its runs calm: each leads from the phase the run is in to the next, with what
// that phase says of the leftovers.
module CalmRuns {
  import opened Results
  import opened Cluster
  import opened Protocol
  import opened System
  import opened Ownership
  import opened NewNames
  import opened Leftovers

  // ---- The checker's own step ----

  // Checker c, at local state l, makes a call answered at l'.clock.
  ghost predicate OwnCall(c: Checker, kind: Kind, gran: nat, s: Step, l: Local, l': Local)
  {
    && Limits(c, kind) && Running(l.pc)
    && l.clock <= s.at <= l'.clock && l' == l.(pc := l'.pc, clock := l'.clock)
    && s.before == l.pc && s.after == l'.pc && CallStep(c, gran, s)
    && (l.deadline <= s.at ==> s.fault.Fails?)
    && (l'.clock < l.deadline ==> Dutiful(kind, l.pc, s.fault))
  }

  predicate Creates(kind: Kind, pc: Pc)
  {
    match kind
    case Pod => pc.CreatePod?
    case ConfigMap => pc.CreateMap?
    case NodePool => false
    case _ => pc.CsiCreate?
  }

  lemma OwnFewer(c: Checker, kind: Kind, gran: nat, s: Step, l: Local, l': Local)
    requires OwnCall(c, kind, gran, s, l, l') && !Creates(kind, l.pc)
    ensures Fewer(c, kind, s.st, s.st')
  {
    ServesFrame(gran, s.st, Want(c, l.pc), s.at, s.stamp, s.fault, s.reply, s.st');
    if l.pc.CsiCreate? {
      PlanKinds(c, c.csis, l.pc.ts, l.pc.j);
    }
  }

  lemma OwnCreates(c: Checker, kind: Kind, gran: nat, s: Step, l: Local, l': Local)
    requires OwnCall(c, kind, gran, s, l, l') && Creates(kind, l.pc)
    ensures FewerBut(c, kind, s.st, s.st', l.pc.ts, l.deadline)
  {
    if l.pc.CsiCreate? {
      PlanStamps(c, c.csis, l.pc.ts, l.pc.j);
    }
  }

  // Phases a run can be in that has created nothing of the kind.
  predicate Idling(kind: Kind, phase: Phase)
  {
    phase.AtRest? || phase.Clean? || phase.Holding? || (phase.PodGoing? && kind.Pod?)
  }

  lemma BeforeIn(c: Checker, kind: Kind, cancel: nat, st: Objects, l: Local, phase: Phase)
    requires Timely(c, cancel, l) && Before(c, kind, cancel, st, l) && Idling(kind, phase)
    ensures In(c, kind, cancel, st, l, phase)
  {
    match phase {
      case AtRest => BeforeRests(c, kind, cancel, st, l);
      case Holding(ts) => BeforeAfter(c, kind, cancel, st, ts, l);
      case _ =>
    }
  }

  lemma BeforeGoesOn(c: Checker, kind: Kind, cancel: nat, gran: nat, s: Step, l: Local, l': Local)
    requires OwnCall(c, kind, gran, s, l, l') && !Creates(kind, l.pc) && Timely(c, cancel, l)
    requires Before(c, kind, cancel, s.st, l)
    ensures Before(c, kind, cancel, s.st', l')
  {
    OwnFewer(c, kind, gran, s, l, l');
    FewerOwn(c, kind, cancel, s.st, s.st', [], l);
  }

  lemma AfterGoesOn(c: Checker, kind: Kind, cancel: nat, gran: nat, s: Step, l: Local, l': Local, ts: nat)
    requires OwnCall(c, kind, gran, s, l, l') && Timely(c, cancel, l) && (Creates(kind, l.pc) ==> ts == l.pc.ts)
    requires After(c, kind, cancel, s.st, ts, l)
    ensures After(c, kind, cancel, s.st', ts, l')
  {
    if Creates(kind, l.pc) {
      OwnCreates(c, kind, gran, s, l, l');
    } else {
      OwnFewer(c, kind, gran, s, l, l');
    }
    FewerAfter(c, kind, cancel, s.st, s.st', ts, l);
  }

  // ---- Collection ----

  // Collection goes from kind to kind in order; none that has a limit is left out.
  lemma UncollectedFlow(c: Checker, kind: Kind, pc: Pc, r: Reply)
    requires Belongs(c, pc) && Limits(c, kind) && PhaseOf(kind, pc).Uncollected?
    ensures pc != GcList(kind) ==> PhaseOf(kind, Resume(c, pc, r)).Uncollected? && !Creates(kind, pc)
    ensures pc == GcList(kind) ==>
              PhaseOf(kind, Resume(c, pc, r)) == if r.Items? && r.items != [] then Sweeping(r.items) else Clean
  {
  }

  lemma SweepingFlow(c: Checker, kind: Kind, pc: Pc, r: Reply)
    requires Belongs(c, pc) && Limits(c, kind) && PhaseOf(kind, pc).Sweeping?
    ensures (pc.GcAge? || pc.GcDelete?) && pc.kind == kind && pc.todo != []
    ensures var rest := if pc.todo[1..] == [] then Clean else Sweeping(pc.todo[1..]);
            PhaseOf(kind, Resume(c, pc, r)) ==
            if pc.GcAge? && (!r.Time? || r.t - pc.todo[0].created > c.timeout) then Sweeping(pc.todo) else rest
  {
  }

  lemma UncollectedStep(c: Checker, kind: Kind, cancel: nat, gran: nat, s: Step, l: Local, l': Local)
    requires OwnCall(c, kind, gran, s, l, l') && Calm(c, kind, cancel, s.st, l) && PhaseOf(kind, l.pc).Uncollected?
    ensures Calm(c, kind, cancel, s.st', l')
  {
    UncollectedFlow(c, kind, l.pc, s.reply);
    if l.pc == GcList(kind) {
      ListStep(c, kind, cancel, gran, s, l, l');
    } else {
      OwnFewer(c, kind, gran, s, l, l');
      FewerOwn(c, kind, cancel, s.st, s.st', [], l);
    }
  }

  lemma ListStep(c: Checker, kind: Kind, cancel: nat, gran: nat, s: Step, l: Local, l': Local)
    requires OwnCall(c, kind, gran, s, l, l') && l.pc == GcList(kind)
    requires Begun(c, cancel, s.st, Own(c, kind, s.st), l)
    ensures SweptTo(c, kind, cancel, s.st', if s.reply.Items? then s.reply.items else [], l')
  {
    assert KeysOf([]) == {};
  }

  lemma SweepingStep(c: Checker, kind: Kind, cancel: nat, gran: nat, s: Step, l: Local, l': Local)
    requires OwnCall(c, kind, gran, s, l, l') && Calm(c, kind, cancel, s.st, l) && PhaseOf(kind, l.pc).Sweeping?
    ensures Calm(c, kind, cancel, s.st', l')
  {
    var todo := l.pc.todo;
    SweepingFlow(c, kind, l.pc, s.reply);
    OwnFewer(c, kind, gran, s, l, l');
    FewerOwn(c, kind, cancel, s.st, s.st', todo, l);
    if PhaseOf(kind, l'.pc) != Sweeping(todo) {
      ItemDone(c, kind, cancel, gran, s, l, l');
    }
  }

  // An item was looked at and is young, or was deleted, if the deletion was in time.
  lemma ItemDone(c: Checker, kind: Kind, cancel: nat, gran: nat, s: Step, l: Local, l': Local)
    requires OwnCall(c, kind, gran, s, l, l') && l.start <= l.clock
    requires (l.pc.GcAge? || l.pc.GcDelete?) && l.pc.kind == kind && l.pc.todo != []
    requires SweptTo(c, kind, cancel, s.st', l.pc.todo, l)
    requires l.pc.GcAge? ==> s.reply.Time? && s.reply.t - l.pc.todo[0].created <= c.timeout
    ensures SweptTo(c, kind, cancel, s.st', l.pc.todo[1..], l')
  {
    var todo := l.pc.todo;
    KeysOfCons(todo);
    forall p | p in Own(c, kind, s.st') && l'.clock < l.deadline
      ensures Young(c, s.st', p, l.start) || p in KeysOf(todo[1..])
    {
      assert Young(c, s.st', p, l.start) || p in KeysOf(todo);
      if p == todo[0].key {
        assert todo[0].created == s.st'[p].created;
      }
    }
  }

  // ---- Between collection and creation ----

  lemma {:induction false} LimitNextPhase(c: Checker, kind: Kind, ts: nat, i: nat)
    requires c.PodStartup? && Limits(c, kind)
    ensures Idling(kind, PhaseOf(kind, LimitNext(c, ts, i)))
    decreases |c.csis| - i
  {
    if i < |c.csis| && !c.csis[i].AzureFile? {
      LimitNextPhase(c, kind, ts, i + 1);
    }
  }

  lemma CleanFlow(c: Checker, kind: Kind, pc: Pc, r: Reply)
    requires Belongs(c, pc) && Limits(c, kind) && PhaseOf(kind, pc).Clean? && !Creates(kind, pc)
    ensures Idling(kind, PhaseOf(kind, Resume(c, pc, r)))
  {
    if pc.LimitClaims? {
      LimitNextPhase(c, kind, pc.ts, 0);
    } else if pc.LimitClasses? {
      LimitNextPhase(c, kind, pc.ts, pc.i + 1);
    }
  }

  lemma CleanStep(c: Checker, kind: Kind, cancel: nat, gran: nat, s: Step, l: Local, l': Local)
    requires OwnCall(c, kind, gran, s, l, l') && Calm(c, kind, cancel, s.st, l)
    requires PhaseOf(kind, l.pc).Clean? && !Creates(kind, l.pc)
    ensures Calm(c, kind, cancel, s.st', l')
  {
    CleanFlow(c, kind, l.pc, s.reply);
    BeforeGoesOn(c, kind, cancel, gran, s, l, l');
    BeforeIn(c, kind, cancel, s.st', l', PhaseOf(kind, l'.pc));
  }

  // ---- Creation ----

  lemma CreationFlow(c: Checker, kind: Kind, pc: Pc, r: Reply)
    requires Belongs(c, pc) && Limits(c, kind) && PhaseOf(kind, pc).Clean? && Creates(kind, pc)
    ensures var phase := PhaseOf(kind, Resume(c, pc, r));
            && Idling(kind, phase) && !phase.Clean?
            && (phase.Holding? ==> phase.ts == pc.ts) && (phase.PodGoing? ==> phase.ts == pc.ts)
            && (phase.Holding? <==> r == Status(None))
  {
  }

  // A pod or ConfigMap: one that was not made in time leaves all as it was.
  lemma CreateStep(c: Checker, kind: Kind, cancel: nat, gran: nat, s: Step, l: Local, l': Local)
    requires OwnCall(c, kind, gran, s, l, l') && Calm(c, kind, cancel, s.st, l)
    requires PhaseOf(kind, l.pc).Clean? && Creates(kind, l.pc)
    ensures Calm(c, kind, cancel, s.st', l')
  {
    CreationFlow(c, kind, l.pc, s.reply);
    if s.reply != Status(None) && !Late(l') {
      NothingCreated(c, kind, gran, s, l, l');
      BeforeIn(c, kind, cancel, s.st', l', PhaseOf(kind, l'.pc));
    } else {
      BeforeAfter(c, kind, cancel, s.st, l.pc.ts, l);
      AfterGoesOn(c, kind, cancel, gran, s, l, l', l.pc.ts);
      if Late(l') {
        LateRests(c, kind, cancel, s.st', l.pc.ts, l');
      }
    }
  }

  lemma NothingCreated(c: Checker, kind: Kind, gran: nat, s: Step, l: Local, l': Local)
    requires OwnCall(c, kind, gran, s, l, l') && Creates(kind, l.pc) && !Stored(kind)
    requires s.reply != Status(None) && l'.clock < l.deadline
    ensures s.st' == s.st
  {
  }

  lemma StoreFlow(c: Checker, kind: Kind, pc: Pc, r: Reply)
    requires Belongs(c, pc) && Stored(kind) && pc.CsiCreate? && Supported(c.csis)
    ensures PhaseOf(kind, pc) == Holding(pc.ts)
    ensures PhaseOf(kind, Resume(c, pc, r)) == if r == Status(None) then Holding(pc.ts) else AtRest
  {
  }

  // A storage object, new under its name.
  lemma StoreStep(c: Checker, kind: Kind, cancel: nat, gran: nat, s: Step, l: Local, l': Local)
    requires OwnCall(c, kind, gran, s, l, l') && Calm(c, kind, cancel, s.st, l)
    requires l.pc.CsiCreate? && Stored(kind) && NewAhead(c, s.st, l.pc) && Supported(c.csis)
    ensures Calm(c, kind, cancel, s.st', l')
  {
    StoreFlow(c, kind, l.pc, s.reply);
    AfterGoesOn(c, kind, cancel, gran, s, l, l', l.pc.ts);
    if s.reply != Status(None) {
      StoreRefused(c, kind, gran, s, l, l');
      LateRests(c, kind, cancel, s.st', l.pc.ts, l');
    }
  }

  // In time it is not refused.
  lemma StoreRefused(c: Checker, kind: Kind, gran: nat, s: Step, l: Local, l': Local)
    requires OwnCall(c, kind, gran, s, l, l') && l.pc.CsiCreate? && Stored(kind) && NewAhead(c, s.st, l.pc)
    requires s.reply != Status(None)
    ensures Late(l')
  {
  }

  // ---- From creation to the end ----

  lemma PodFlow(c: Checker, pc: Pc, r: Reply)
    requires Belongs(c, pc) && c.PodStartup? && PhaseOf(Pod, pc).Holding?
    ensures var phase := PhaseOf(Pod, Resume(c, pc, r));
            if pc.DeletePod? then phase.AtRest? || phase == PodGoing(pc.ts) else phase == PhaseOf(Pod, pc)
  {
  }

  lemma PodStep(c: Checker, cancel: nat, gran: nat, s: Step, l: Local, l': Local)
    requires OwnCall(c, Pod, gran, s, l, l') && Calm(c, Pod, cancel, s.st, l) && PhaseOf(Pod, l.pc).Holding?
    ensures Calm(c, Pod, cancel, s.st', l')
  {
    PodFlow(c, l.pc, s.reply);
    AfterGoesOn(c, Pod, cancel, gran, s, l, l', l.pc.ts);
    if l.pc.DeletePod? {
      EndsOrLate(c, Pod, cancel, s.st', l.pc.ts, l');
    }
  }

  // With its own objects gone or its time used up, a run can come to rest.
  lemma EndsOrLate(c: Checker, kind: Kind, cancel: nat, st: Objects, ts: nat, l: Local)
    requires Timely(c, cancel, l) && After(c, kind, cancel, st, ts, l)
    requires Late(l) || forall k | k in Own(c, kind, st) :: !Makes(c, kind, ts, k)
    ensures Rested(c, kind, cancel, st, l)
    ensures kind.Pod? ==> PodGone(c, cancel, st, ts, l)
  {
    if Late(l) {
      LateRests(c, kind, cancel, st, ts, l);
    } else {
      GoneBefore(c, kind, cancel, st, ts, l);
      BeforeRests(c, kind, cancel, st, l);
    }
  }

  lemma MapFlow(c: Checker, pc: Pc, r: Reply)
    requires Belongs(c, pc) && c.ApiServer? && PhaseOf(ConfigMap, pc).Holding?
    ensures RunStamp(pc) == Some(PhaseOf(ConfigMap, pc).ts) && !Creates(ConfigMap, pc)
    ensures var phase := PhaseOf(ConfigMap, Resume(c, pc, r));
            if pc.CleanMap? then phase.AtRest? else phase == PhaseOf(ConfigMap, pc)
  {
  }

  lemma MapStep(c: Checker, cancel: nat, gran: nat, s: Step, l: Local, l': Local)
    requires OwnCall(c, ConfigMap, gran, s, l, l') && Calm(c, ConfigMap, cancel, s.st, l)
    requires PhaseOf(ConfigMap, l.pc).Holding?
    ensures Calm(c, ConfigMap, cancel, s.st', l')
  {
    var ts := PhaseOf(ConfigMap, l.pc).ts;
    MapFlow(c, l.pc, s.reply);
    AfterGoesOn(c, ConfigMap, cancel, gran, s, l, l', ts);
    if l.pc.CleanMap? {
      if !Late(l') {
        MapGone(c, gran, s, l, l');
      }
      EndsOrLate(c, ConfigMap, cancel, s.st', ts, l');
    }
  }

  lemma MapGone(c: Checker, gran: nat, s: Step, l: Local, l': Local)
    requires OwnCall(c, ConfigMap, gran, s, l, l') && l.pc.CleanMap? && l'.clock < l.deadline
    ensures MapKey(c, l.pc.ts) !in s.st'
  {
  }

  lemma UnwindPhase(c: Checker, kind: Kind, ts: nat, v: Verdict)
    requires Stored(kind)
    ensures PhaseOf(kind, Unwind(c, ts, v)) == if Plan(c, ts) == [] then AtRest else StoreGoing(ts, 0)
  {
  }

  // The run goes on holding them, or unwinds.
  lemma StoreHeldFlow(c: Checker, kind: Kind, pc: Pc, r: Reply)
    requires Belongs(c, pc) && c.PodStartup? && Stored(kind) && PhaseOf(kind, pc).Holding? && !pc.CsiCreate?
    ensures RunStamp(pc) == Some(PhaseOf(kind, pc).ts) && !Creates(kind, pc)
    ensures var ts, phase := PhaseOf(kind, pc).ts, PhaseOf(kind, Resume(c, pc, r));
            phase == Holding(ts) || phase == if Plan(c, ts) == [] then AtRest else StoreGoing(ts, 0)
  {
    match pc {
      case ListPods(ts) =>
        UnwindPhase(c, kind, ts, Failed(PodList));
        UnwindPhase(c, kind, ts, Failed(PodLimit));
      case CheckCrd(ts) =>
        UnwindPhase(c, kind, ts, Skipped);
        UnwindPhase(c, kind, ts, Failed(CrdCheck));
      case CreatePool(ts) => UnwindPhase(c, kind, ts, Failed(PoolCreateFailed));
      case CreatePod(ts) =>
        UnwindPhase(c, kind, ts, Unhealthy(PodCreationTimeout));
        UnwindPhase(c, kind, ts, Unhealthy(PodCreationError));
      case DeletePod(ts, v) => UnwindPhase(c, kind, ts, v);
      case DeletePool(ts, v) => UnwindPhase(c, kind, ts, v);
      case _ =>
    }
  }

  lemma StoreHeldStep(c: Checker, kind: Kind, cancel: nat, gran: nat, s: Step, l: Local, l': Local)
    requires OwnCall(c, kind, gran, s, l, l') && Calm(c, kind, cancel, s.st, l)
    requires Stored(kind) && PhaseOf(kind, l.pc).Holding? && !l.pc.CsiCreate?
    ensures Calm(c, kind, cancel, s.st', l')
  {
    var ts := PhaseOf(kind, l.pc).ts;
    StoreHeldFlow(c, kind, l.pc, s.reply);
    AfterGoesOn(c, kind, cancel, gran, s, l, l', ts);
    if Plan(c, ts) == [] && PhaseOf(kind, l'.pc).AtRest? {
      EndsOrLate(c, kind, cancel, s.st', ts, l');
    }
  }

  // ---- The deferred deletion ----

  lemma PodGoingFlow(c: Checker, pc: Pc, r: Reply)
    requires Belongs(c, pc) && c.PodStartup? && PhaseOf(Pod, pc).PodGoing?
    ensures !Creates(Pod, pc)
    ensures var phase := PhaseOf(Pod, Resume(c, pc, r)); phase.AtRest? || phase == PhaseOf(Pod, pc)
  {
  }

  lemma PodGoingStep(c: Checker, cancel: nat, gran: nat, s: Step, l: Local, l': Local)
    requires OwnCall(c, Pod, gran, s, l, l') && Calm(c, Pod, cancel, s.st, l) && PhaseOf(Pod, l.pc).PodGoing?
    ensures Calm(c, Pod, cancel, s.st', l')
  {
    PodGoingFlow(c, l.pc, s.reply);
    if Before(c, Pod, cancel, s.st, l) {
      BeforeGoesOn(c, Pod, cancel, gran, s, l, l');
      BeforeIn(c, Pod, cancel, s.st', l', PhaseOf(Pod, l'.pc));
    } else {
      AfterGoesOn(c, Pod, cancel, gran, s, l, l', PhaseOf(Pod, l.pc).ts);
      EndsOrLate(c, Pod, cancel, s.st', PhaseOf(Pod, l.pc).ts, l');
    }
  }

  lemma StoreGoingFlow(c: Checker, kind: Kind, pc: Pc, r: Reply)
    requires Belongs(c, pc) && Stored(kind) && pc.CsiDelete?
    ensures PhaseOf(kind, pc) == StoreGoing(pc.ts, pc.j) && !Creates(kind, pc)
    ensures PhaseOf(kind, Resume(c, pc, r)) ==
            if r.Status? && Tolerable(r.err) && pc.j + 1 < |Plan(c, pc.ts)| then StoreGoing(pc.ts, pc.j + 1) else AtRest
  {
  }

  lemma StoreGoingStep(c: Checker, kind: Kind, cancel: nat, gran: nat, s: Step, l: Local, l': Local)
    requires OwnCall(c, kind, gran, s, l, l') && Calm(c, kind, cancel, s.st, l) && Stored(kind) && l.pc.CsiDelete?
    ensures Calm(c, kind, cancel, s.st', l')
  {
    StoreGoingFlow(c, kind, l.pc, s.reply);
    AfterGoesOn(c, kind, cancel, gran, s, l, l', l.pc.ts);
    if !Late(l') {
      OneGone(c, kind, cancel, gran, s, l, l');
    }
    if PhaseOf(kind, l'.pc).AtRest? {
      EndsOrLate(c, kind, cancel, s.st', l.pc.ts, l');
    }
  }

  // In time, entry j is gone.
  lemma OneGone(c: Checker, kind: Kind, cancel: nat, gran: nat, s: Step, l: Local, l': Local)
    requires OwnCall(c, kind, gran, s, l, l') && Stored(kind) && l.pc.CsiDelete? && l'.clock < l.deadline
    requires StoreGone(c, kind, cancel, s.st, l.pc.ts, l.pc.j, l)
    ensures forall k | k in Own(c, kind, s.st') && Makes(c, kind, l.pc.ts, k) ::
              exists n | l.pc.j + 1 <= n < |Plan(c, l.pc.ts)| :: Plan(c, l.pc.ts)[n].key == k
    ensures s.reply.Status? && Tolerable(s.reply.err)
  {
    var ts, j := l.pc.ts, l.pc.j;
    OwnFewer(c, kind, gran, s, l, l');
    forall k | k in Own(c, kind, s.st') && Makes(c, kind, ts, k)
      ensures exists n | j + 1 <= n < |Plan(c, ts)| :: Plan(c, ts)[n].key == k
    {
      var n :| j <= n < |Plan(c, ts)| && Plan(c, ts)[n].key == k;
      assert n != j;
    }
  }

  lemma HeldStep(c: Checker, kind: Kind, cancel: nat, gran: nat, s: Step, l: Local, l': Local)
    requires OwnCall(c, kind, gran, s, l, l') && Calm(c, kind, cancel, s.st, l) && PhaseOf(kind, l.pc).Holding?
    requires l.pc.CsiCreate? && Stored(kind) ==> NewAhead(c, s.st, l.pc) && Supported(c.csis)
    ensures Calm(c, kind, cancel, s.st', l')
  {
    if kind.Pod? {
      PodStep(c, cancel, gran, s, l, l');
    } else if kind.ConfigMap? {
      MapStep(c, cancel, gran, s, l, l');
    } else if l.pc.CsiCreate? {
      StoreStep(c, kind, cancel, gran, s, l, l');
    } else {
      StoreHeldStep(c, kind, cancel, gran, s, l, l');
    }
  }

  lemma OwnCalm(c: Checker, kind: Kind, cancel: nat, gran: nat, s: Step, l: Local, l': Local)
    requires OwnCall(c, kind, gran, s, l, l') && Calm(c, kind, cancel, s.st, l)
    requires l.pc.CsiCreate? && Stored(kind) ==> NewAhead(c, s.st, l.pc) && Supported(c.csis)
    ensures Calm(c, kind, cancel, s.st', l')
  {
    match PhaseOf(kind, l.pc) {
      case Uncollected => UncollectedStep(c, kind, cancel, gran, s, l, l');
      case Sweeping(_) => SweepingStep(c, kind, cancel, gran, s, l, l');
      case Clean =>
        if Creates(kind, l.pc) {
          CreateStep(c, kind, cancel, gran, s, l, l');
        } else {
          CleanStep(c, kind, cancel, gran, s, l, l');
        }
      case Holding(_) => HeldStep(c, kind, cancel, gran, s, l, l');
      case PodGoing(_) => PodGoingStep(c, cancel, gran, s, l, l');
      case StoreGoing(_, _) => StoreGoingStep(c, kind, cancel, gran, s, l, l');
      case AtRest =>
    }
  }
}
