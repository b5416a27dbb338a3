// What a run is about to create is not there yet: run timestamps are new when they are taken, and
// nobody else's names end in them.
module NewNames {
  import opened Cluster
  import opened Protocol
  import opened System
  import opened Ownership

  predicate Awaits(pc: Pc)
  {
    pc.LimitClaims? || pc.LimitClasses? || pc.CsiCreate?
  }

  // How many of its storage objects the run has created.
  function MadeSoFar(pc: Pc): nat
  {
    if pc.CsiCreate? then pc.j else 0
  }

  // None of those it is still to create exists.
  ghost predicate NewAhead(c: Checker, st: Objects, pc: Pc)
  {
    Awaits(pc) ==> forall n | MadeSoFar(pc) <= n < |Plan(c, pc.ts)| :: Plan(c, pc.ts)[n].key !in st
  }

  // Nothing is planned, or all that is can be created.
  predicate Settles(c: Checker)
  {
    c.PodStartup? && (Creatable(c.csis) || c.csis[0].OtherCsi?)
  }

  lemma {:induction false} LimitNextAwaits(c: Checker, ts: nat, i: nat)
    requires c.PodStartup?
    ensures var pc := LimitNext(c, ts, i); Awaits(pc) ==> pc.ts == ts && (pc.CsiCreate? ==> pc.j == 0)
    decreases |c.csis| - i
  {
    if i < |c.csis| && !c.csis[i].AzureFile? {
      LimitNextAwaits(c, ts, i + 1);
    }
  }

  lemma OwnNewAhead(c: Checker, gran: nat, s: Step)
    requires Settles(c) && CallStep(c, gran, s) && NewAhead(c, s.st, s.before)
    requires s.before.TakeStamp? ==> forall k | k in s.st && Stamp(k) == Some(s.at) :: k.kind.NodePool?
    ensures NewAhead(c, s.st', s.after)
  {
    match s.before {
      case LimitClaims(ts) => LimitNextAwaits(c, ts, 0);
      case LimitClasses(ts, i) => LimitNextAwaits(c, ts, i + 1);
      case TakeStamp => StampIsNew(c, s.st, s.at);
      case CsiCreate(ts, j) => NextIsNew(c, gran, s);
      case _ =>
    }
  }

  lemma NextIsNew(c: Checker, gran: nat, s: Step)
    requires Settles(c) && CallStep(c, gran, s) && NewAhead(c, s.st, s.before) && s.before.CsiCreate?
    ensures forall n | s.before.j < n < |Plan(c, s.before.ts)| :: Plan(c, s.before.ts)[n].key !in s.st'
  {
    var ts, j := s.before.ts, s.before.j;
    forall n | j < n < |Plan(c, ts)| ensures Plan(c, ts)[n].key !in s.st' {
      PlanDistinct(c, c.csis, ts, j, n);
    }
  }

  lemma StampIsNew(c: Checker, st: Objects, ts: nat)
    requires c.PodStartup? && forall k | k in st && Stamp(k) == Some(ts) :: k.kind.NodePool?
    ensures forall n | 0 <= n < |Plan(c, ts)| :: Plan(c, ts)[n].key !in st
  {
    forall n | 0 <= n < |Plan(c, ts)| ensures Plan(c, ts)[n].key !in st {
      PlanStamps(c, c.csis, ts, n);
      PlanKinds(c, c.csis, ts, n);
    }
  }

  // Another checker's objects bear the timestamps of its own runs.
  lemma ForeignNewAhead(env: Env, w: World, e: Event, w': World, i: nat)
    requires Inv(env, w) && e.Call? && Next(env, w, e, w') && i < |env.chks| && e.i != i
    requires NewAhead(env.chks[i], w.store, w.locals[i].pc)
    ensures NewAhead(env.chks[i], w'.store, w'.locals[i].pc)
  {
    var c, pc, other := env.chks[i], w.locals[i].pc, w.locals[e.i].pc;
    ServesFrame(env.gran, w.store, Want(env.chks[e.i], other), e.at, e.stamp, e.fault, e.reply, w'.store);
    OwnKeys(env.chks[e.i], other);
    if Awaits(pc) {
      forall n | MadeSoFar(pc) <= n < |Plan(c, pc.ts)| ensures Plan(c, pc.ts)[n].key !in w'.store {
        PlanStamps(c, c.csis, pc.ts, n);
        assert RunStamp(pc) == Some(pc.ts) && w.births[pc.ts].owner == i;
      }
    }
  }

  lemma NewAheadNext(env: Env, w: World, e: Event, w': World, i: nat)
    requires Inv(env, w) && Next(env, w, e, w') && i < |env.chks| && Settles(env.chks[i])
    requires NewAhead(env.chks[i], w.store, w.locals[i].pc)
    ensures NewAhead(env.chks[i], w'.store, w'.locals[i].pc)
  {
    if e.Call? {
      if e.i == i {
        OwnNewAhead(env.chks[i], env.gran, StepBy(w, e, w'));
      } else {
        ForeignNewAhead(env, w, e, w', i);
      }
    }
  }
}
