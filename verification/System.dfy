// All scheduled checkers sharing one store: every interleaving of their API calls, with arbitrary
// faults, objects vanishing at any time and process restarts.
module System {
  import opened Cluster
  import opened Protocol

  // `gran`: creation timestamps are truncated by less than this (1 means exact).
  // `cancel`: when the parent context is cancelled.
  datatype Env = Env(chks: seq<Checker>, gran: nat, cancel: nat)

  // The one loop of a checker: where its current run is, when that began, when its context
  // expires, and the earliest time of the loop's next action.
  datatype Local = Local(pc: Pc, start: nat, deadline: nat, clock: nat)

  // Which checker took a run timestamp, in a run begun when.
  datatype Birth = Birth(owner: nat, start: nat)

  datatype World = World(store: Objects, locals: seq<Local>, now: nat, births: map<nat, Birth>)

  datatype Event =
    | Begin(i: nat, t: nat)
    | Call(i: nat, at: nat, done: nat, stamp: int, fault: Fault, reply: Reply)
    | Vanish(key: Key)
    | Crash

  function Min(a: nat, b: nat): nat { if a < b then a else b }

  ghost predicate Init(env: Env, w: World)
  {
    && |w.locals| == |env.chks|
    && forall i | 0 <= i < |w.locals| :: w.locals[i].pc == Idle && w.locals[i].clock >= w.now
  }

  // A run of checker i has begun at t.
  function BeginRun(env: Env, w: World, i: nat, t: nat): World
    requires i < |w.locals| == |env.chks|
  {
    w.(now := t,
       locals := w.locals[i := Local(Start(env.chks[i]), t, Min(env.cancel, t + env.chks[i].timeout), t)])
  }

  ghost predicate BeginStep(env: Env, w: World, i: nat, t: nat, w': World)
  {
    && i < |w.locals| == |env.chks|
    && !Running(w.locals[i].pc)
    && w.locals[i].clock <= t && w.now <= t
    && w' == BeginRun(env, w, i, t)
  }

  // A call takes effect at `at` and its answer is read at `done`. After the run's deadline no call
  // takes effect. Run timestamps are distinct.
  ghost predicate CallEvent(env: Env, w: World, i: nat, at: nat, done: nat, stamp: int, fault: Fault, reply: Reply,
                            w': World)
  {
    && i < |w.locals| == |env.chks|
    && Running(w.locals[i].pc)
    && |w'.locals| == |w.locals|
    && w.locals[i].clock <= at && w.now <= at <= done
    && CallStep(env.chks[i], env.gran,
                Step(w.locals[i].pc, w.store, at, stamp, fault, reply, w'.store, w'.locals[i].pc))
    && (w.locals[i].deadline <= at ==> fault.Fails?)
    && w'.locals == w.locals[i := w.locals[i].(pc := w'.locals[i].pc, clock := done)]
    && w'.now == at
    && if w.locals[i].pc.TakeStamp?
       then at !in w.births && w'.births == w.births[at := Birth(i, w.locals[i].start)]
       else w'.births == w.births
  }

  // The call of event e, which led from w to w'.
  function StepBy(w: World, e: Event, w': World): Step
    requires e.Call? && e.i < |w.locals| && e.i < |w'.locals|
  {
    Step(w.locals[e.i].pc, w.store, e.at, e.stamp, e.fault, e.reply, w'.store, w'.locals[e.i].pc)
  }

  ghost predicate CrashStep(env: Env, w: World, w': World)
  {
    && |w.locals| == |w'.locals| == |env.chks|
    && w' == w.(locals := w'.locals)
    && forall i | 0 <= i < |w'.locals| :: w'.locals[i].pc == Idle && w'.locals[i].clock >= w.now
  }

  ghost predicate Next(env: Env, w: World, e: Event, w': World)
  {
    match e
    case Begin(i, t) => BeginStep(env, w, i, t, w')
    case Call(i, at, done, stamp, fault, reply) => CallEvent(env, w, i, at, done, stamp, fault, reply, w')
    case Vanish(k) => |w.locals| == |env.chks| && w' == w.(store := w.store - {k})
    case Crash => CrashStep(env, w, w')
  }

  ghost predicate Behaviour(env: Env, ws: seq<World>, es: seq<Event>)
  {
    && |ws| == |es| + 1
    && Init(env, ws[0])
    && forall n | 0 <= n < |es| :: Next(env, ws[n], es[n], ws[n + 1])
  }

  // A stretch of a behaviour.
  ghost predicate Chain(env: Env, ws: seq<World>, es: seq<Event>)
  {
    |ws| == |es| + 1 && forall n | 0 <= n < |es| :: Next(env, ws[n], es[n], ws[n + 1])
  }

  lemma ChainAppend(env: Env, ws: seq<World>, es: seq<Event>, ws': seq<World>, es': seq<Event>)
    requires Chain(env, ws, es) && Chain(env, ws', es') && ws[|es|] == ws'[0]
    ensures Chain(env, ws + ws'[1..], es + es')
  {
    var vs, fs := ws + ws'[1..], es + es';
    forall n | 0 <= n < |fs| ensures Next(env, vs[n], fs[n], vs[n + 1]) {
      if n < |es| {
        assert vs[n] == ws[n] && vs[n + 1] == ws[n + 1];
      } else {
        assert vs[n] == ws'[n - |es|] && vs[n + 1] == ws'[n - |es| + 1];
      }
    }
  }

  predicate DistinctNames(chks: seq<Checker>)
  {
    forall i, j | 0 <= i < j < |chks| :: chks[i].name != chks[j].name
  }

  // ---- Every local stays on its own program points ----

  ghost predicate Wellformed(env: Env, w: World)
  {
    && |w.locals| == |env.chks|
    && forall i | 0 <= i < |w.locals| :: Belongs(env.chks[i], w.locals[i].pc)
  }

  lemma WellformedNext(env: Env, w: World, e: Event, w': World)
    requires Wellformed(env, w) && Next(env, w, e, w')
    ensures Wellformed(env, w')
  {
    if e.Call? {
      var i := e.i;
      ResumeBelongs(env.chks[i], w.locals[i].pc, e.reply);
    }
  }
}
