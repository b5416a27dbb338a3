// The run code, the scheduler loop and the interleaved system speak of the same thing: what the runs
// of a timetable say to the cluster, amid the calls of other checkers, is a behaviour of the system.
module Runs {
  import opened Results
  import opened Cluster
  import opened Protocol
  import opened Session
  import opened System
  import opened Scheduler
  import Bounds

  ghost predicate Reaches(env: Env, w: World, w': World)
  {
    exists ws, es :: Chain(env, ws, es) && ws[0] == w && ws[|es|] == w'
  }

  lemma ReachesOn(env: Env, a: World, b: World, c: World)
    requires Reaches(env, a, b) && Reaches(env, b, c)
    ensures Reaches(env, a, c)
  {
    var ws, es :| Chain(env, ws, es) && ws[0] == a && ws[|es|] == b;
    var ws', es' :| Chain(env, ws', es') && ws'[0] == b && ws'[|es'|] == c;
    ChainAppend(env, ws, es, ws', es');
    assert (ws + ws'[1..])[|es + es'|] == c;
  }

  lemma ReachesOne(env: Env, w: World, e: Event, w': World)
    requires Next(env, w, e, w')
    ensures Reaches(env, w, w')
  {
    assert Chain(env, [w, w'], [e]);
  }

  // ---- Meanwhile ----

  predicate NotBy(e: Event, i: nat)
  {
    match e
    case Begin(j, _) => j != i
    case Call(j, _, _, _, _, _) => j != i
    case Vanish(_) => true
    case Crash => false
  }

  // From w the others' events, and objects vanishing, lead to w'.
  ghost predicate Aside(env: Env, i: nat, w: World, w': World)
  {
    exists ws, es ::
      Chain(env, ws, es) && ws[0] == w && ws[|es|] == w' && forall n | 0 <= n < |es| :: NotBy(es[n], i)
  }

  lemma {:induction false} LocalKept(env: Env, i: nat, ws: seq<World>, es: seq<Event>, n: nat)
    requires Chain(env, ws, es) && n <= |es| && forall m | 0 <= m < |es| :: NotBy(es[m], i)
    requires i < |ws[0].locals| == |env.chks|
    ensures |ws[n].locals| == |env.chks| && ws[n].locals[i] == ws[0].locals[i]
  {
    if n > 0 {
      LocalKept(env, i, ws, es, n - 1);
      assert Next(env, ws[n - 1], es[n - 1], ws[n]);
    }
  }

  lemma AsideKeeps(env: Env, i: nat, w: World, w': World)
    requires Aside(env, i, w, w') && i < |w.locals| == |env.chks|
    ensures |w'.locals| == |env.chks| && w'.locals[i] == w.locals[i] && Reaches(env, w, w')
  {
    var ws, es :| Chain(env, ws, es) && ws[0] == w && ws[|es|] == w' && forall n | 0 <= n < |es| :: NotBy(es[n], i);
    LocalKept(env, i, ws, es, |es|);
  }

  lemma AsideNothing(env: Env, i: nat, w: World)
    ensures Aside(env, i, w, w)
  {
    assert Chain(env, [w], []);
  }

  // ---- One call ----

  // The world after checker i's call s found w.
  ghost function CallFrom(w: World, i: nat, s: Step): World
    requires i < |w.locals|
  {
    World(s.st', w.locals[i := w.locals[i].(pc := s.after, clock := s.at)], s.at,
          if s.before.TakeStamp? then w.births[s.at := Birth(i, w.locals[i].start)] else w.births)
  }

  // The call is made in w: in time order, without effect once the deadline has passed, a run
  // timestamp taken being a new one.
  ghost predicate MadeIn(w: World, i: nat, s: Step)
  {
    && i < |w.locals| && w.store == s.st && w.now <= s.at && w.locals[i].clock <= s.at
    && (w.locals[i].deadline <= s.at ==> s.fault.Fails?)
    && (s.before.TakeStamp? ==> s.at !in w.births)
  }

  lemma CallReaches(env: Env, w: World, i: nat, s: Step)
    requires i < |w.locals| == |env.chks| && MadeIn(w, i, s) && w.locals[i].pc == s.before
    requires CallStep(env.chks[i], env.gran, s)
    ensures Reaches(env, w, CallFrom(w, i, s))
  {
    assert Running(s.before) by {
      assert Want(env.chks[i], s.before) != Nothing;
    }
    ReachesOne(env, w, Call(i, s.at, s.at, s.stamp, s.fault, s.reply), CallFrom(w, i, s));
  }

  // ---- A conversation amid others ----

  // The world after the first m calls of the trace, of which call n found found[n].
  ghost function After(i: nat, begun: World, trace: seq<Step>, found: seq<World>, m: nat): World
    requires |found| == |trace| && m <= |trace| && forall n | 0 <= n < |found| :: i < |found[n].locals|
  {
    if m == 0 then begun else CallFrom(found[m - 1], i, trace[m - 1])
  }

  ghost predicate FoundAt(env: Env, i: nat, begun: World, trace: seq<Step>, found: seq<World>, n: nat)
    requires |found| == |trace| && n < |trace| && forall n | 0 <= n < |found| :: i < |found[n].locals|
  {
    Aside(env, i, After(i, begun, trace, found, n), found[n])
  }

  // Between its calls only others act.
  ghost predicate Between(env: Env, i: nat, begun: World, trace: seq<Step>, found: seq<World>)
  {
    && |found| == |trace| && i < |begun.locals| == |env.chks|
    && (forall n | 0 <= n < |found| :: i < |found[n].locals|)
    && forall n {:trigger FoundAt(env, i, begun, trace, found, n)}
         | 0 <= n < |found| :: FoundAt(env, i, begun, trace, found, n)
  }

  // And each call is made in the world it finds.
  ghost predicate Amid(env: Env, i: nat, begun: World, trace: seq<Step>, found: seq<World>)
  {
    Between(env, i, begun, trace, found) && forall n | 0 <= n < |found| :: MadeIn(found[n], i, trace[n])
  }

  // What a call finds of its own checker is what the call before left.
  lemma {:induction false} FoundLocal(env: Env, i: nat, begun: World, trace: seq<Step>, found: seq<World>, n: nat)
    requires Between(env, i, begun, trace, found) && n < |found|
    ensures |found[n].locals| == |env.chks| && found[n].locals[i].deadline == begun.locals[i].deadline
    ensures found[n].locals[i].clock == if n == 0 then begun.locals[i].clock else trace[n - 1].at
  {
    assert FoundAt(env, i, begun, trace, found, n);
    if n > 0 {
      FoundLocal(env, i, begun, trace, found, n - 1);
    }
    AsideKeeps(env, i, After(i, begun, trace, found, n), found[n]);
  }

  // Where the conversation is after m calls.
  ghost predicate Stage(env: Env, i: nat, begun: World, from: Pc, trace: seq<Step>, m: nat, w: World)
    requires m <= |trace| && i < |begun.locals|
  {
    && |w.locals| == |env.chks| && i < |w.locals| && Reaches(env, begun, w)
    && w.locals[i].pc == PcAt(trace, from, m)
    && w.locals[i].start == begun.locals[i].start && w.locals[i].deadline == begun.locals[i].deadline
  }

  lemma StageNext(env: Env, i: nat, begun: World, from: Pc, trace: seq<Step>, to: Pc, m: nat, w: World, v: World)
    requires m < |trace| && i < |begun.locals| == |env.chks| && Stage(env, i, begun, from, trace, m, w)
    requires Aside(env, i, w, v) && MadeIn(v, i, trace[m]) && Path(env.chks[i], env.gran, trace, from, to)
    ensures Stage(env, i, begun, from, trace, m + 1, CallFrom(v, i, trace[m]))
  {
    AsideKeeps(env, i, w, v);
    ReachesOn(env, begun, w, v);
    assert StepAt(env.chks[i], env.gran, trace, from, to, m);
    CallReaches(env, v, i, trace[m]);
    ReachesOn(env, begun, v, CallFrom(v, i, trace[m]));
  }

  lemma {:induction false} Conversation(env: Env, i: nat, begun: World, trace: seq<Step>, found: seq<World>,
                                        to: Pc, m: nat)
    requires Amid(env, i, begun, trace, found) && m <= |trace|
    requires Path(env.chks[i], env.gran, trace, begun.locals[i].pc, to)
    ensures Stage(env, i, begun, begun.locals[i].pc, trace, m, After(i, begun, trace, found, m))
  {
    if m == 0 {
      AsideNothing(env, i, begun);
      AsideKeeps(env, i, begun, begun);
    } else {
      Conversation(env, i, begun, trace, found, to, m - 1);
      assert FoundAt(env, i, begun, trace, found, m - 1);
      var last := After(i, begun, trace, found, m - 1);
      StageNext(env, i, begun, begun.locals[i].pc, trace, to, m - 1, last, found[m - 1]);
    }
  }

  // ---- A client's run ----

  // Call n of the client finds w, in time order, a run timestamp being a new one.
  ghost predicate FindsAt(api: Client, w: World, n: nat)
    requires n < |api.trace|
    reads api
  {
    && w.now <= api.clock(n) && (api.trace[n].before.TakeStamp? ==> api.clock(n) !in w.births)
    && w.store == api.others(n, StoreAt(api.trace, api.initial, n))
  }

  // The calls of the client find found[n], which is what the others made of what the call before left.
  ghost predicate Finds(api: Client, env: Env, i: nat, begun: World, found: seq<World>)
    reads api
  {
    && Between(env, i, begun, api.trace, found) && begun.store == api.initial
    && forall n | 0 <= n < |found| :: FindsAt(api, found[n], n)
  }

  // What the client has done so far is, if each disturbance its calls met is the effect of events of the
  // others, time passes and no call takes effect after the deadline, a stretch of a behaviour, ending
  // in the same store and at the same program point.
  lemma ClientRunIsBehaviour(api: Client, env: Env, w: World, i: nat, start: nat, found: seq<World>) returns (w': World)
    requires api.Traced() && i < |w.locals| == |env.chks| && api.chk == env.chks[i] && api.gran == env.gran
    requires !Running(w.locals[i].pc) && w.locals[i].clock <= start && w.now <= start
    requires Finds(api, env, i, BeginRun(env, w, i, start), found)
    requires Timed(api, start, Min(env.cancel, start + api.chk.timeout))
    ensures Reaches(env, w, w') && |w'.locals| == |env.chks| && w'.store == api.store && w'.locals[i].pc == api.pc
    ensures w'.locals[i].start == start
  {
    var begun, trace := BeginRun(env, w, i, start), api.trace;
    ReachesOne(env, w, Begin(i, start), begun);
    ClientAmid(api, env, begun, i, start, found);
    Conversation(env, i, begun, trace, found, api.pc, |trace|);
    w' := After(i, begun, trace, found, |trace|);
    ReachesOn(env, w, begun, w');
    ClientEnds(api);
  }

  lemma ClientEnds(api: Client)
    requires api.Traced()
    ensures StoreAt(api.trace, api.initial, |api.trace|) == api.store
    ensures PcAt(api.trace, Protocol.Start(api.chk), |api.trace|) == api.pc
  {
    assert MadeAt(api.initial, api.clock, api.faults, api.others, api.trace, api.store, |api.trace|);
    assert StepAt(api.chk, api.gran, api.trace, Protocol.Start(api.chk), api.pc, |api.trace|);
  }

  // Time passes from call to call, and no call takes effect after the deadline.
  ghost predicate Timed(api: Client, start: nat, deadline: nat)
  {
    && (forall n: nat :: start <= api.clock(n))
    && (forall m: nat, n: nat | m < n :: api.clock(m) < api.clock(n))
    && forall n: nat, verb | deadline <= api.clock(n) :: api.faults(n, verb).Fails?
  }

  lemma CallEntry(api: Client, n: nat)
    requires api.Traced() && n < |api.trace|
    ensures api.trace[n].at == api.clock(n)
    ensures api.trace[n].st == api.others(n, StoreAt(api.trace, api.initial, n))
    ensures exists verb :: api.trace[n].fault == api.faults(n, verb)
  {
    assert MadeAt(api.initial, api.clock, api.faults, api.others, api.trace, api.store, n);
  }

  lemma ClientMade(api: Client, env: Env, begun: World, i: nat, start: nat, found: seq<World>, n: nat)
    requires api.Traced() && Finds(api, env, i, begun, found) && n < |found|
    requires Timed(api, start, begun.locals[i].deadline) && begun.locals[i].clock == start
    ensures MadeIn(found[n], i, api.trace[n])
  {
    FoundLocal(env, i, begun, api.trace, found, n);
    CallEntry(api, n);
    assert FindsAt(api, found[n], n);
    if n > 0 {
      CallEntry(api, n - 1);
    }
  }

  lemma ClientAmid(api: Client, env: Env, begun: World, i: nat, start: nat, found: seq<World>)
    requires api.Traced() && Finds(api, env, i, begun, found)
    requires Timed(api, start, begun.locals[i].deadline) && begun.locals[i].clock == start
    ensures Amid(env, i, begun, api.trace, found)
  {
    forall n | 0 <= n < |found| ensures MadeIn(found[n], i, api.trace[n]) {
      ClientMade(api, env, begun, i, start, found, n);
    }
  }

  // ---- A timetable ----

  // A run's conversation: the world it begins in, its calls, what they found.
  datatype Talk = Talk(idle: World, trace: seq<Step>, found: seq<World>, v: Verdict)

  ghost function EndOf(env: Env, i: nat, run: Run, t: Talk): World
    requires i < |t.idle.locals| == |env.chks| && Amid(env, i, BeginRun(env, t.idle, i, run.start), t.trace, t.found)
  {
    After(i, BeginRun(env, t.idle, i, run.start), t.trace, t.found, |t.trace|)
  }

  // The conversation follows the protocol to its end and is over when the run is.
  ghost predicate Held(env: Env, i: nat, run: Run, t: Talk)
  {
    && i < |t.idle.locals| == |env.chks| && t.idle.now <= run.start
    && Amid(env, i, BeginRun(env, t.idle, i, run.start), t.trace, t.found)
    && Path(env.chks[i], env.gran, t.trace, Protocol.Start(env.chks[i]), Done(t.v))
    && forall n | 0 <= n < |t.trace| :: t.trace[n].at <= run.end
  }

  ghost predicate IdleAt(env: Env, i: nat, w: World, runs: seq<Run>, talks: seq<Talk>, n: nat)
    requires |talks| == |runs| && n < |runs| && (n > 0 ==> Held(env, i, runs[n - 1], talks[n - 1]))
  {
    Aside(env, i, if n == 0 then w else EndOf(env, i, runs[n - 1], talks[n - 1]), talks[n].idle)
  }

  // A client that has run its check to the end has held such a conversation.
  lemma ClientHeld(api: Client, env: Env, i: nat, run: Run, idle: World, found: seq<World>, v: Verdict)
    requires api.Traced() && api.pc == Done(v)
    requires i < |idle.locals| == |env.chks| && api.chk == env.chks[i] && api.gran == env.gran
    requires idle.now <= run.start && Finds(api, env, i, BeginRun(env, idle, i, run.start), found)
    requires Timed(api, run.start, Min(env.cancel, run.start + api.chk.timeout))
    requires forall n | 0 <= n < api.calls :: api.clock(n) <= run.end
    ensures Held(env, i, run, Talk(idle, api.trace, found, v))
  {
    ClientAmid(api, env, BeginRun(env, idle, i, run.start), i, run.start, found);
    forall n | 0 <= n < |api.trace| ensures api.trace[n].at <= run.end {
      CallEntry(api, n);
    }
  }

  // One conversation for each run, only others acting in between.
  ghost predicate Kept(env: Env, i: nat, w: World, runs: seq<Run>, talks: seq<Talk>)
  {
    && |talks| == |runs|
    && (forall n | 0 <= n < |runs| :: Held(env, i, runs[n], talks[n]))
    && forall n {:trigger IdleAt(env, i, w, runs, talks, n)} | 0 <= n < |runs| :: IdleAt(env, i, w, runs, talks, n)
  }

  // The world after the first n runs.
  ghost function AfterRuns(env: Env, i: nat, w: World, runs: seq<Run>, talks: seq<Talk>, n: nat): World
    requires n <= |runs| == |talks| && (n > 0 ==> Held(env, i, runs[n - 1], talks[n - 1]))
  {
    if n == 0 then w else EndOf(env, i, runs[n - 1], talks[n - 1])
  }

  lemma KeptAt(env: Env, i: nat, w: World, runs: seq<Run>, talks: seq<Talk>, n: nat)
    requires Kept(env, i, w, runs, talks) && n < |runs|
    ensures Held(env, i, runs[n], talks[n]) && Aside(env, i, AfterRuns(env, i, w, runs, talks, n), talks[n].idle)
    ensures AfterRuns(env, i, w, runs, talks, n + 1) == EndOf(env, i, runs[n], talks[n])
  {
    assert IdleAt(env, i, w, runs, talks, n);
  }

  lemma TalkReaches(env: Env, i: nat, run: Run, t: Talk)
    requires Held(env, i, run, t) && !Running(t.idle.locals[i].pc) && t.idle.locals[i].clock <= run.start <= run.end
    ensures var w := EndOf(env, i, run, t);
            && Reaches(env, t.idle, w) && |w.locals| == |env.chks|
            && w.locals[i].pc == Done(t.v) && w.locals[i].clock <= run.end
  {
    var begun := BeginRun(env, t.idle, i, run.start);
    ReachesOne(env, t.idle, Begin(i, run.start), begun);
    Conversation(env, i, begun, t.trace, t.found, Done(t.v), |t.trace|);
    ReachesOn(env, t.idle, begun, EndOf(env, i, run, t));
    assert StepAt(env.chks[i], env.gran, t.trace, Protocol.Start(env.chks[i]), Done(t.v), |t.trace|);
  }

  // After n runs: at rest, no later than the end of the last.
  ghost predicate Rested(env: Env, i: nat, w: World, w': World, end: nat)
  {
    Reaches(env, w, w') && i < |w'.locals| == |env.chks| && !Running(w'.locals[i].pc) && w'.locals[i].clock <= end
  }

  lemma RestedNext(env: Env, i: nat, w: World, v: World, end: nat, run: Run, t: Talk)
    requires Rested(env, i, w, v, end) && Aside(env, i, v, t.idle) && Held(env, i, run, t)
    requires end <= run.start <= run.end
    ensures Rested(env, i, w, EndOf(env, i, run, t), run.end)
  {
    AsideKeeps(env, i, v, t.idle);
    TalkReaches(env, i, run, t);
    ReachesOn(env, w, v, t.idle);
    ReachesOn(env, w, t.idle, EndOf(env, i, run, t));
  }

  // The runs of a checker's timetable, each a conversation, make a behaviour: no two overlap.
  lemma {:induction false} TimetableIsBehaviour(env: Env, i: nat, sch: Schedule, t0: nat, w: World, runs: seq<Run>,
                                                talks: seq<Talk>, n: nat)
    requires sch.interval > 0 && i < |env.chks| && env.chks[i].timeout == sch.timeout
    requires Timetable(sch, t0, env.cancel, runs) && Kept(env, i, w, runs, talks) && n <= |runs|
    requires |w.locals| == |env.chks| && !Running(w.locals[i].pc) && w.locals[i].clock <= t0
    ensures Rested(env, i, w, AfterRuns(env, i, w, runs, talks, n), LastEnd(t0, runs[..n]))
  {
    if n == 0 {
      AsideNothing(env, i, w);
      AsideKeeps(env, i, w, w);
    } else {
      TimetableIsBehaviour(env, i, sch, t0, w, runs, talks, n - 1);
      assert Follows(sch, t0, env.cancel, runs[..n - 1], runs[n - 1]);
      KeptAt(env, i, w, runs, talks, n - 1);
      assert LastEnd(t0, runs[..n]) == runs[n - 1].end;
      var v := AfterRuns(env, i, w, runs, talks, n - 1);
      RestedNext(env, i, w, v, LastEnd(t0, runs[..n - 1]), runs[n - 1], talks[n - 1]);
    }
  }

  // And each has the deadline the system gives a run.
  lemma TimetableDeadlines(env: Env, i: nat, sch: Schedule, t0: nat, w: World, runs: seq<Run>, talks: seq<Talk>, n: nat)
    requires sch.interval > 0 && i < |env.chks| && env.chks[i].timeout == sch.timeout
    requires Timetable(sch, t0, env.cancel, runs) && Kept(env, i, w, runs, talks) && n < |runs|
    ensures BeginRun(env, talks[n].idle, i, runs[n].start).locals[i].deadline == runs[n].deadline
  {
    assert Follows(sch, t0, env.cancel, runs[..n], runs[n]);
  }

  // Wherever a chain from a beginning within the limits leads, they hold.
  lemma ReachedWithinLimits(env: Env, w: World, w': World, k: nat)
    requires DistinctNames(env.chks) && Init(env, w) && Reaches(env, w, w') && k < |env.chks|
    requires forall j | 0 <= j < |env.chks| :: Bounds.WithinLimits(env.chks[j], w.store)
    ensures Bounds.WithinLimits(env.chks[k], w'.store)
  {
    var ws, es :| Chain(env, ws, es) && ws[0] == w && ws[|es|] == w';
    Bounds.RoomHolds(env, ws, es, |es|);
    Bounds.RoomIsWithinLimits(env.chks[k], w'.store, w'.locals[k].pc);
  }

  // After any call of any run of a checker's timetable, amid whatever the others do, every checker is
  // within its limits, if all were when the process started.
  lemma TimetableKeepsLimits(env: Env, i: nat, sch: Schedule, t0: nat, w: World, runs: seq<Run>, talks: seq<Talk>,
                             n: nat, m: nat, k: nat)
    requires DistinctNames(env.chks) && Init(env, w) && k < |env.chks|
    requires forall j | 0 <= j < |env.chks| :: Bounds.WithinLimits(env.chks[j], w.store)
    requires sch.interval > 0 && i < |env.chks| && env.chks[i].timeout == sch.timeout && w.locals[i].clock <= t0
    requires Timetable(sch, t0, env.cancel, runs) && Kept(env, i, w, runs, talks) && n < |runs|
    requires m <= |talks[n].trace|
    ensures Held(env, i, runs[n], talks[n])
    ensures var begun := BeginRun(env, talks[n].idle, i, runs[n].start);
            Bounds.WithinLimits(env.chks[k], After(i, begun, talks[n].trace, talks[n].found, m).store)
  {
    var talk, begun := talks[n], BeginRun(env, talks[n].idle, i, runs[n].start);
    TimetableIsBehaviour(env, i, sch, t0, w, runs, talks, n);
    var v := AfterRuns(env, i, w, runs, talks, n);
    KeptAt(env, i, w, runs, talks, n);
    AsideKeeps(env, i, v, talk.idle);
    assert Follows(sch, t0, env.cancel, runs[..n], runs[n]);
    ReachesOn(env, w, v, talk.idle);
    ReachesOne(env, talk.idle, Begin(i, runs[n].start), begun);
    ReachesOn(env, w, talk.idle, begun);
    Conversation(env, i, begun, talk.trace, talk.found, Done(talk.v), m);
    ReachesOn(env, w, begun, After(i, begun, talk.trace, talk.found, m));
    ReachedWithinLimits(env, w, After(i, begun, talk.trace, talk.found, m), k);
  }
}
