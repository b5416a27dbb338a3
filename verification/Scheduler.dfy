// The loop that runs one checker at its interval, and the group of all of them.
module Scheduler {
  import opened Cluster
  import opened Protocol
  import opened System

  // Ticks fall at t0 + k * interval; `Ticks` counts those up to t.
  function Ticks(t0: nat, interval: nat, t: nat): nat
    requires interval > 0 && t0 <= t
  {
    (t - t0) / interval
  }

  function TickTime(t0: nat, interval: nat, k: nat): nat
  {
    t0 + k * interval
  }

  lemma TicksExact(t0: nat, interval: nat, t: nat, k: nat)
    requires interval > 0 && TickTime(t0, interval, k) <= t < TickTime(t0, interval, k + 1)
    ensures Ticks(t0, interval, t) == k
  {
    var r := t - t0 - k * interval;
    assert 0 <= r < interval && t - t0 == k * interval + r;
    Remainder(k, interval, r);
  }

  lemma Remainder(k: nat, interval: nat, r: nat)
    requires r < interval
    ensures (k * interval + r) / interval == k
  {
    var q := (k * interval + r) / interval;
    assert q * interval <= k * interval + r < q * interval + interval;
    if q + 1 <= k {
      MulMonotone(q + 1, k, interval);
    }
    if k + 1 <= q {
      MulMonotone(k + 1, q, interval);
    }
  }

  lemma MulMonotone(a: nat, b: nat, c: nat)
    requires a <= b
    ensures a * c <= b * c
  {
  }

  lemma TickAfter(t0: nat, interval: nat, k: nat)
    ensures TickTime(t0, interval, k + 1) == TickTime(t0, interval, k) + interval
  {
  }

  // Tick k has fired by t exactly when its time is not after t.
  lemma Fired(t0: nat, interval: nat, t: nat, k: nat)
    requires interval > 0 && t0 <= t
    ensures k <= Ticks(t0, interval, t) <==> TickTime(t0, interval, k) <= t
  {
    var q, r := Ticks(t0, interval, t), (t - t0) % interval;
    assert t - t0 == q * interval + r;
    if k <= q {
      MulMonotone(k, q, interval);
    } else {
      MulMonotone(q + 1, k, interval);
    }
  }

  lemma TicksMonotone(t0: nat, interval: nat, t: nat, u: nat)
    requires interval > 0 && t0 <= t <= u
    ensures Ticks(t0, interval, t) <= Ticks(t0, interval, u)
  {
    var k := Ticks(t0, interval, t);
    Fired(t0, interval, t, k);
    Fired(t0, interval, u, k);
  }

  // A ticker: a channel with one slot, into which a tick is dropped when the last one is still there.
  class Ticker {
    const t0: nat
    const interval: nat
    var fired: nat
    var full: bool
    var now: nat

    constructor (t0: nat, interval: nat)
      requires interval > 0
      ensures Valid() && this.t0 == t0 && this.interval == interval && now == t0 && !full
    {
      this.t0, this.interval, fired, full := t0, interval, 0, false;
      now := t0;
    }

    ghost predicate Valid()
      reads this
    {
      && interval > 0 && t0 <= now
      && TickTime(t0, interval, fired) <= now < TickTime(t0, interval, fired + 1)
    }

    // Time passes until t.
    method Advance(t: nat)
      requires Valid() && now <= t
      modifies this
      ensures Valid() && now == t
      ensures fired == Ticks(t0, interval, t)
      ensures full <==> old(full) || Ticks(t0, interval, old(now)) < Ticks(t0, interval, t)
    {
      TicksExact(t0, interval, now, fired);
      while TickTime(t0, interval, fired + 1) <= t
        invariant TickTime(t0, interval, fired) <= t && old(fired) <= fired
        invariant full <==> old(full) || old(fired) < fired
        decreases t - TickTime(t0, interval, fired)
      {
        fired, full := fired + 1, true;
      }
      now := t;
      TicksExact(t0, interval, t, fired);
    }

    // Blocks until a tick is there or the context is cancelled.
    method Await(cancel: nat)
      requires Valid() && !full && now < cancel
      modifies this
      ensures Valid() && now == Min(TickTime(t0, interval, old(fired) + 1), cancel)
      ensures fired == Ticks(t0, interval, now)
      ensures old(fired) <= fired && (full <==> old(fired) < fired)
      ensures full ==> now == TickTime(t0, interval, old(fired) + 1)
    {
      TicksExact(t0, interval, now, fired);
      ghost var k := fired;
      var t := Min(TickTime(t0, interval, fired + 1), cancel);
      TicksMonotone(t0, interval, now, t);
      Advance(t);
      Fired(t0, interval, t, k + 1);
    }

    method Take()
      requires Valid() && full
      modifies this`full
      ensures !full && Valid()
    {
      full := false;
    }
  }

  function Max(a: nat, b: nat): nat { if a < b then b else a }

  datatype Schedule = Schedule(interval: nat, timeout: nat)

  // How long the run of this turn takes, and whether a tick is preferred to a cancellation when both
  // are ready.
  datatype Turn = Turn(len: nat, tick: bool)

  // A run's context expires at the deadline; it may still take until its end to return.
  datatype Run = Run(start: nat, deadline: nat, end: nat)

  function LastEnd(t0: nat, runs: seq<Run>): nat
  {
    if runs == [] then t0 else runs[|runs| - 1].end
  }

  // The ticks that can have started these runs.
  ghost function Used(t0: nat, interval: nat, runs: seq<Run>): nat
    requires interval > 0 && (runs != [] ==> t0 <= runs[|runs| - 1].start)
  {
    if runs == [] then 0 else Ticks(t0, interval, runs[|runs| - 1].start)
  }

  // The run starts at the first tick after the start of the previous run, or when that run ends if
  // this is later; its context lasts the timeout, or until the parent is cancelled.
  ghost predicate Follows(sch: Schedule, t0: nat, cancel: nat, before: seq<Run>, run: Run)
    requires sch.interval > 0
  {
    && (before != [] ==> t0 <= before[|before| - 1].start)
    && t0 <= run.start <= run.end
    && run.deadline == Min(cancel, run.start + sch.timeout)
    && run.start == Max(LastEnd(t0, before), TickTime(t0, sch.interval, Used(t0, sch.interval, before) + 1))
  }

  ghost predicate Timetable(sch: Schedule, t0: nat, cancel: nat, runs: seq<Run>)
    requires sch.interval > 0
  {
    forall n | 0 <= n < |runs| :: Follows(sch, t0, cancel, runs[..n], runs[n])
  }

  // Runs never overlap, and run n needs n + 1 ticks.
  lemma {:induction false} OneAtATime(sch: Schedule, t0: nat, cancel: nat, runs: seq<Run>, m: nat, n: nat)
    requires sch.interval > 0 && Timetable(sch, t0, cancel, runs) && m < n < |runs|
    ensures runs[m].end <= runs[n].start
  {
    assert Follows(sch, t0, cancel, runs[..n], runs[n]);
    if m < n - 1 {
      assert Follows(sch, t0, cancel, runs[..n - 1], runs[n - 1]);
      OneAtATime(sch, t0, cancel, runs, m, n - 1);
    }
  }

  lemma {:induction false} RunsNeedTicks(sch: Schedule, t0: nat, cancel: nat, runs: seq<Run>, n: nat)
    requires sch.interval > 0 && Timetable(sch, t0, cancel, runs) && n < |runs|
    ensures t0 <= runs[n].start && n + 1 <= Ticks(t0, sch.interval, runs[n].start)
  {
    assert Follows(sch, t0, cancel, runs[..n], runs[n]);
    if n == 0 {
      Fired(t0, sch.interval, runs[0].start, 1);
    } else {
      RunsNeedTicks(sch, t0, cancel, runs, n - 1);
      Fired(t0, sch.interval, runs[n].start, Ticks(t0, sch.interval, runs[n - 1].start) + 1);
    }
  }

  // Of the runs, no more than floor((t - t0) / interval) have started by t.
  lemma RunsStartedBy(sch: Schedule, t0: nat, cancel: nat, runs: seq<Run>, t: nat)
    requires sch.interval > 0 && t0 <= t && Timetable(sch, t0, cancel, runs)
    ensures |set n | 0 <= n < |runs| && runs[n].start <= t| <= (t - t0) / sch.interval
  {
    var started := set n | 0 <= n < |runs| && runs[n].start <= t;
    var bound := Ticks(t0, sch.interval, t);
    forall n | n in started ensures 0 <= n < bound {
      RunsNeedTicks(sch, t0, cancel, runs, n);
      TicksMonotone(t0, sch.interval, runs[n].start, t);
    }
    FewBelow(started, bound);
  }

  lemma {:induction false} FewBelow(s: set<int>, bound: nat)
    requires forall n | n in s :: 0 <= n < bound
    ensures |s| <= bound
  {
    if bound == 0 {
      assert forall n :: n !in s;
      assert s == {};
    } else {
      FewBelow(s - {bound - 1}, bound - 1);
    }
  }

  // When no run outlasts the interval, no tick is lost: run n starts at tick n + 1 exactly.
  lemma {:induction false} Punctual(sch: Schedule, t0: nat, cancel: nat, runs: seq<Run>, n: nat)
    requires sch.interval > 0 && Timetable(sch, t0, cancel, runs) && n < |runs|
    requires forall m | 0 <= m < |runs| :: runs[m].end <= runs[m].start + sch.interval
    ensures runs[n].start == TickTime(t0, sch.interval, n + 1)
  {
    assert Follows(sch, t0, cancel, runs[..n], runs[n]);
    if n > 0 {
      Punctual(sch, t0, cancel, runs, n - 1);
      TickAfter(t0, sch.interval, n);
      TicksExact(t0, sch.interval, runs[n - 1].start, n);
    }
  }

  lemma TimetableSnoc(sch: Schedule, t0: nat, cancel: nat, runs: seq<Run>, run: Run)
    requires sch.interval > 0 && Timetable(sch, t0, cancel, runs) && Follows(sch, t0, cancel, runs, run)
    ensures Timetable(sch, t0, cancel, runs + [run])
  {
    var runs' := runs + [run];
    forall n | 0 <= n < |runs'| ensures Follows(sch, t0, cancel, runs'[..n], runs'[n]) {
      assert runs'[..n] == runs[..n];
      if n == |runs| {
        assert runs[..n] == runs;
      }
    }
  }

  // One turn of the loop: a run, or none if the loop stops. `used`: the ticks up to the last start.
  method TakeTurn(ticker: Ticker, timeout: nat, cancel: nat, turn: Turn, ghost used: nat) returns (run: Option<Run>)
    requires ticker.Valid() && ticker.fired == Ticks(ticker.t0, ticker.interval, ticker.now)
    requires used <= ticker.fired && (ticker.full <==> used < ticker.fired)
    modifies ticker
    ensures ticker.Valid() && ticker.fired == Ticks(ticker.t0, ticker.interval, ticker.now)
    ensures run.None? ==> ticker.now == Max(cancel, old(ticker.now))
    ensures run.None? ==> cancel <= Max(old(ticker.now), TickTime(ticker.t0, ticker.interval, used + 1))
    ensures run.Some? ==>
              && run.value.start == Max(old(ticker.now), TickTime(ticker.t0, ticker.interval, used + 1))
              && run.value.deadline == Min(cancel, run.value.start + timeout)
              && run.value.end == run.value.start + turn.len == ticker.now
              && (run.value.start < cancel || turn.tick)
              && Ticks(ticker.t0, ticker.interval, run.value.start) <= ticker.fired
              && (ticker.full <==> Ticks(ticker.t0, ticker.interval, run.value.start) < ticker.fired)
  {
    Fired(ticker.t0, ticker.interval, ticker.now, used + 1);
    if !ticker.full && ticker.now < cancel {
      ticker.Await(cancel);
    }
    var now := ticker.now;
    if ticker.full && (now < cancel || turn.tick) {
      ticker.Take();
      TicksMonotone(ticker.t0, ticker.interval, now, now + turn.len);
      ticker.Advance(now + turn.len);
      return Some(Run(now, Min(cancel, now + timeout), now + turn.len));
    }
    return None;
  }

  // The next run could not start before cancellation.
  ghost predicate OutOfTime(sch: Schedule, t0: nat, cancel: nat, runs: seq<Run>)
    requires sch.interval > 0
  {
    && (runs != [] ==> t0 <= runs[|runs| - 1].start)
    && cancel <= Max(LastEnd(t0, runs), TickTime(t0, sch.interval, Used(t0, sch.interval, runs) + 1))
  }

  // The ticker when the loop is about to wait after these runs.
  ghost predicate InStep(ticker: Ticker, sch: Schedule, t0: nat, runs: seq<Run>)
    requires sch.interval > 0
    reads ticker
  {
    && ticker.Valid() && ticker.t0 == t0 && ticker.interval == sch.interval
    && ticker.now == LastEnd(t0, runs) && ticker.fired == Ticks(t0, sch.interval, ticker.now)
    && (runs != [] ==> t0 <= runs[|runs| - 1].start)
    && Used(t0, sch.interval, runs) <= ticker.fired
    && (ticker.full <==> Used(t0, sch.interval, runs) < ticker.fired)
  }

  method Iterate(ticker: Ticker, sch: Schedule, t0: nat, cancel: nat, turn: Turn, runs: seq<Run>)
      returns (run: Option<Run>)
    requires sch.interval > 0 && InStep(ticker, sch, t0, runs)
    modifies ticker
    ensures run.None? ==> ticker.now == Max(cancel, LastEnd(t0, runs)) && OutOfTime(sch, t0, cancel, runs)
    ensures run.Some? ==>
              && Follows(sch, t0, cancel, runs, run.value) && InStep(ticker, sch, t0, runs + [run.value])
              && run.value.end == run.value.start + turn.len && (run.value.start < cancel || turn.tick)
  {
    run := TakeTurn(ticker, sch.timeout, cancel, turn, Used(t0, sch.interval, runs));
  }

  // Every run takes as long as its turn says, and starts after cancellation only by that turn's choice.
  ghost predicate Paced(cancel: nat, turns: seq<Turn>, runs: seq<Run>)
  {
    && |runs| <= |turns|
    && forall n | 0 <= n < |runs| :: runs[n].end == runs[n].start + turns[n].len
        && (runs[n].start < cancel || turns[n].tick)
  }

  lemma PacedSnoc(cancel: nat, turns: seq<Turn>, runs: seq<Run>, run: Run)
    requires Paced(cancel, turns, runs) && |runs| < |turns|
    requires run.end == run.start + turns[|runs|].len && (run.start < cancel || turns[|runs|].tick)
    ensures Paced(cancel, turns, runs + [run])
  {
  }

  datatype ContextError = Canceled

  // The error of the parent context at time t: none before it is cancelled.
  function ContextErr(cancel: nat, t: nat): Option<ContextError>
  {
    if cancel <= t then Some(Canceled) else None
  }

  // When a loop returned, and with which error.
  datatype Stop = Stop(at: nat, err: Option<ContextError>)

  // The loop of one checker, for as many turns as given. It stops only after cancellation, once the
  // run in progress has ended, and if no other could start before; then it returns the context's error.
  method ScheduleChecker(sch: Schedule, t0: nat, cancel: nat, turns: seq<Turn>)
      returns (runs: seq<Run>, stopped: Option<Stop>)
    requires sch.interval > 0
    ensures Timetable(sch, t0, cancel, runs)
    ensures stopped.None? ==> |runs| == |turns|
    ensures stopped.Some? ==> stopped.value.at == Max(cancel, LastEnd(t0, runs)) && stopped.value.err == Some(Canceled)
    ensures stopped.Some? ==> OutOfTime(sch, t0, cancel, runs)
    ensures Paced(cancel, turns, runs)
  {
    var ticker := new Ticker(t0, sch.interval);
    runs := [];
    TicksExact(t0, sch.interval, t0, 0);
    for n := 0 to |turns|
      invariant fresh(ticker) && InStep(ticker, sch, t0, runs)
      invariant |runs| == n && Timetable(sch, t0, cancel, runs)
      invariant Paced(cancel, turns, runs)
    {
      var run := Iterate(ticker, sch, t0, cancel, turns[n], runs);
      if run.None? {
        return runs, Some(Stop(ticker.now, ContextErr(cancel, ticker.now)));
      }
      TimetableSnoc(sch, t0, cancel, runs, run.value);
      PacedSnoc(cancel, turns, runs, run.value);
      runs := runs + [run.value];
    }
    return runs, None;
  }

  datatype Loop = Loop(runs: seq<Run>, stopped: Option<Stop>)

  // A loop that ran to its timetable and stopped, if it did, at cancellation or the end of its last run,
  // no other being due before cancellation.
  ghost predicate Looped(sch: Schedule, t0: nat, cancel: nat, l: Loop)
    requires sch.interval > 0
  {
    && Timetable(sch, t0, cancel, l.runs)
    && (l.stopped.Some? ==>
          && l.stopped.value.at == Max(cancel, LastEnd(t0, l.runs)) && l.stopped.value.err == Some(Canceled)
          && OutOfTime(sch, t0, cancel, l.runs))
  }

  // When no run outlasts the interval, a loop that has stopped has served every tick before cancellation.
  lemma EveryTickServed(sch: Schedule, t0: nat, cancel: nat, l: Loop, k: nat)
    requires sch.interval > 0 && Looped(sch, t0, cancel, l) && l.stopped.Some?
    requires forall m | 0 <= m < |l.runs| :: l.runs[m].end <= l.runs[m].start + sch.interval
    requires k > 0 && TickTime(t0, sch.interval, k) < cancel
    ensures k <= |l.runs| && l.runs[k - 1].start == TickTime(t0, sch.interval, k)
  {
    var n := |l.runs|;
    if n > 0 {
      Punctual(sch, t0, cancel, l.runs, n - 1);
      TickAfter(t0, sch.interval, n);
      TicksExact(t0, sch.interval, l.runs[n - 1].start, n);
    }
    if n < k {
      MulMonotone(n + 1, k, sch.interval);
    } else {
      Punctual(sch, t0, cancel, l.runs, k - 1);
    }
  }

  method RunLoop(sch: Schedule, t0: nat, cancel: nat, turns: seq<Turn>) returns (l: Loop)
    requires sch.interval > 0
    ensures Looped(sch, t0, cancel, l)
  {
    var runs, stopped := ScheduleChecker(sch, t0, cancel, turns);
    l := Loop(runs, stopped);
  }

  // The group returns when the last loop has stopped, with an error that one of them returned, if any did.
  ghost predicate Joined(t0: nat, loops: seq<Loop>, returned: Option<Stop>)
  {
    && (returned.Some? <==> forall n | 0 <= n < |loops| :: loops[n].stopped.Some?)
    && (returned.Some? ==>
          && (forall n | 0 <= n < |loops| :: loops[n].stopped.value.at <= returned.value.at)
          && (returned.value.at == t0 || exists n :: 0 <= n < |loops| && loops[n].stopped.value.at == returned.value.at)
          && (if returned.value.err.Some?
              then exists n :: 0 <= n < |loops| && loops[n].stopped.value.err == returned.value.err
              else forall n | 0 <= n < |loops| :: loops[n].stopped.value.err.None?))
  }

  // The group waits for one more loop; the first error is kept.
  function Join(group: Option<Stop>, loop: Option<Stop>): Option<Stop>
  {
    if group.None? || loop.None? then None else
    Some(Stop(Max(group.value.at, loop.value.at), if group.value.err.Some? then group.value.err else loop.value.err))
  }

  lemma JoinedSnoc(t0: nat, loops: seq<Loop>, returned: Option<Stop>, l: Loop)
    requires Joined(t0, loops, returned)
    ensures Joined(t0, loops + [l], Join(returned, l.stopped))
  {
    var more := loops + [l];
    assert more[|loops|] == l && forall n | 0 <= n < |loops| :: more[n] == loops[n];
  }

  // Runs all loops and waits for them. It returns only after cancellation, and without error exactly
  // when there is no loop. `turns[n]` are those of loop n.
  method Start(schs: seq<Schedule>, t0: nat, cancel: nat, turns: seq<seq<Turn>>)
      returns (loops: seq<Loop>, returned: Option<Stop>)
    requires |turns| == |schs| && forall n | 0 <= n < |schs| :: schs[n].interval > 0
    ensures |loops| == |schs| && forall n | 0 <= n < |loops| :: Looped(schs[n], t0, cancel, loops[n])
    ensures Joined(t0, loops, returned)
    ensures returned.Some? ==> (returned.value.err.None? <==> schs == [])
  {
    loops, returned := [], Some(Stop(t0, None));
    for n := 0 to |schs|
      invariant |loops| == n && forall m | 0 <= m < n :: Looped(schs[m], t0, cancel, loops[m])
      invariant Joined(t0, loops, returned)
      invariant returned.Some? ==> (returned.value.err.None? <==> n == 0)
    {
      var l := RunLoop(schs[n], t0, cancel, turns[n]);
      JoinedSnoc(t0, loops, returned, l);
      loops := loops + [l];
      returned := Join(returned, l.stopped);
    }
  }

  // ---- Runs begun after cancellation ----

  ghost predicate Bounded(env: Env, w: World, i: nat)
  {
    && i < |w.locals| == |env.chks|
    && (Running(w.locals[i].pc) ==>
          w.locals[i].deadline == Min(env.cancel, w.locals[i].start + env.chks[i].timeout)
              && w.locals[i].start <= w.locals[i].clock)
  }

  lemma {:induction false} BoundedHolds(env: Env, ws: seq<World>, es: seq<Event>, n: nat, i: nat)
    requires Behaviour(env, ws, es) && n < |ws| && i < |env.chks|
    ensures Bounded(env, ws[n], i)
  {
    if n > 0 {
      BoundedHolds(env, ws, es, n - 1, i);
      BoundedNext(env, ws[n - 1], es[n - 1], ws[n], i);
    }
  }

  lemma BoundedNext(env: Env, w: World, e: Event, w': World, i: nat)
    requires Bounded(env, w, i) && Next(env, w, e, w')
    ensures Bounded(env, w', i)
  {
  }

  // A run begun after cancellation changes nothing in the store, whatever it calls.
  lemma LateRunsChangeNothing(env: Env, ws: seq<World>, es: seq<Event>, n: nat)
    requires Behaviour(env, ws, es) && n < |es| && es[n].Call? && es[n].i < |ws[n].locals|
    requires env.cancel <= ws[n].locals[es[n].i].start
    ensures ws[n + 1].store == ws[n].store
  {
    var e, w := es[n], ws[n];
    assert Next(env, w, e, ws[n + 1]);
    BoundedHolds(env, ws, es, n, e.i);
    assert Belongs(env.chks[e.i], w.locals[e.i].pc);
    ServesFrame(env.gran, w.store, Want(env.chks[e.i], w.locals[e.i].pc), e.at, e.stamp, e.fault, e.reply,
                ws[n + 1].store);
  }
}
