// With creation timestamps truncated to whole units, collection can take an object of a run that still
// has time left: exactly when a unit is three or more, so that truncation can move a timestamp back by two.
module Slack {
  import opened Cluster
  import opened Protocol
  import opened System
  import opened Ownership
  import opened Stories

  // The last event is one process collecting an object made by the current run of the same checker in
  // another process, before that run's deadline. Timestamps are truncated to whole units.
  ghost predicate CollectsLive(c: Checker, env: Env, ws: seq<World>, es: seq<Event>, i: nat, o: nat, k: Key)
  {
    && SharedTimeouts(env.chks) && i < |env.chks| && o < |env.chks| && i != o && env.chks[i] == env.chks[o] == c
    && Behaviour(env, ws, es) && es != [] && SignedStore(env, ws[0].births, ws[0].store)
    && (forall m | 0 <= m < |es| :: Truncating(env.gran, es[m]))
    && var n := |es| - 1;
       && Deletes(env, ws[n], es[n], ws[n + 1], k) && !k.kind.NodePool? && es[n].i == i
       && i < |ws[n].locals| && ws[n].locals[i].pc.GcDelete?
       && o < |ws[n].locals| && RunStamp(ws[n].locals[o].pc) == Stamp(k) && es[n].at < ws[n].locals[o].deadline
  }

  ghost predicate CanCollectLive(c: Checker, gran: nat)
  {
    exists env: Env, ws, es, i, o, k :: env.gran == gran && CollectsLive(c, env, ws, es, i, o, k)
  }

  // The checker's runs get to create the pod or ConfigMap they are about.
  predicate Creates(c: Checker)
  {
    c.timeout >= 1 && if c.PodStartup? then c.maxPods >= 1 && Creatable(c.csis) else c.maxObjects >= 1
  }

  function Main(c: Checker): Kind
  {
    if c.PodStartup? then Pod else ConfigMap
  }

  function MainKey(c: Checker, ts: nat): Key
  {
    if c.PodStartup? then PodKey(c, ts) else MapKey(c, ts)
  }

  // Two processes running the checker, for long enough.
  ghost predicate Twins(env: Env, c: Checker)
  {
    env.chks == [c, c] && env.gran > 0 && env.cancel >= 2 * env.gran + 2 * c.timeout + 2
  }

  // The last moment of the first whole unit.
  function Eve(gran: nat): nat
    requires gran > 0
  {
    2 * gran - 1
  }

  // A run of the second process, begun at the end of a unit, has created its object; its timestamp is
  // that unit's beginning.
  ghost predicate Created(env: Env, c: Checker, w: World)
    requires env.gran > 0
  {
    && |w.locals| == 2 && w.locals[0] == Local(Idle, 0, 0, 0) && w.now == Eve(env.gran)
    && RunStamp(w.locals[1].pc) == Some(Eve(env.gran)) && w.locals[1].deadline == Eve(env.gran) + c.timeout
    && Eve(env.gran) in w.births && w.births[Eve(env.gran)] == Birth(1, Eve(env.gran))
    && var k := MainKey(c, Eve(env.gran));
       && k in w.store && w.store[k].created == env.gran && Selected(c, Main(c), w.store) == {k}
  }

  // Up to the list of pods.
  lemma MakeStorage(env: Env, c: Checker) returns (w: World, st: Objects)
    requires Twins(env, c) && c.PodStartup? && Creates(c)
    ensures w == Stamped(BeginRun(env, Origin(2), 1, Eve(env.gran)), 1, Eve(env.gran))
    ensures Restocked(map[], st, Eve(env.gran), env.gran)
    ensures Leads(env, Origin(2), At(w, 1, ListPods(Eve(env.gran)), st, Eve(env.gran)))
  {
    var s, w0 := Eve(env.gran), BeginRun(env, Origin(2), 1, Eve(env.gran));
    Truncations(env.gran);
    ToldBegin(env, Origin(2), 1, s);
    var none := UpToClaims(env, w0, 1, map[], s, s);
    assert none == map[];
    LeadsOn(env, Origin(2), w0, At(w0, 1, GcList(Claim), map[], s));
    st := UpToPods(env, w0, 1, map[], s, s);
    w := Stamped(w0, 1, s);
    LeadsOn(env, Origin(2), At(w0, 1, GcList(Claim), map[], s), At(w, 1, ListPods(s), st, s));
  }

  lemma MakePod(env: Env, c: Checker) returns (w: World)
    requires Twins(env, c) && c.PodStartup? && Creates(c)
    ensures Created(env, c, w) && Leads(env, Origin(2), w)
  {
    var s := Eve(env.gran);
    var w0, st := MakeStorage(env, c);
    w := MakePodFrom(env, c, w0, st);
    LeadsOn(env, Origin(2), At(w0, 1, ListPods(s), st, s), w);
  }

  lemma MakePodFrom(env: Env, c: Checker, w0: World, st: Objects) returns (w: World)
    requires Twins(env, c) && c.PodStartup? && Creates(c) && Restocked(map[], st, Eve(env.gran), env.gran)
    requires w0 == Stamped(BeginRun(env, Origin(2), 1, Eve(env.gran)), 1, Eve(env.gran))
    ensures Created(env, c, w) && Leads(env, At(w0, 1, ListPods(Eve(env.gran)), st, Eve(env.gran)), w)
  {
    var s := Eve(env.gran);
    var st1 := WithPool(c, s, st, env.gran);
    var st2 := WithPod(c, s, st1, env.gran);
    Truncations(env.gran);
    OnlyPod(c, s, st, env.gran, env.gran);
    UpToPodCreation(env, w0, 1, s, st, s);
    Told(env, w0, 1, CreatePod(s), st1, s, s, Status(None), st2);
    w := At(w0, 1, Observe(s), st2, s);
    LeadsOn(env, At(w0, 1, ListPods(s), st, s), At(w0, 1, CreatePod(s), st1, s), w);
  }

  lemma MakeMap(env: Env, c: Checker) returns (w: World)
    requires Twins(env, c) && c.ApiServer? && Creates(c)
    ensures Created(env, c, w) && Leads(env, Origin(2), w)
  {
    var s, w0 := Eve(env.gran), BeginRun(env, Origin(2), 1, Eve(env.gran));
    Truncations(env.gran);
    ToldBegin(env, Origin(2), 1, s);
    UpToMap(env, w0, 1, map[], s);
    w := At(Stamped(w0, 1, s), 1, GetMap(s), WithMap(c, s, map[], env.gran), s);
    LeadsOn(env, Origin(2), w0, w);
    assert Selected(c, ConfigMap, w.store) == {MapKey(c, s)};
  }

  // Once the object is over age by its timestamp, the first process wants to delete it.
  lemma Wanted(env: Env, c: Checker, w: World, t: nat) returns (w': World)
    requires Twins(env, c) && Creates(c) && Created(env, c, w)
    requires Eve(env.gran) <= t && t - env.gran > c.timeout && t < env.cancel
    ensures |w'.locals| == 2 && w'.locals[1] == w.locals[1] && w'.store == w.store && w'.births == w.births
    ensures w'.now == w'.locals[0].clock == t < w'.locals[0].deadline
    ensures w'.locals[0].pc == GcDelete(Main(c), [Item(MainKey(c, Eve(env.gran)), env.gran)])
    ensures Leads(env, w, w')
  {
    var st, kind, w0 := w.store, Main(c), BeginRun(env, w, 0, t);
    var items := [Item(MainKey(c, Eve(env.gran)), env.gran)];
    ToldBegin(env, w, 0, t);
    assert items[0].key in KeysOf(items);
    Told(env, w0, 0, GcList(kind), st, t, t, Items(items), st);
    LeadsOn(env, w, w0, At(w0, 0, GcAge(kind, items), st, t));
    Told(env, w0, 0, GcAge(kind, items), st, t, t, Time(t), st);
    w' := At(w0, 0, GcDelete(kind, items), st, t);
    LeadsOn(env, w, At(w0, 0, GcAge(kind, items), st, t), w');
  }

  // The first process deletes, at t, the object of the run that the second began at s.
  ghost predicate Collects(env: Env, c: Checker, w: World, e: Event, w': World, s: nat, t: nat)
  {
    && Deletes(env, w, e, w', MainKey(c, s)) && e.i == 0 && e.at == t
    && |w.locals| == 2 && w.locals[0].pc.GcDelete?
    && RunStamp(w.locals[1].pc) == Some(s) && w.locals[1].deadline == s + c.timeout
    && s in w.births && w.births[s] == Birth(1, s)
  }

  // A behaviour from the empty cluster, timestamps truncated to whole units, that ends so.
  ghost predicate EndsCollecting(env: Env, c: Checker, ws: seq<World>, es: seq<Event>, s: nat, t: nat)
  {
    && Behaviour(env, ws, es) && es != [] && ws[0].store == map[]
    && (forall m | 0 <= m < |es| :: Truncating(env.gran, es[m]))
    && Collects(env, c, ws[|es| - 1], es[|es| - 1], ws[|es|], s, t)
  }

  // And does: one event more.
  lemma Taken(env: Env, c: Checker, w: World, t: nat) returns (e: Event, w': World)
    requires Twins(env, c) && |w.locals| == 2 && MainKey(c, Eve(env.gran)) in w.store
    requires w.now == w.locals[0].clock == t < w.locals[0].deadline
    requires w.locals[0].pc == GcDelete(Main(c), [Item(MainKey(c, Eve(env.gran)), env.gran)])
    ensures Deletes(env, w, e, w', MainKey(c, Eve(env.gran))) && e.i == 0 && e.at == t
    ensures Orderly(w, e) && Truncating(env.gran, e)
  {
    var k := MainKey(c, Eve(env.gran));
    e := Call(0, t, t, RoundedDown(t, env.gran), Works, Status(None));
    w' := At(w, 0, Resume(c, w.locals[0].pc, Status(None)), w.store - {k}, t);
  }

  lemma StoryEnds(env: Env, c: Checker, w: World, e: Event, w': World, s: nat, t: nat)
    requires Twins(env, c) && Leads(env, Origin(2), w) && Collects(env, c, w, e, w', s, t)
    requires Orderly(w, e) && Truncating(env.gran, e)
    ensures exists ws, es :: EndsCollecting(env, c, ws, es, s, t)
  {
    var ws, es :| Story(env, ws, es) && ws[0] == Origin(2) && ws[|es|] == w;
    StoryAppend(env, ws, es, [w, w'], [e]);
    var us, fs := ws + [w, w'][1..], es + [e];
    assert us[|fs| - 1] == w && us[|fs|] == w' && us[0] == ws[0];
    assert EndsCollecting(env, c, us, fs, s, t);
  }

  // The collection, at any time at which the timestamp is over age.
  lemma CollectedAt(env: Env, c: Checker, t: nat)
    requires Twins(env, c) && Creates(c) && Eve(env.gran) <= t && t - env.gran > c.timeout && t < env.cancel
    ensures exists ws, es :: EndsCollecting(env, c, ws, es, Eve(env.gran), t)
  {
    var w;
    if c.PodStartup? {
      w := MakePod(env, c);
    } else {
      w := MakeMap(env, c);
    }
    var w0 := Wanted(env, c, w, t);
    LeadsOn(env, Origin(2), w, w0);
    var e, w' := Taken(env, c, w0, t);
    StoryEnds(env, c, w0, e, w', Eve(env.gran), t);
  }

  // The bound of GcSparesLiveRuns is reached, for every unit up to the timeout and two.
  lemma BoundReached(env: Env, c: Checker, t: nat)
    requires Twins(env, c) && Creates(c) && env.gran <= c.timeout + 2
    requires t == Eve(env.gran) + c.timeout + 2 - env.gran
    ensures exists ws, es :: EndsCollecting(env, c, ws, es, Eve(env.gran), t)
  {
    CollectedAt(env, c, t);
  }

  lemma LiveNeedsSlack(c: Checker, env: Env, ws: seq<World>, es: seq<Event>, i: nat, o: nat, k: Key)
    requires CollectsLive(c, env, ws, es, i, o, k)
    ensures env.gran >= 3
  {
    GcSparesLiveRuns(env, ws, es, |es| - 1, k);
  }

  lemma LiveCollected(c: Checker, gran: nat)
    requires gran >= 3 && Creates(c)
    ensures CanCollectLive(c, gran)
  {
    var env := Env([c, c], gran, 2 * gran + 2 * c.timeout + 2);
    var s, over := Eve(gran), gran + c.timeout + 1;
    var t := if over < s then s else over;
    CollectedAt(env, c, t);
    var ws, es :| EndsCollecting(env, c, ws, es, s, t);
    EndsLive(env, c, ws, es, s, t);
  }

  lemma EndsLive(env: Env, c: Checker, ws: seq<World>, es: seq<Event>, s: nat, t: nat)
    requires Twins(env, c) && EndsCollecting(env, c, ws, es, s, t) && t < s + c.timeout
    ensures CollectsLive(c, env, ws, es, 0, 1, MainKey(c, s))
  {
  }

  // A checker that gets to create its object can see it collected while the run has time left exactly
  // when the timestamps' unit is three or more.
  lemma SlackIsExact(c: Checker, gran: nat)
    requires gran >= 1 && Creates(c)
    ensures CanCollectLive(c, gran) <==> gran >= 3
  {
    if gran >= 3 {
      LiveCollected(c, gran);
    }
    if env: Env, ws, es, i, o, k :| env.gran == gran && CollectsLive(c, env, ws, es, i, o, k) {
      LiveNeedsSlack(c, env, ws, es, i, o, k);
    }
  }
}
