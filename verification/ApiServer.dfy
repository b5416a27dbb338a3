// A whole run of the API server checker: collect, limit, create, get and delete one ConfigMap, with
// the deletion tried again on the way out.
module ApiServer {
  import opened Results
  import opened Cluster
  import opened Protocol
  import opened Session
  import opened Collection
  import Verdicts

  // The run got as far as having created its ConfigMap.
  predicate Created(v: Verdict)
  {
    v in {Healthy, Unhealthy(GetError), Unhealthy(GetTimeout), Unhealthy(DeleteError), Unhealthy(DeleteTimeout)}
  }

  // st' is st and the run's ConfigMap.
  ghost predicate MapLeft(c: Checker, ts: nat, st: Objects, st': Objects)
  {
    var k := MapKey(c, ts);
    k !in st && k in st' && st'[k].labels == Labels(c) && st' - {k} == st
  }

  // The run's ConfigMap survives exactly when none of the deletes tried on it was effective.
  ghost predicate Leaves(c: Checker, ts: nat, v: Verdict, tries: seq<Fault>, st: Objects, st': Objects)
  {
    if Created(v) && forall f | f in tries :: !Effective(f) then MapLeft(c, ts, st, st') else st' == st
  }

  class ApiServerChecker {
    const api: Client

    constructor (api: Client)
      ensures this.api == api
    {
      this.api := api;
    }

    ghost predicate Valid()
    {
      api.chk.ApiServer? && api.gran > 0
    }

    // The delete of a present object was answered without error.
    predicate Acknowledged(fate: Fault)
    {
      fate.Works? || fate.Lingers?
    }

    function AfterDelete(ts: nat, st: Objects, fate: Fault): Objects
    {
      if Effective(fate) then st - {MapKey(api.chk, ts)} else st
    }

    method CheckMapLimit() returns (err: Option<Cause>)
      requires Valid() && api.pc == LimitMaps
      requires api.Traced()
      modifies api
      ensures api.Traced()
      ensures err.None? ==> api.pc == TakeStamp
      ensures err == Some(MapList) <==> Refused(api.faults(old(api.calls), Listing))
      ensures err.Some? ==> err.value in {MapList, MapLimit} && api.pc == Done(Failed(err.value))
      ensures api.Quiet() ==> api.store == old(api.store)
      ensures api.Quiet() && err != Some(MapList) ==>
                (err.None? <==> |Matching(api.store, ConfigMap, api.chk.ns, OwnSelector(api.chk))| < api.chk.maxObjects)
    {
      var reply := api.List(ConfigMap, api.chk.ns, OwnSelector(api.chk));
      if !reply.Items? {
        return Some(MapList);
      }
      return if |reply.items| >= api.chk.maxObjects then Some(MapLimit) else None;
    }

    method CreateConfigMap() returns (ts: nat, err: Option<Error>)
      requires Valid() && api.pc == TakeStamp
      requires api.Traced()
      modifies api
      ensures api.Traced()
      ensures ts == api.clock(old(api.calls)) && api.calls == old(api.calls) + 2
      ensures var fate := api.faults(old(api.calls) + 1, Creating);
              && (Refused(fate) ==> err == Some(fate.e))
              && (!Refused(fate) ==> err in {None, Some(AlreadyExists)})
              && (api.Quiet() ==> (err.None? <==> !Refused(fate) && MapKey(api.chk, ts) !in old(api.store)))
      ensures err.None? ==> api.pc == GetMap(ts)
      ensures err.Some? ==>
                api.pc == Done(Unhealthy(if err.value.DeadlineExceeded? then CreateTimeout else CreateError))
      ensures api.Quiet() && api.CreatesHonest() && err.Some? ==> api.store == old(api.store)
      ensures api.Quiet() && err.None? ==> MapLeft(api.chk, ts, old(api.store), api.store)
    {
      ts := api.Now();
      err := api.Create(MapKey(api.chk, ts), Labels(api.chk), NoSpec);
    }

    method GetConfigMap(ts: nat) returns (v: Option<Verdict>)
      requires Valid() && api.pc == GetMap(ts)
      requires api.Traced()
      modifies api
      ensures api.Traced()
      ensures api.calls == old(api.calls) + 1
      ensures var fate := api.faults(old(api.calls), Reading);
              && (v.None? <==> !Refused(fate))
              && (v == Some(Unhealthy(GetTimeout)) <==> Refused(fate) && fate.e == DeadlineExceeded)
      ensures v.None? ==> api.pc == DeleteMap(ts)
      ensures v.Some? ==> v.value in {Unhealthy(GetError), Unhealthy(GetTimeout)} && api.pc == CleanMap(ts, v.value)
      ensures api.Quiet() ==> api.store == old(api.store)
    {
      var err := api.Probe();
      return match err
        case None => None
        case Some(e) => Some(Unhealthy(if e.DeadlineExceeded? then GetTimeout else GetError));
    }

    // Here even NotFound makes the run unhealthy.
    method DeleteConfigMap(ts: nat) returns (v: Verdict)
      requires Valid() && api.pc == DeleteMap(ts)
      requires api.Traced()
      modifies api
      ensures api.Traced()
      ensures v in {Healthy, Unhealthy(DeleteError), Unhealthy(DeleteTimeout)} && api.pc == CleanMap(ts, v)
      ensures api.calls == old(api.calls) + 1
      ensures api.Quiet() ==>
                api.store == AfterDelete(ts, old(api.store), api.faults(old(api.calls), Deleting))
      ensures var fate := api.faults(old(api.calls), Deleting);
              && (v == Unhealthy(DeleteTimeout) <==> Refused(fate) && fate.e == DeadlineExceeded)
              && (v == Healthy ==> Acknowledged(fate))
              && (api.Quiet() ==> (v == Healthy <==> Acknowledged(fate) && MapKey(api.chk, ts) in old(api.store)))
    {
      var err := api.Delete(MapKey(api.chk, ts));
      return match err
        case None => Healthy
        case Some(e) => Unhealthy(if e.DeadlineExceeded? then DeleteTimeout else DeleteError);
    }

    method CleanConfigMap(ts: nat, v: Verdict)
      requires Valid() && api.pc == CleanMap(ts, v)
      requires api.Traced()
      modifies api
      ensures api.Traced()
      ensures api.pc == Done(v) && api.calls == old(api.calls) + 1
      ensures api.Quiet() ==>
                api.store == AfterDelete(ts, old(api.store), api.faults(old(api.calls), Deleting))
    {
      var _ := api.Delete(MapKey(api.chk, ts));
    }

    // Deletes the ConfigMap, and tries again.
    method DeleteTwice(ts: nat) returns (v: Verdict)
      requires Valid() && api.pc == DeleteMap(ts)
      requires api.Traced()
      modifies api
      ensures api.Traced() && api.calls == old(api.calls) + 2
      ensures api.pc == Done(v) && v in {Healthy, Unhealthy(DeleteError), Unhealthy(DeleteTimeout)}
      ensures api.Quiet() && MapKey(api.chk, ts) in old(api.store) ==>
                (v == Healthy <==> Acknowledged(api.faults(old(api.calls), Deleting)))
      ensures api.Quiet() ==>
                api.store == AfterDelete(ts, AfterDelete(ts, old(api.store), api.faults(old(api.calls), Deleting)),
                                         api.faults(old(api.calls) + 1, Deleting))
    {
      v := DeleteConfigMap(ts);
      CleanConfigMap(ts, v);
    }

    // Reads and deletes the ConfigMap just created. `tries`: what became of the deletes tried on it.
    method Exercise(ts: nat) returns (v: Verdict, ghost tries: seq<Fault>)
      requires Valid() && api.pc == GetMap(ts)
      requires api.Traced()
      modifies api
      ensures api.Traced()
      ensures api.pc == Done(v) && Created(v) && TriesOf(v, tries)
      ensures var fate := api.faults(old(api.calls), Reading);
              && (v == Unhealthy(GetTimeout) <==> Refused(fate) && fate.e == DeadlineExceeded)
              && (v == Unhealthy(GetError) <==> Refused(fate) && fate.e != DeadlineExceeded)
      ensures api.Quiet() && MapKey(api.chk, ts) in old(api.store) && |tries| == 2 ==>
                (v == Healthy <==> Acknowledged(tries[0]))
      ensures api.Quiet() ==>
                api.store == if exists f :: f in tries && Effective(f) then old(api.store) - {MapKey(api.chk, ts)}
                    else old(api.store)
    {
      var missing := GetConfigMap(ts);
      ghost var fate := api.faults(api.calls, Deleting);
      if missing.Some? {
        v := missing.value;
        CleanConfigMap(ts, v);
        tries := [fate];
      } else {
        ghost var last := api.faults(api.calls + 1, Deleting);
        v := DeleteTwice(ts);
        tries := [fate, last];
        assert last in tries;
      }
      assert fate in tries;
    }

    // A failed read is followed by the deferred delete alone, the rest by both deletes.
    ghost predicate TriesOf(v: Verdict, tries: seq<Fault>)
      reads api
    {
      if v in {Unhealthy(GetError), Unhealthy(GetTimeout)} then
        0 < api.calls && tries == [api.faults(api.calls - 1, Deleting)]
      else
        1 < api.calls && tries == [api.faults(api.calls - 2, Deleting), api.faults(api.calls - 1, Deleting)]
    }

    // Age-based collection; without a list it does nothing.
    method GarbageCollect() returns (errs: seq<GcError>, ghost seen: map<Key, nat>, ghost fates: map<Key, Fault>)
      requires Valid() && api.pc == Start(api.chk)
      requires api.Traced()
      modifies api
      ensures api.Traced()
      ensures api.pc == LimitMaps
      ensures api.Quiet() ==>
                && (|| seen.Keys == Matching(old(api.store), ConfigMap, api.chk.ns, OwnSelector(api.chk))
                    || (seen == map[] && errs != []))
                && fates.Keys == OverAge(api.chk, old(api.store), seen)
                && api.store == old(api.store) - Gone(fates)
                && (errs == [] ==> Failing(fates) == {})
    {
      var listErr;
      listErr, errs, seen, fates := CollectGarbage(api, ConfigMap);
      if listErr.Some? {
        seen, fates := map[], map[];
        assert Gone(map[]) == {} && old(api.store) - {} == old(api.store);
      }
    }

    // The run after garbage collection.
    method CheckCollected() returns (v: Verdict, ghost ts: nat, ghost tries: seq<Fault>)
      requires Valid() && api.pc == LimitMaps
      requires api.Traced()
      modifies api
      ensures api.Traced()
      ensures api.pc == Done(v)
      ensures if Created(v) then TriesOf(v, tries) else tries == []
      ensures api.Quiet() && |tries| == 2 ==> (v == Healthy <==> Acknowledged(tries[0]))
      ensures api.Quiet() && api.CreatesHonest() ==> Leaves(api.chk, ts, v, tries, old(api.store), api.store)
    {
      ts, tries := 0, [];
      var stop := CheckMapLimit();
      if stop.Some? {
        return Failed(stop.value), ts, tries;
      }
      var t, err := CreateConfigMap();
      ts := t;
      if err.Some? {
        return Unhealthy(if err.value.DeadlineExceeded? then CreateTimeout else CreateError), ts, tries;
      }
      v, tries := Exercise(t);
    }

    lemma DecidedVerdict(v: Verdict)
      requires Valid() && api.Traced() && api.pc == Done(v)
      ensures forall w | w != Failed(CsiUnsupported) :: v == w <==> Verdicts.IsDecided(api.chk, api.trace, w)
      ensures v != Failed(CsiUnsupported)
    {
      Verdicts.VerdictDecided(api.chk, api.gran, api.trace, v, v);
      forall w ensures w != Failed(CsiUnsupported) ==> (v == w <==> Verdicts.IsDecided(api.chk, api.trace, w)) {
        Verdicts.VerdictDecided(api.chk, api.gran, api.trace, v, w);
      }
    }

    // One run: its verdict is that of the answer that decides. `collected` is the store after garbage collection.
    method Check() returns (v: Verdict, ghost ts: nat, ghost collected: Objects, ghost tries: seq<Fault>,
                            ghost seen: map<Key, nat>, ghost fates: map<Key, Fault>)
      requires Valid() && api.pc == Start(api.chk)
      requires api.Traced()
      modifies api
      ensures api.Traced()
      ensures api.pc == Done(v)
      ensures forall w | w != Failed(CsiUnsupported) :: v == w <==> Verdicts.IsDecided(api.chk, api.trace, w)
      ensures v != Failed(CsiUnsupported)
      ensures if Created(v) then TriesOf(v, tries) else tries == []
      ensures api.Quiet() && |tries| == 2 ==> (v == Healthy <==> Acknowledged(tries[0]))
      ensures api.Quiet() ==>
                && seen.Keys <= Matching(old(api.store), ConfigMap, api.chk.ns, OwnSelector(api.chk))
                && fates.Keys == OverAge(api.chk, old(api.store), seen)
                && collected == old(api.store) - Gone(fates)
      ensures api.Quiet() && api.CreatesHonest() ==> Leaves(api.chk, ts, v, tries, collected, api.store)
    {
      var errs;
      errs, seen, fates := GarbageCollect();
      collected := api.store;
      v, ts, tries := CheckCollected();
      DecidedVerdict(v);
    }
  }
}
