// Creating and deleting the storage objects of one pod startup run.
module Csi {
  import opened Results
  import opened Names
  import opened Cluster
  import opened Protocol
  import opened Session
  import Ownership

  ghost function PlanKeySet(plan: seq<Planned>): set<Key>
  {
    set n | 0 <= n < |plan| :: plan[n].key
  }

  // st' is st and exactly the planned objects, none of which was there.
  ghost predicate Added(c: Checker, st: Objects, st': Objects, plan: seq<Planned>)
  {
    && PlanKeySet(plan) !! st.Keys
    && st'.Keys == st.Keys + PlanKeySet(plan)
    && (forall m, n | 0 <= m < n < |plan| :: plan[m].key != plan[n].key)
    && (forall k | k in st :: st'[k] == st[k])
    && (forall n | 0 <= n < |plan| :: st'[plan[n].key].labels == Labels(c) && st'[plan[n].key].spec == plan[n].spec)
  }

  lemma PlanKeySetSnoc(plan: seq<Planned>, j: nat)
    requires j < |plan|
    ensures PlanKeySet(plan[..j + 1]) == PlanKeySet(plan[..j]) + {plan[j].key}
  {
    forall k | k in PlanKeySet(plan[..j]) + {plan[j].key} ensures k in PlanKeySet(plan[..j + 1]) {
      if k == plan[j].key {
        assert plan[..j + 1][j].key == k;
      } else {
        var n :| 0 <= n < j && plan[..j][n].key == k;
        assert plan[..j + 1][n].key == k;
      }
    }
  }

  lemma AddedSnoc(c: Checker, st: Objects, mid: Objects, plan: seq<Planned>, j: nat, created: int)
    requires j < |plan| && Added(c, st, mid, plan[..j]) && plan[j].key !in mid
    ensures Added(c, st, mid[plan[j].key := Object(Labels(c), created, plan[j].spec)], plan[..j + 1])
  {
    PlanKeySetSnoc(plan, j);
    var st' := mid[plan[j].key := Object(Labels(c), created, plan[j].spec)];
    var more := plan[..j + 1];
    forall m, n | 0 <= m < n < |more| ensures more[m].key != more[n].key {
      assert plan[..j][m].key in PlanKeySet(plan[..j]);
      if n < j {
        assert plan[..j][m].key != plan[..j][n].key;
      }
    }
    forall n | 0 <= n < |more| ensures st'[more[n].key].labels == Labels(c) && st'[more[n].key].spec == more[n].spec {
      if n < j {
        assert plan[..j][n] == more[n];
        assert plan[..j][n].key in PlanKeySet(plan[..j]);
      }
    }
  }

  lemma TakenSnoc(st: Objects, mid: Objects, st': Objects, plan: seq<Planned>, j: nat)
    requires j < |plan| && mid == st - PlanKeySet(plan[..j]) && st' == mid - {plan[j].key}
    ensures st' == st - PlanKeySet(plan[..j + 1])
  {
    PlanKeySetSnoc(plan, j);
  }

  // The claims of all types listed are there. An Azure File claim names the run's own storage class, which
  // is there too, the others the class provided for their type.
  ghost predicate Provided(c: Checker, ts: nat, st: Objects)
    requires c.PodStartup?
  {
    forall t | t in c.csis ::
      && ClaimKey(c, t, ts) in st && st[ClaimKey(c, t, ts)].labels == Labels(c)
      && (t.AzureFile? ==>
            && st[ClaimKey(c, t, ts)].spec == ClaimSpec(Custom(ClassName(ts)))
            && ClassKey(ts) in st && st[ClassKey(ts)].labels == Labels(c))
      && (!t.AzureFile? ==> st[ClaimKey(c, t, ts)].spec == ClaimSpec(Builtin(t)))
  }

  lemma AddedProvides(c: Checker, ts: nat, st: Objects, st': Objects)
    requires c.PodStartup? && Supported(c.csis) && Added(c, st, st', Plan(c, ts))
    ensures Provided(c, ts, st')
  {
    var plan := Plan(c, ts);
    forall t | t in c.csis
      ensures ClaimKey(c, t, ts) in st' && st'[ClaimKey(c, t, ts)].labels == Labels(c)
      ensures t.AzureFile? ==>
                && st'[ClaimKey(c, t, ts)].spec == ClaimSpec(Custom(ClassName(ts)))
                && ClassKey(ts) in st' && st'[ClassKey(ts)].labels == Labels(c)
      ensures !t.AzureFile? ==> st'[ClaimKey(c, t, ts)].spec == ClaimSpec(Builtin(t))
    {
      var j := Ownership.ClaimPlanned(c, c.csis, ts, t);
      assert plan[j].key in PlanKeySet(plan);
      if t.AzureFile? {
        assert plan[j - 1].key in PlanKeySet(plan);
      }
    }
  }

  // Taking the first planned objects away leaves exactly the rest of them.
  lemma RestRemains(c: Checker, st: Objects, st': Objects, plan: seq<Planned>, gone: nat)
    requires Added(c, st, st', plan) && gone <= |plan|
    ensures Added(c, st, st' - PlanKeySet(plan[..gone]), plan[gone..])
  {
    var rest, keys := plan[gone..], PlanKeySet(plan[..gone]);
    forall n | 0 <= n < |rest| ensures rest[n] == plan[gone + n] && rest[n].key !in keys {
      assert forall m | 0 <= m < gone :: plan[..gone][m] == plan[m];
    }
    forall k | k in PlanKeySet(plan) ensures k in keys || k in PlanKeySet(rest) {
      var n :| 0 <= n < |plan| && plan[n].key == k;
      if n < gone {
        assert plan[..gone][n].key == k;
      } else {
        assert rest[n - gone].key == k;
      }
    }
  }

  // Taking the planned objects away again gives back the starting store exactly.
  lemma UndoExact(c: Checker, st: Objects, st': Objects, plan: seq<Planned>)
    requires Added(c, st, st', plan)
    ensures st' - PlanKeySet(plan) == st
  {
  }

  // ---- The plan at CSI entry i ----

  lemma PlanCons(c: Checker, t: CsiType, rest: seq<CsiType>, ts: nat)
    requires !t.OtherCsi?
    ensures PlanOf(c, [t] + rest, ts) == Entry(c, t, ts) + PlanOf(c, rest, ts)
  {
    assert ([t] + rest)[1..] == rest;
  }

  lemma {:induction false} PlanAppend(c: Checker, a: seq<CsiType>, b: seq<CsiType>, ts: nat)
    requires Supported(a)
    ensures PlanOf(c, a + b, ts) == PlanOf(c, a, ts) + PlanOf(c, b, ts)
  {
    if a == [] {
      assert a + b == b;
    } else {
      var rest := a[1..];
      assert a == [a[0]] + rest && a + b == [a[0]] + (rest + b);
      PlanAppend(c, rest, b, ts);
      PlanCons(c, a[0], rest, ts);
      PlanCons(c, a[0], rest + b, ts);
    }
  }

  lemma PlanSplit(c: Checker, csis: seq<CsiType>, ts: nat, i: nat)
    requires i <= |csis| && Supported(csis[..i])
    ensures PlanOf(c, csis, ts) == PlanOf(c, csis[..i], ts) + PlanOf(c, csis[i..], ts)
  {
    assert csis == csis[..i] + csis[i..];
    PlanAppend(c, csis[..i], csis[i..], ts);
  }

  // Where entry i starts in the plan.
  function Offset(c: Checker, ts: nat, i: nat): nat
    requires c.PodStartup? && i <= |c.csis|
  {
    |PlanOf(c, c.csis[..i], ts)|
  }

  lemma EntryAt(c: Checker, ts: nat, i: nat)
    requires c.PodStartup? && i < |c.csis| && Supported(c.csis[..i])
    ensures c.csis[i].OtherCsi? ==> Offset(c, ts, i) == |Plan(c, ts)| && !Supported(c.csis)
    ensures !c.csis[i].OtherCsi? ==>
              && Supported(c.csis[..i + 1])
              && Offset(c, ts, i + 1) == Offset(c, ts, i) + |Entry(c, c.csis[i], ts)| <= |Plan(c, ts)|
              && Plan(c, ts)[Offset(c, ts, i)] == Entry(c, c.csis[i], ts)[0]
              && (c.csis[i].AzureFile? ==> Plan(c, ts)[Offset(c, ts, i) + 1] == Entry(c, c.csis[i], ts)[1])
  {
    var csis := c.csis;
    PlanSplit(c, csis, ts, i);
    if !csis[i].OtherCsi? {
      assert csis[..i + 1] == csis[..i] + [csis[i]];
      PlanSplit(c, csis[..i + 1], ts, i);
      assert csis[..i + 1][..i] == csis[..i] && csis[..i + 1][i..] == [csis[i]];
      assert PlanOf(c, [csis[i]], ts) == Entry(c, csis[i], ts) + PlanOf(c, [], ts);
    }
  }

  // The first m planned objects are those of the entries before i, and perhaps i's storage class.
  predicate StopsIn(c: Checker, ts: nat, i: nat, m: nat)
    requires c.PodStartup? && m <= |Plan(c, ts)|
  {
    && i < |c.csis|
    && var before := PlanOf(c, c.csis[..i], ts);
       || Plan(c, ts)[..m] == before
       || (c.csis[i].AzureFile? && Plan(c, ts)[..m] == before + [Planned(ClassKey(ts), NoSpec)])
  }

  lemma StopsAt(c: Checker, ts: nat, i: nat, m: nat)
    requires c.PodStartup? && i < |c.csis| && Supported(c.csis[..i]) && m <= |Plan(c, ts)|
    requires m == Offset(c, ts, i) || (c.csis[i].AzureFile? && m == Offset(c, ts, i) + 1)
    ensures StopsIn(c, ts, i, m)
  {
    PlanSplit(c, c.csis, ts, i);
    var before, rest := PlanOf(c, c.csis[..i], ts), PlanOf(c, c.csis[i..], ts);
    if m == |before| {
      assert Plan(c, ts)[..m] == before;
    } else {
      assert rest[0] == Planned(ClassKey(ts), NoSpec);
      assert Plan(c, ts)[..m] == before + [rest[0]];
    }
  }

  // ---- Creation ----

  class PodStorage {
    const api: Client

    constructor (api: Client)
      ensures this.api == api
    {
      this.api := api;
    }

    ghost predicate Valid()
    {
      api.chk.PodStartup? && api.gran > 0
    }

    // Call n, a creation, was answered with an error, or the name was taken (and, undisturbed, still is).
    ghost predicate CreateRefused(n: nat, key: Key)
      reads api
    {
      Refused(api.faults(n, Creating)) || (api.Quiet() ==> key in api.store)
    }

    // Calls lo..hi, creations, were answered without error.
    ghost predicate AllCreated(lo: nat, hi: nat)
    {
      forall n | lo <= n < hi :: !Refused(api.faults(n, Creating))
    }

    // Undisturbed, exactly the first j planned objects are new.
    ghost predicate NewSince(ts: nat, st: Objects, j: nat)
      requires Valid() && j <= |Plan(api.chk, ts)|
      reads api
    {
      api.Quiet() && api.CreatesHonest() ==> Added(api.chk, st, api.store, Plan(api.chk, ts)[..j])
    }

    // From store st and call lo on, the first j planned objects were created.
    ghost predicate MadeTo(ts: nat, st: Objects, lo: nat, j: nat)
      requires Valid()
      reads api
    {
      && j <= |Plan(api.chk, ts)| && api.Traced() && Belongs(api.chk, api.pc) && api.pc == CsiNext(api.chk, ts, j)
      && api.calls == lo + j && AllCreated(lo, lo + j) && NewSince(ts, st, j)
    }

    // And the next one failed.
    ghost predicate MadeOnly(ts: nat, st: Objects, lo: nat, j: nat)
      requires Valid()
      reads api
    {
      && j < |Plan(api.chk, ts)| && api.Traced() && api.pc == Done(Failed(CsiCreateFailed))
      && api.calls == lo + j + 1 && AllCreated(lo, lo + j) && NewSince(ts, st, j)
      && CreateRefused(lo + j, Plan(api.chk, ts)[j].key)
    }

    // Creates plan[j].
    method CreateOne(ts: nat, j: nat, key: Key, spec: Spec, ghost st: Objects, ghost lo: nat) returns (failed: bool)
      requires Valid() && MadeTo(ts, st, lo, j) && j < |Plan(api.chk, ts)| && Plan(api.chk, ts)[j] == Planned(key, spec)
      modifies api
      ensures if failed then MadeOnly(ts, st, lo, j) else MadeTo(ts, st, lo, j + 1)
    {
      ghost var before, n := api.store, api.calls;
      var err := api.Create(key, Labels(api.chk), spec);
      failed := err.Some?;
      ResumeBelongs(api.chk, CsiCreate(ts, j), Status(err));
      if api.Quiet() && api.CreatesHonest() && !failed {
        AddedSnoc(api.chk, st, before, Plan(api.chk, ts), j, RoundedDown(api.clock(n), api.gran));
      }
    }

    // The storage class, then the claim that names it.
    method CreateAzureFile(ts: nat, j: nat, ghost st: Objects, ghost lo: nat) returns (failed: bool, ghost made: nat)
      requires Valid() && MadeTo(ts, st, lo, j) && j + 1 < |Plan(api.chk, ts)|
      requires Plan(api.chk, ts)[j] == Entry(api.chk, AzureFile, ts)[0]
      requires Plan(api.chk, ts)[j + 1] == Entry(api.chk, AzureFile, ts)[1]
      modifies api
      ensures j <= made <= j + 2 && (failed <==> made < j + 2)
      ensures if failed then MadeOnly(ts, st, lo, made) else MadeTo(ts, st, lo, made)
    {
      failed := CreateOne(ts, j, ClassKey(ts), NoSpec, st, lo);
      if failed {
        return true, j;
      }
      failed := CreateOne(ts, j + 1, ClaimKey(api.chk, AzureFile, ts), ClaimSpec(ClaimClass(AzureFile, ts)), st, lo);
      made := if failed then j + 1 else j + 2;
    }

    // Creates the objects of entry i of the enabled CSI types.
    method CreateEntry(ts: nat, i: nat, ghost st: Objects, ghost lo: nat) returns (failed: bool, ghost made: nat)
      requires Valid() && i < |api.chk.csis| && Supported(api.chk.csis[..i]) && !api.chk.csis[i].OtherCsi?
      requires MadeTo(ts, st, lo, Offset(api.chk, ts, i))
      modifies api
      ensures Supported(api.chk.csis[..i + 1])
      ensures if failed then MadeOnly(ts, st, lo, made) && StopsIn(api.chk, ts, i, made)
              else MadeTo(ts, st, lo, made) && made == Offset(api.chk, ts, i + 1)
    {
      EntryAt(api.chk, ts, i);
      var c := api.chk;
      var j := Offset(c, ts, i);
      match c.csis[i] {
        case AzureDisk =>
          failed := CreateOne(ts, j, ClaimKey(c, AzureDisk, ts), ClaimSpec(ClaimClass(AzureDisk, ts)), st, lo);
          made := if failed then j else j + 1;
        case AzureFile =>
          failed, made := CreateAzureFile(ts, j, st, lo);
        case AzureBlob =>
          failed := CreateOne(ts, j, ClaimKey(c, AzureBlob, ts), ClaimSpec(ClaimClass(AzureBlob, ts)), st, lo);
          made := if failed then j else j + 1;
      }
      if failed {
        StopsAt(c, ts, i, made);
      }
    }

    // Creates the objects of every enabled CSI type in order, giving up at the first failure or
    // unsupported type: the first `made` calls succeeded, the next one, if it was made, did not.
    // Undisturbed and honest, it leaves exactly the `made` first planned objects: all of them on
    // success, else those of the entries before entry `at`, and its class if its claim failed.
    method CreateCsiResources(ts: nat) returns (err: Option<Cause>, ghost made: nat, ghost at: nat)
      requires Valid() && Belongs(api.chk, api.pc) && api.pc == CsiNext(api.chk, ts, 0)
      requires api.Traced()
      modifies api
      ensures api.Traced() && err in {None, Some(CsiCreateFailed), Some(CsiUnsupported)}
      ensures err.None? ==>
                && api.pc == ListPods(ts) && Supported(api.chk.csis)
                && made == |Plan(api.chk, ts)| && MadeTo(ts, old(api.store), old(api.calls), made)
      ensures err.None? && api.Quiet() && api.CreatesHonest() ==> Provided(api.chk, ts, api.store)
      ensures err == Some(CsiCreateFailed) ==>
                MadeOnly(ts, old(api.store), old(api.calls), made) && StopsIn(api.chk, ts, at, made)
      ensures err == Some(CsiUnsupported) ==>
                && api.pc == Done(Failed(CsiUnsupported)) && at < |api.chk.csis| && api.chk.csis[at].OtherCsi?
                && Supported(api.chk.csis[..at])
                && made == |Plan(api.chk, ts)| && MadeTo(ts, old(api.store), old(api.calls), made)
    {
      var csis := api.chk.csis;
      made, at := 0, |csis|;
      for i := 0 to |csis|
        invariant Supported(csis[..i]) && made == Offset(api.chk, ts, i)
        invariant MadeTo(ts, old(api.store), old(api.calls), made)
      {
        if csis[i].OtherCsi? {
          EntryAt(api.chk, ts, i);
          return Some(CsiUnsupported), made, i;
        }
        var failed;
        failed, made := CreateEntry(ts, i, old(api.store), old(api.calls));
        if failed {
          return Some(CsiCreateFailed), made, i;
        }
      }
      assert csis[..|csis|] == csis && Plan(api.chk, ts)[..made] == Plan(api.chk, ts);
      if api.Quiet() && api.CreatesHonest() {
        AddedProvides(api.chk, ts, old(api.store), api.store);
      }
      return None, made, at;
    }

    // ---- Deletion ----

    // No delete loses its answer, lingers or denies an object that is there.
    ghost predicate DeletesHonest()
    {
      forall n :: var f := api.faults(n, Deleting); f.Works? || (f.Fails? && f.e != NotFound)
    }

    // No call of lo..hi, deletions, was answered with an error other than NotFound.
    ghost predicate AllTaken(lo: nat, hi: nat)
    {
      forall n | lo <= n < hi :: !Complained(api.faults(n, Deleting))
    }

    // Undisturbed, exactly the first j planned objects are gone.
    ghost predicate GoneSince(ts: nat, st: Objects, j: nat)
      requires Valid() && j <= |Plan(api.chk, ts)|
      reads api
    {
      api.Quiet() && DeletesHonest() ==> api.store == st - PlanKeySet(Plan(api.chk, ts)[..j])
    }

    // From store st and call lo on, the first j planned objects were deleted.
    ghost predicate TakenTo(ts: nat, v: Verdict, st: Objects, lo: nat, j: nat)
      requires Valid()
      reads api
    {
      && j <= |Plan(api.chk, ts)| && api.Traced() && Belongs(api.chk, api.pc)
      && api.pc == (if j < |Plan(api.chk, ts)| then CsiDelete(ts, j, v) else Done(v))
      && api.calls == lo + j && AllTaken(lo, lo + j) && GoneSince(ts, st, j)
    }

    // And the next one failed.
    ghost predicate TakenOnly(ts: nat, v: Verdict, st: Objects, lo: nat, j: nat)
      requires Valid()
      reads api
    {
      && j < |Plan(api.chk, ts)| && api.Traced() && api.pc == Done(v)
      && api.calls == lo + j + 1 && AllTaken(lo, lo + j) && GoneSince(ts, st, j)
      && Complained(api.faults(lo + j, Deleting))
    }

    // Deletes plan[j].
    method DeleteOne(ts: nat, j: nat, v: Verdict, key: Key, ghost st: Objects, ghost lo: nat) returns (failed: bool)
      requires Valid() && TakenTo(ts, v, st, lo, j) && j < |Plan(api.chk, ts)| && Plan(api.chk, ts)[j].key == key
      modifies api
      ensures if failed then TakenOnly(ts, v, st, lo, j) else TakenTo(ts, v, st, lo, j + 1)
    {
      ghost var before := api.store;
      var err := api.Delete(key);
      failed := !Tolerable(err);
      ResumeBelongs(api.chk, CsiDelete(ts, j, v), Status(err));
      if api.Quiet() && DeletesHonest() && !failed {
        TakenSnoc(st, before, api.store, Plan(api.chk, ts), j);
      }
    }

    method DeleteAzureFile(ts: nat, j: nat, v: Verdict, ghost st: Objects, ghost lo: nat)
        returns (failed: bool, ghost gone: nat)
      requires Valid() && TakenTo(ts, v, st, lo, j) && j + 1 < |Plan(api.chk, ts)|
      requires Plan(api.chk, ts)[j].key == ClassKey(ts)
      requires Plan(api.chk, ts)[j + 1].key == ClaimKey(api.chk, AzureFile, ts)
      modifies api
      ensures j <= gone <= j + 2 && (failed <==> gone < j + 2)
      ensures if failed then TakenOnly(ts, v, st, lo, gone) else TakenTo(ts, v, st, lo, gone)
    {
      failed := DeleteOne(ts, j, v, ClassKey(ts), st, lo);
      if failed {
        return true, j;
      }
      failed := DeleteOne(ts, j + 1, v, ClaimKey(api.chk, AzureFile, ts), st, lo);
      gone := if failed then j + 1 else j + 2;
    }

    method DeleteEntry(ts: nat, i: nat, v: Verdict, ghost st: Objects, ghost lo: nat)
        returns (failed: bool, ghost gone: nat)
      requires Valid() && i < |api.chk.csis| && Supported(api.chk.csis[..i]) && !api.chk.csis[i].OtherCsi?
      requires TakenTo(ts, v, st, lo, Offset(api.chk, ts, i))
      modifies api
      ensures Supported(api.chk.csis[..i + 1])
      ensures if failed then TakenOnly(ts, v, st, lo, gone) && StopsIn(api.chk, ts, i, gone)
              else TakenTo(ts, v, st, lo, gone) && gone == Offset(api.chk, ts, i + 1)
    {
      EntryAt(api.chk, ts, i);
      var c := api.chk;
      var j := Offset(c, ts, i);
      match c.csis[i] {
        case AzureDisk =>
          failed := DeleteOne(ts, j, v, ClaimKey(c, AzureDisk, ts), st, lo);
          gone := if failed then j else j + 1;
        case AzureFile =>
          failed, gone := DeleteAzureFile(ts, j, v, st, lo);
        case AzureBlob =>
          failed := DeleteOne(ts, j, v, ClaimKey(c, AzureBlob, ts), st, lo);
          gone := if failed then j else j + 1;
      }
      if failed {
        StopsAt(c, ts, i, gone);
      }
    }

    // Deletes the same objects in the same order, stopping at the first failure: the first `gone` calls
    // were answered in order, the next one, if it was made, was not. Undisturbed and honest, exactly
    // the `gone` first planned objects go, those of the entries before entry `at` and perhaps its
    // class; so after a complete creation exactly the rest of what it made remains, and nothing of it
    // if no delete failed.
    method DeleteCsiResources(ts: nat, v: Verdict) returns (ok: bool, ghost gone: nat, ghost at: nat)
      requires Valid() && Belongs(api.chk, api.pc) && api.pc == Unwind(api.chk, ts, v) && Supported(api.chk.csis)
      requires api.Traced()
      modifies api
      ensures api.Traced() && api.pc == Done(v)
      ensures if ok then TakenTo(ts, v, old(api.store), old(api.calls), gone) && gone == |Plan(api.chk, ts)|
              else TakenOnly(ts, v, old(api.store), old(api.calls), gone) && StopsIn(api.chk, ts, at, gone)
      ensures api.DeletesWork() ==> ok
      ensures api.Quiet() && DeletesHonest() ==>
                forall st | Added(api.chk, st, old(api.store), Plan(api.chk, ts)) ::
                  && Added(api.chk, st, api.store, Plan(api.chk, ts)[gone..])
                  && (ok ==> api.store == st)
    {
      ghost var now := api.store;
      ok, gone, at := DeleteEntries(ts, v);
      assert Plan(api.chk, ts)[..|Plan(api.chk, ts)|] == Plan(api.chk, ts);
      RestRemainsFor(api.chk, now, Plan(api.chk, ts), gone);
    }

    method DeleteEntries(ts: nat, v: Verdict) returns (ok: bool, ghost gone: nat, ghost at: nat)
      requires Valid() && Belongs(api.chk, api.pc) && api.pc == Unwind(api.chk, ts, v) && Supported(api.chk.csis)
      requires api.Traced()
      modifies api
      ensures if ok then TakenTo(ts, v, old(api.store), old(api.calls), gone) && gone == |Plan(api.chk, ts)|
              else TakenOnly(ts, v, old(api.store), old(api.calls), gone) && StopsIn(api.chk, ts, at, gone)
    {
      var csis := api.chk.csis;
      ok, gone, at := true, 0, |csis|;
      NothingTaken(api.store, Plan(api.chk, ts));
      assert csis[..0] == [];
      for i := 0 to |csis|
        invariant ok && Supported(csis[..i]) && gone == Offset(api.chk, ts, i)
        invariant TakenTo(ts, v, old(api.store), old(api.calls), gone)
      {
        var failed;
        failed, gone := DeleteEntry(ts, i, v, old(api.store), old(api.calls));
        if failed {
          return false, gone, i;
        }
      }
      assert csis[..|csis|] == csis;
    }
  }

  lemma NothingTaken(st: Objects, plan: seq<Planned>)
    ensures st - PlanKeySet(plan[..0]) == st
  {
  }

  lemma RestRemainsFor(c: Checker, now: Objects, plan: seq<Planned>, gone: nat)
    requires gone <= |plan|
    ensures forall st | Added(c, st, now, plan) ::
              && Added(c, st, now - PlanKeySet(plan[..gone]), plan[gone..])
              && (gone == |plan| ==> now - PlanKeySet(plan[..gone]) == st)
  {
    forall st | Added(c, st, now, plan)
      ensures Added(c, st, now - PlanKeySet(plan[..gone]), plan[gone..])
      ensures gone == |plan| ==> now - PlanKeySet(plan[..gone]) == st
    {
      RestRemains(c, st, now, plan, gone);
      if gone == |plan| {
        assert plan[..gone] == plan;
        UndoExact(c, st, now, plan);
      }
    }
  }
}
