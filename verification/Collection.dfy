// Age-based garbage collection of one kind of a checker's objects.
module Collection {
  import opened Cluster
  import opened Protocol
  import opened Session

  datatype GcError = ListFailed(e: Error) | DeleteFailed(key: Key, e: Error)

  lemma KeysOfStep(items: seq<Item>, i: nat)
    requires i < |items|
    ensures KeysOf(items[..i + 1]) == KeysOf(items[..i]) + {items[i].key}
  {
  }

  lemma {:induction false} KeysNoMore(items: seq<Item>)
    ensures |KeysOf(items)| <= |items|
  {
    if items != [] {
      var n := |items| - 1;
      KeysNoMore(items[..n]);
      assert items[..n + 1] == items;
      KeysOfStep(items, n);
    }
  }

  // As many keys as items: no key comes twice.
  lemma {:induction false} NoRepeats(items: seq<Item>, i: nat)
    requires |KeysOf(items)| == |items| && i < |items|
    ensures items[i].key !in KeysOf(items[..i])
  {
    var n := |items| - 1;
    assert items[..n + 1] == items;
    KeysOfStep(items, n);
    KeysNoMore(items[..n]);
    if i < n {
      assert items[..n][..i] == items[..i];
      NoRepeats(items[..n], i);
    }
  }

  // Looks at the age of todo[0] and deletes it if over age. `fate` is what became of the delete,
  // `err` its error unless NotFound.
  method CollectItem(api: Client, kind: Kind, todo: seq<Item>)
      returns (t: nat, err: Option<Error>, ghost fate: Option<Fault>)
    requires api.gran > 0 && todo != [] && api.pc == GcAge(kind, todo) && Belongs(api.chk, api.pc)
    requires api.Traced()
    modifies api
    ensures api.Traced()
    ensures api.pc == GcNext(api.chk, kind, todo[1..]) && Belongs(api.chk, api.pc)
    ensures old(api.calls) < api.calls && t == api.clock(old(api.calls))
    ensures fate.Some? <==> t - todo[0].created > api.chk.timeout
    ensures fate.Some? ==> api.calls == old(api.calls) + 2 && fate.value == api.faults(old(api.calls) + 1, Deleting)
    ensures api.Quiet() ==>
              && api.store ==
                 if fate.Some? && Effective(fate.value) then old(api.store) - {todo[0].key} else old(api.store)
    ensures api.Quiet() && todo[0].key in old(api.store) ==> (err.Some? <==> fate.Some? && Complained(fate.value))
  {
    err, fate := None, None;
    t := api.Now();
    if t - todo[0].created > api.chk.timeout {
      ghost var n := api.calls;
      err := api.Delete(todo[0].key);
      fate := Some(api.faults(n, Deleting));
      if err == Some(NotFound) {
        err := None;
      }
    }
    ResumeBelongs(api.chk, GcDelete(kind, todo), Status(None));
  }

  // Where collection stands after the items done, starting from st.
  ghost predicate Progress(c: Checker, st: Objects, now: Objects, done: seq<Item>, seen: map<Key, nat>,
                           fates: map<Key, Fault>, errs: seq<GcError>)
  {
    && seen.Keys == KeysOf(done)
    && fates.Keys == OverAge(c, st, seen)
    && now == st - Gone(fates)
    && ErrorKeys(errs) == Failing(fates)
    && forall n | 0 <= n < |errs| :: errs[n].DeleteFailed?
  }

  // Of the objects looked at, those over age at that time.
  ghost function OverAge(c: Checker, st: Objects, seen: map<Key, nat>): set<Key>
  {
    set k | k in seen && k in st && seen[k] - st[k].created > c.timeout
  }

  ghost function Gone(fates: map<Key, Fault>): set<Key>
  {
    set k | k in fates && Effective(fates[k])
  }

  ghost function Failing(fates: map<Key, Fault>): set<Key>
  {
    set k | k in fates && Complained(fates[k])
  }

  ghost function ErrorKeys(errs: seq<GcError>): set<Key>
  {
    set n | 0 <= n < |errs| && errs[n].DeleteFailed? :: errs[n].key
  }

  lemma ErrorKeysSnoc(errs: seq<GcError>, k: Key, e: Error)
    ensures ErrorKeys(errs + [DeleteFailed(k, e)]) == ErrorKeys(errs) + {k}
  {
    var errs' := errs + [DeleteFailed(k, e)];
    forall x | x in ErrorKeys(errs) + {k} ensures x in ErrorKeys(errs') {
      if x == k {
        assert errs'[|errs|].key == x;
      } else {
        var n :| 0 <= n < |errs| && errs[n].DeleteFailed? && errs[n].key == x;
        assert errs'[n].key == x;
      }
    }
  }

  lemma OverAgeStep(c: Checker, st: Objects, seen: map<Key, nat>, k: Key, t: nat)
    requires k !in seen && k in st
    ensures OverAge(c, st, seen[k := t]) == OverAge(c, st, seen) + if t - st[k].created > c.timeout then {k} else {}
  {
  }

  lemma FatesStep(fates: map<Key, Fault>, k: Key, fate: Fault)
    requires k !in fates
    ensures Gone(fates[k := fate]) == Gone(fates) + if Effective(fate) then {k} else {}
    ensures Failing(fates[k := fate]) == Failing(fates) + if Complained(fate) then {k} else {}
  {
  }

  lemma ProgressStart(c: Checker, st: Objects)
    ensures Progress(c, st, st, [], map[], map[], [])
  {
  }

  // One more item, never seen before, was looked at.
  lemma ProgressStep(c: Checker, st: Objects, now: Objects, now': Objects, done: seq<Item>, item: Item,
                     seen: map<Key, nat>, fates: map<Key, Fault>, errs: seq<GcError>,
                     t: nat, fate: Option<Fault>, err: Option<Error>)
    requires Progress(c, st, now, done, seen, fates, errs)
    requires item.key !in KeysOf(done) && item.key in st && item.created == st[item.key].created
    requires fate.Some? <==> t - item.created > c.timeout
    requires now' == if fate.Some? && Effective(fate.value) then now - {item.key} else now
    requires err.Some? <==> fate.Some? && Complained(fate.value)
    ensures Progress(c, st, now', done + [item], seen[item.key := t],
                     if fate.Some? then fates[item.key := fate.value] else fates,
                     if err.Some? then errs + [DeleteFailed(item.key, err.value)] else errs)
  {
    var k := item.key;
    KeysOfSnoc(done, item);
    assert k !in seen && k !in fates;
    OverAgeStep(c, st, seen, k, t);
    if fate.Some? {
      FatesStep(fates, k, fate.value);
    }
    if err.Some? {
      ErrorKeysSnoc(errs, k, err.value);
    }
  }

  // Clock readings and fates are those of calls lo..hi.
  ghost predicate Recorded(clock: nat -> nat, faults: (nat, Verb) -> Fault, lo: nat, hi: nat,
                           seen: map<Key, nat>, fates: map<Key, Fault>)
  {
    && (forall k | k in seen :: exists n | lo <= n < hi :: seen[k] == clock(n))
    && (forall k | k in fates :: exists n | lo <= n < hi :: fates[k] == faults(n, Deleting))
  }

  lemma RecordedStep(clock: nat -> nat, faults: (nat, Verb) -> Fault, lo: nat, mid: nat, hi: nat,
                     seen: map<Key, nat>, fates: map<Key, Fault>, k: Key, fate: Option<Fault>)
    requires Recorded(clock, faults, lo, mid, seen, fates) && lo <= mid < hi
    requires fate.Some? ==> hi == mid + 2 && fate.value == faults(mid + 1, Deleting)
    ensures Recorded(clock, faults, lo, hi, seen[k := clock(mid)], if fate.Some? then fates[k := fate.value] else fates)
  {
  }

  // What has not been looked at is still in the store.
  lemma StillThere(st: Objects, now: Objects, items: seq<Item>, i: nat, seen: map<Key, nat>, fates: map<Key, Fault>,
                   matching: set<Key>, c: Checker, errs: seq<GcError>)
    requires matching <= st.Keys && Lists(items, st, matching) && i < |items|
    requires Progress(c, st, now, items[..i], seen, fates, errs)
    requires items[i].key !in KeysOf(items[..i])
    ensures items[i].key in now && items[i].key in st && items[i].created == st[items[i].key].created
  {
  }

  // Collection has got to item i of the list it read in store st; its calls since then are those from lo.
  ghost predicate Underway(api: Client, kind: Kind, items: seq<Item>, i: nat, st: Objects, lo: nat,
                           errs: seq<GcError>, seen: map<Key, nat>, fates: map<Key, Fault>)
    reads api
  {
    && i <= |items| && api.Traced() && api.pc == GcNext(api.chk, kind, items[i..]) && Belongs(api.chk, api.pc)
    && lo <= api.calls && Recorded(api.clock, api.faults, lo, api.calls, seen, fates)
    && (Listed(api, items, st) ==> Progress(api.chk, st, api.store, items[..i], seen, fates, errs))
  }

  // Undisturbed, and the items are a list read in store st.
  ghost predicate Listed(api: Client, items: seq<Item>, st: Objects)
  {
    api.Quiet() && KeysOf(items) <= st.Keys && Lists(items, st, KeysOf(items))
  }

  lemma UnderwayStart(api: Client, kind: Kind, items: seq<Item>)
    requires api.Traced() && api.pc == GcNext(api.chk, kind, items) && Belongs(api.chk, api.pc)
    ensures Underway(api, kind, items, 0, api.store, api.calls, [], map[], map[])
  {
    assert items[0..] == items && items[..0] == [];
    ProgressStart(api.chk, api.store);
  }

  lemma ProgressNext(api: Client, items: seq<Item>, i: nat, st: Objects, now: Objects, now': Objects,
                     seen: map<Key, nat>, fates: map<Key, Fault>, errs: seq<GcError>,
                     t: nat, fate: Option<Fault>, err: Option<Error>)
    requires i < |items| && KeysOf(items) <= st.Keys && Lists(items, st, KeysOf(items))
    requires Progress(api.chk, st, now, items[..i], seen, fates, errs)
    requires fate.Some? <==> t - items[i].created > api.chk.timeout
    requires now' == if fate.Some? && Effective(fate.value) then now - {items[i].key} else now
    requires items[i].key in now ==> (err.Some? <==> fate.Some? && Complained(fate.value))
    ensures Progress(api.chk, st, now', items[..i + 1], seen[items[i].key := t],
                     if fate.Some? then fates[items[i].key := fate.value] else fates,
                     if err.Some? then errs + [DeleteFailed(items[i].key, err.value)] else errs)
  {
    NoRepeats(items, i);
    StillThere(st, now, items, i, seen, fates, KeysOf(items), api.chk, errs);
    ProgressStep(api.chk, st, now, now', items[..i], items[i], seen, fates, errs, t, fate, err);
    assert items[..i + 1] == items[..i] + [items[i]];
  }

  // Item i of the list, with the bookkeeping for all before it.
  method CollectNext(api: Client, kind: Kind, items: seq<Item>, i: nat, errs0: seq<GcError>,
                     ghost st: Objects, ghost lo: nat, ghost seen0: map<Key, nat>, ghost fates0: map<Key, Fault>)
      returns (errs: seq<GcError>, ghost seen: map<Key, nat>, ghost fates: map<Key, Fault>)
    requires api.gran > 0 && i < |items| && !kind.NodePool?
    requires Underway(api, kind, items, i, st, lo, errs0, seen0, fates0)
    modifies api
    ensures Underway(api, kind, items, i + 1, st, lo, errs, seen, fates)
  {
    ghost var now, mid := api.store, api.calls;
    var item := items[i];
    assert items[i..][0] == item && items[i..][1..] == items[i + 1..];
    var t, err, fate := CollectItem(api, kind, items[i..]);
    errs := if err.Some? then errs0 + [DeleteFailed(item.key, err.value)] else errs0;
    fates := if fate.Some? then fates0[item.key := fate.value] else fates0;
    seen := seen0[item.key := t];
    RecordedStep(api.clock, api.faults, lo, mid, api.calls, seen0, fates0, item.key, fate);
    if Listed(api, items, st) {
      ProgressNext(api, items, i, st, now, api.store, seen0, fates0, errs0, t, fate, err);
    }
  }

  // Works through the listed items.
  method CollectItems(api: Client, kind: Kind, items: seq<Item>)
      returns (errs: seq<GcError>, ghost seen: map<Key, nat>, ghost fates: map<Key, Fault>)
    requires api.gran > 0 && !kind.NodePool? && api.pc == GcNext(api.chk, kind, items) && Belongs(api.chk, api.pc)
    requires api.Traced()
    modifies api
    ensures Underway(api, kind, items, |items|, old(api.store), old(api.calls), errs, seen, fates)
  {
    errs, seen, fates := [], map[], map[];
    ghost var st, lo := api.store, api.calls;
    UnderwayStart(api, kind, items);
    for i := 0 to |items|
      invariant Underway(api, kind, items, i, st, lo, errs, seen, fates)
    {
      errs, seen, fates := CollectNext(api, kind, items, i, errs, st, lo, seen, fates);
    }
  }

  // Garbage-collects the kind. `seen` is the clock reading each listed object's age was taken at,
  // `fates` what became of each delete. Undisturbed, of the selected objects exactly those over age
  // go, but for those whose delete failed; one failure does not stop the rest; the errors are that
  // of the list, or those of deletes not answered NotFound.
  method CollectGarbage(api: Client, kind: Kind)
      returns (listErr: Option<Error>, errs: seq<GcError>, ghost seen: map<Key, nat>, ghost fates: map<Key, Fault>)
    requires api.gran > 0 && Belongs(api.chk, api.pc) && api.pc == GcList(kind) && !kind.NodePool?
    requires api.Traced()
    modifies api
    ensures api.Traced()
    ensures api.pc == AfterGc(api.chk, kind) && Belongs(api.chk, api.pc)
    ensures listErr.Some? <==>
              api.faults(old(api.calls), Listing).Fails? || api.faults(old(api.calls), Listing).LosesReply?
    ensures listErr.Some? ==> errs == [ListFailed(listErr.value)] && (api.Quiet() ==> api.store == old(api.store))
    ensures api.Quiet() && listErr.None? ==>
              var st := old(api.store);
              && seen.Keys == Matching(st, kind, Scope(api.chk, kind), OwnSelector(api.chk))
              && fates.Keys == OverAge(api.chk, st, seen)
              && api.store == st - Gone(fates)
              && ErrorKeys(errs) == Failing(fates)
              && (errs == [] <==> Failing(fates) == {})
    ensures old(api.calls) <= api.calls && Recorded(api.clock, api.faults, old(api.calls), api.calls, seen, fates)
  {
    listErr, errs, seen, fates := None, [], map[], map[];
    ghost var st := api.store;
    var reply := api.List(kind, Scope(api.chk, kind), OwnSelector(api.chk));
    ResumeBelongs(api.chk, GcList(kind), reply);
    if reply.Status? {
      listErr := reply.err;
      errs := [ListFailed(listErr.value)];
      return;
    }
    errs, seen, fates := CollectItems(api, kind, reply.items);
    assert reply.items[..|reply.items|] == reply.items && reply.items[|reply.items|..] == [];
    if api.Quiet() {
      NoErrors(errs);
    }
  }

  lemma NoErrors(errs: seq<GcError>)
    ensures ErrorKeys(errs) == {} && (forall n | 0 <= n < |errs| :: errs[n].DeleteFailed?) <==> errs == []
  {
    if errs != [] && errs[0].DeleteFailed? {
      assert errs[0].key in ErrorKeys(errs);
    }
  }
}
