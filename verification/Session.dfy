// One checker run's conversation with the cluster. The store is shared: before every call other
// writers may change it. Each call is one step of the protocol.
module Session {
  import opened Results
  import opened Cluster
  import opened Protocol

  datatype Verb = Listing | Creating | Deleting | Reading

  // Where a run that started at `from` is after its first n calls.
  ghost function PcAt(trace: seq<Step>, from: Pc, n: nat): Pc
    requires n <= |trace|
  {
    if n == 0 then from else trace[n - 1].after
  }

  ghost predicate StepAt(c: Checker, gran: nat, trace: seq<Step>, from: Pc, to: Pc, n: nat)
    requires n <= |trace|
  {
    if n == |trace| then PcAt(trace, from, n) == to else
    var s := trace[n];
    && s.before == PcAt(trace, from, n)
    && CallStep(c, gran, s)
  }

  // The calls lead through the protocol from one program point to another.
  ghost predicate Path(c: Checker, gran: nat, trace: seq<Step>, from: Pc, to: Pc)
  {
    forall n {:trigger StepAt(c, gran, trace, from, to, n)} | 0 <= n <= |trace| :: StepAt(c, gran, trace, from, to, n)
  }

  lemma PathSnoc(c: Checker, gran: nat, trace: seq<Step>, from: Pc, s: Step)
    requires Path(c, gran, trace, from, s.before)
    requires CallStep(c, gran, s)
    ensures Path(c, gran, trace + [s], from, s.after)
  {
    var trace' := trace + [s];
    forall n | 0 <= n <= |trace'| ensures StepAt(c, gran, trace', from, s.after, n) {
      if n <= |trace| {
        assert StepAt(c, gran, trace, from, s.before, n);
        assert PcAt(trace', from, n) == PcAt(trace, from, n);
      }
    }
  }

  // What the n calls so far left.
  ghost function StoreAt(trace: seq<Step>, initial: Objects, n: nat): Objects
    requires n <= |trace|
  {
    if n == 0 then initial else trace[n - 1].st'
  }

  ghost predicate MadeAt(initial: Objects, clock: nat -> nat, faults: (nat, Verb) -> Fault,
                          others: (nat, Objects) -> Objects,
                          trace: seq<Step>, store: Objects, n: nat)
    requires n <= |trace|
  {
    if n == |trace| then StoreAt(trace, initial, n) == store else
    && trace[n].st == others(n, StoreAt(trace, initial, n))
    && trace[n].at == clock(n)
    && exists verb :: trace[n].fault == faults(n, verb)
  }

  // The calls were made at these times, with these faults, amid these disturbances.
  ghost predicate Account(initial: Objects, clock: nat -> nat, faults: (nat, Verb) -> Fault,
                          others: (nat, Objects) -> Objects,
                          trace: seq<Step>, store: Objects)
  {
    forall n {:trigger MadeAt(initial, clock, faults, others, trace, store, n)} | 0 <= n <= |trace| ::
      MadeAt(initial, clock, faults, others, trace, store, n)
  }

  lemma AccountSnoc(initial: Objects, clock: nat -> nat, faults: (nat, Verb) -> Fault,
                          others: (nat, Objects) -> Objects,
                    trace: seq<Step>, store: Objects, s: Step, verb: Verb)
    requires Account(initial, clock, faults, others, trace, store)
    requires s.st == others(|trace|, store) && s.at == clock(|trace|) && s.fault == faults(|trace|, verb)
    ensures Account(initial, clock, faults, others, trace + [s], s.st')
  {
    var trace' := trace + [s];
    forall n | 0 <= n <= |trace'| ensures MadeAt(initial, clock, faults, others, trace', s.st', n) {
      if n <= |trace| {
        assert MadeAt(initial, clock, faults, others, trace, store, n);
        assert StoreAt(trace', initial, n) == StoreAt(trace, initial, n);
      }
    }
  }

  class Client {
    const chk: Checker
    const gran: nat
    // The world at call number n.
    const clock: nat -> nat
    const faults: (nat, Verb) -> Fault
    const others: (nat, Objects) -> Objects

    const initial: Objects

    var store: Objects
    var calls: nat
    ghost var pc: Pc
    ghost var trace: seq<Step>

    constructor (chk: Checker, gran: nat, clock: nat -> nat, faults: (nat, Verb) -> Fault,
                 others: (nat, Objects) -> Objects, store: Objects)
      requires gran > 0
      ensures this.chk == chk && this.gran == gran
      ensures this.clock == clock && this.faults == faults && this.others == others
      ensures initial == this.store == store && calls == 0 && pc == Start(chk) && Traced()
    {
      this.chk, this.gran, this.clock, this.faults, this.others := chk, gran, clock, faults, others;
      this.initial, this.store, calls, pc, trace := store, store, 0, Start(chk), [];
    }

    // The run so far follows the protocol from its start.
    ghost predicate Traced()
      reads this
    {
      && |trace| == calls
      && Path(chk, gran, trace, Start(chk), pc)
      && Account(initial, clock, faults, others, trace, store)
    }

    // Nobody else writes to the store.
    ghost predicate Quiet()
    {
      forall n, st :: others(n, st) == st
    }

    ghost predicate DeletesWork()
    {
      forall n :: faults(n, Deleting).Works?
    }

    // A create that reports failure has left nothing.
    ghost predicate CreatesHonest()
    {
      forall n :: !faults(n, Creating).LosesReply?
    }

    // The protocol step of call number n.
    ghost predicate Stepped(n: nat, before: Pc, st: Objects, verb: Verb, reply: Reply, st': Objects, after: Pc)
      requires gran > 0
    {
      CallStep(chk, gran,
               Step(before, others(n, st), clock(n), RoundedDown(clock(n), gran), faults(n, verb), reply, st', after))
    }

    // Call number `calls`, amid a disturbance from was to st, left the store as it is now.
    method Record(verb: Verb, reply: Reply, ghost was: Objects, ghost st: Objects)
      requires gran > 0 && |trace| == calls && Path(chk, gran, trace, Start(chk), pc)
      requires Account(initial, clock, faults, others, trace, was) && st == others(calls, was)
      requires Belongs(chk, pc) && Stepped(calls, pc, was, verb, reply, store, Resume(chk, pc, reply))
      modifies this`pc, this`trace, this`calls
      ensures Traced() && pc == Resume(chk, old(pc), reply) && calls == old(calls) + 1
    {
      ghost var s := Step(pc, st, clock(calls), RoundedDown(clock(calls), gran), faults(calls, verb), reply, store,
          Resume(chk, pc, reply));
      PathSnoc(chk, gran, trace, Start(chk), s);
      AccountSnoc(initial, clock, faults, others, trace, was, s, verb);
      pc, trace := s.after, trace + [s];
      calls := calls + 1;
    }

    method Now() returns (t: nat)
      requires gran > 0 && Belongs(chk, pc) && Want(chk, pc) == ReadClock
      requires Traced()
      modifies this
      ensures Traced()
      ensures calls == old(calls) + 1 && t == clock(old(calls))
      ensures Stepped(old(calls), old(pc), old(store), Reading, Time(t), store, pc)
    {
      ghost var was := store;
      store := others(calls, store);
      ghost var st := store;
      t := clock(calls);
      Record(Reading, Time(t), was, st);
    }

    method Items(matching: set<Key>) returns (items: seq<Item>)
      requires matching <= store.Keys
      ensures Lists(items, store, matching)
    {
      items := [];
      var rest := matching;
      while rest != {}
        invariant rest <= matching
        invariant KeysOf(items) == matching - rest && |items| + |rest| == |matching|
        invariant forall i | 0 <= i < |items| ::
                    items[i].key in matching && items[i].created == store[items[i].key].created
      {
        var k :| k in rest;
        ghost var was := items;
        items := items + [Item(k, store[k].created)];
        rest := rest - {k};
        KeysOfSnoc(was, Item(k, store[k].created));
      }
    }

    method List(kind: Kind, ns: string, sel: Selector) returns (r: Reply)
      requires gran > 0 && Belongs(chk, pc) && Want(chk, pc) == Request.List(kind, ns, sel)
      requires Traced()
      modifies this
      ensures Traced()
      ensures calls == old(calls) + 1 && (r.Items? || r.Status?)
      ensures Stepped(old(calls), old(pc), old(store), Listing, r, store, pc)
    {
      ghost var was := store;
      store := others(calls, store);
      ghost var st := store;
      match faults(calls, Listing) {
        case Fails(e) => r := Status(Some(e));
        case LosesReply(e) => r := Status(Some(e));
        case _ =>
          var items := Items(Matching(store, kind, ns, sel));
          r := Reply.Items(items);
      }
      Record(Listing, r, was, st);
    }

    method Create(k: Key, labels: map<string, string>, spec: Spec) returns (err: Option<Error>)
      requires gran > 0 && Belongs(chk, pc) && Want(chk, pc) == Request.Create(k, labels, spec)
      requires Traced()
      modifies this
      ensures Traced()
      ensures calls == old(calls) + 1
      ensures Stepped(old(calls), old(pc), old(store), Creating, Status(err), store, pc)
    {
      ghost var was := store;
      store := others(calls, store);
      ghost var st := store;
      var fault := faults(calls, Creating);
      err := match fault
        case Fails(e) => Some(e)
        case LosesReply(e) => Some(e)
        case _ => if k in store then Some(AlreadyExists) else None;
      if !fault.Fails? && k !in store {
        store := store[k := Object(labels, RoundedDown(clock(calls), gran), spec)];
      }
      Record(Creating, Status(err), was, st);
    }

    method Delete(k: Key) returns (err: Option<Error>)
      requires gran > 0 && Belongs(chk, pc) && Want(chk, pc) == Request.Delete(k)
      requires Traced()
      modifies this
      ensures Traced()
      ensures calls == old(calls) + 1
      ensures Stepped(old(calls), old(pc), old(store), Deleting, Status(err), store, pc)
    {
      ghost var was := store;
      store := others(calls, store);
      ghost var st := store;
      var fault := faults(calls, Deleting);
      err := match fault
        case Fails(e) => Some(e)
        case LosesReply(e) => Some(e)
        case _ => if k in store then None else Some(NotFound);
      if fault.Works? || fault.LosesReply? {
        store := store - {k};
      }
      Record(Deleting, Status(err), was, st);
    }

    // A read whose answer is only whether it succeeded.
    method Probe() returns (err: Option<Error>)
      requires gran > 0 && Belongs(chk, pc) && Want(chk, pc) == Request.Probe
      requires Traced()
      modifies this
      ensures Traced()
      ensures calls == old(calls) + 1
      ensures Stepped(old(calls), old(pc), old(store), Reading, Status(err), store, pc)
    {
      ghost var was := store;
      store := others(calls, store);
      ghost var st := store;
      err := match faults(calls, Reading)
        case Fails(e) => Some(e)
        case LosesReply(e) => Some(e)
        case _ => None;
      Record(Reading, Status(err), was, st);
    }

    // The reads that measure a started pod came to v.
    method Measured(v: Verdict)
      requires gran > 0 && Belongs(chk, pc) && Want(chk, pc) == Request.Measure && Measurable(v)
      requires Traced()
      modifies this
      ensures Traced()
      ensures calls == old(calls) + 1
      ensures Stepped(old(calls), old(pc), old(store), Reading, Seen(v), store, pc)
    {
      ghost var was := store;
      store := others(calls, store);
      ghost var st := store;
      Record(Reading, Seen(v), was, st);
    }
  }

  lemma KeysOfSnoc(items: seq<Item>, x: Item)
    ensures KeysOf(items + [x]) == KeysOf(items) + {x.key}
  {
    forall k | k in KeysOf(items) + {x.key} ensures k in KeysOf(items + [x]) {
      if k == x.key {
        assert (items + [x])[|items|].key == k;
      } else {
        var i :| 0 <= i < |items| && items[i].key == k;
        assert (items + [x])[i].key == k;
      }
    }
  }
}
