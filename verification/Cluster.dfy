// The cluster store and what one API call does to it.
module Cluster {
  import opened Results
  import opened Names

  datatype Option<+T> = None | Some(value: T)

  datatype Kind = Pod | Claim | StorageClass | ConfigMap | NodePool

  // Cluster-scoped kinds carry the empty namespace.
  datatype Key = Key(kind: Kind, ns: string, name: Name)

  // The pod volume "<csi>-volume", its mount, and a claim's storage class.
  datatype Volume = Volume(csi: CsiType, claim: Name)
  datatype Mount = Mount(csi: CsiType)
  datatype ClassRef = Builtin(csi: CsiType) | Custom(name: Name)

  datatype Spec =
    | PodSpec(volumes: seq<Volume>, mounts: seq<Mount>, nodeSelector: map<string, string>)
    | ClaimSpec(storageClass: ClassRef)
    | NoSpec

  datatype Object = Object(labels: map<string, string>, created: int, spec: Spec)

  type Objects = map<Key, Object>

  // labels.SelectorFromSet with one entry, or a bare key.
  datatype Selector = HasValue(key: string, value: string) | HasKey(key: string)

  predicate Selects(sel: Selector, labels: map<string, string>)
  {
    match sel
    case HasValue(key, value) => key in labels && labels[key] == value
    case HasKey(key) => key in labels
  }

  function Matching(st: Objects, kind: Kind, ns: string, sel: Selector): set<Key>
  {
    set k | k in st && k.kind == kind && k.ns == ns && Selects(sel, st[k].labels)
  }

  datatype Error = DeadlineExceeded | NotFound | AlreadyExists | Rejected

  // What the world does with one call: serve it, serve it but lose the answer, refuse it, or
  // (deletes only) acknowledge it while the object lingers.
  datatype Fault = Works | LosesReply(e: Error) | Fails(e: Error) | Lingers

  // The call was answered with an error of its own.
  predicate Refused(fate: Fault)
  {
    fate.Fails? || fate.LosesReply?
  }

  // The delete took the object away.
  predicate Effective(fate: Fault)
  {
    fate.Works? || fate.LosesReply?
  }

  // The delete of a present object came back with an error other than NotFound.
  predicate Complained(fate: Fault)
  {
    Refused(fate) && fate.e != NotFound
  }

  datatype Item = Item(key: Key, created: int)

  function KeysOf(items: seq<Item>): set<Key>
  {
    set i | 0 <= i < |items| :: items[i].key
  }

  datatype Request =
    | ReadClock
    | List(kind: Kind, ns: string, sel: Selector)
    | Create(key: Key, labels: map<string, string>, spec: Spec)
    | Delete(key: Key)
    | Probe
    | Measure
    | Nothing

  datatype Reply =
    | Time(t: nat)
    | Items(items: seq<Item>)
    | Status(err: Option<Error>)
    | Seen(v: Verdict)

  predicate Lists(items: seq<Item>, st: Objects, matching: set<Key>)
    requires matching <= st.Keys
  {
    && KeysOf(items) == matching
    && |items| == |matching|
    && forall i | 0 <= i < |items| :: items[i].key in matching && items[i].created == st[items[i].key].created
  }

  // Times as the API prints them, in whole units.
  function RoundedDown(t: nat, unit: nat): (r: nat)
    requires unit > 0
    ensures t - unit < r <= t
  {
    if t < unit then 0 else unit + RoundedDown(t - unit, unit)
  }

  lemma {:induction false} RoundedDownIsMultiple(t: nat, unit: nat) returns (n: nat)
    requires unit > 0
    ensures RoundedDown(t, unit) == n * unit
  {
    if t < unit {
      n := 0;
    } else {
      var m := RoundedDownIsMultiple(t - unit, unit);
      n := m + 1;
    }
  }

  // One call: `at` is when it takes effect, `stamp` the creation timestamp a created object gets,
  // truncated by less than `gran`.
  ghost predicate Serves(gran: nat, st: Objects, req: Request, at: nat, stamp: int, fault: Fault,
                         reply: Reply, st': Objects)
  {
    match req
    case ReadClock => st' == st && reply == Time(at)
    case List(kind, ns, sel) =>
      && st' == st
      && (match fault
          case Fails(e) => reply == Status(Some(e))
          case LosesReply(e) => reply == Status(Some(e))
          case _ => reply.Items? && Lists(reply.items, st, Matching(st, kind, ns, sel)))
    case Create(k, labels, spec) =>
      && at - gran < stamp <= at
      && st' == (if fault.Fails? || k in st then st else st[k := Object(labels, stamp, spec)])
      && reply == Status(match fault
                         case Fails(e) => Some(e)
                         case LosesReply(e) => Some(e)
                         case _ => if k in st then Some(AlreadyExists) else None)
    case Delete(k) =>
      && st' == (if fault.Works? || fault.LosesReply? then st - {k} else st)
      && reply == Status(match fault
                         case Fails(e) => Some(e)
                         case LosesReply(e) => Some(e)
                         case _ => if k in st then None else Some(NotFound))
    case Probe =>
      && st' == st
      && reply == Status(match fault
                         case Fails(e) => Some(e)
                         case LosesReply(e) => Some(e)
                         case _ => None)
    case Measure => st' == st && reply.Seen? && Measurable(reply.v)
    case Nothing => false
  }

  // The only object a call can add or change is the one it creates.
  lemma ServesFrame(gran: nat, st: Objects, req: Request, at: nat, stamp: int, fault: Fault, reply: Reply, st': Objects)
    requires Serves(gran, st, req, at, stamp, fault, reply, st')
    ensures forall k | k in st' ::
              (k in st && st'[k] == st[k]) || (req.Create? && k == req.key && st'[k].labels == req.labels)
    ensures forall k | k in st && k !in st' :: req == Delete(k)
    ensures fault.Fails? ==> st' == st
  {
  }

  lemma KeysOfCons(items: seq<Item>)
    requires items != []
    ensures KeysOf(items) == {items[0].key} + KeysOf(items[1..])
  {
    forall k | k in KeysOf(items) ensures k in {items[0].key} + KeysOf(items[1..]) {
      var n :| 0 <= n < |items| && items[n].key == k;
      if n > 0 {
        assert items[1..][n - 1].key == k;
      }
    }
    forall k | k in KeysOf(items[1..]) ensures k in KeysOf(items) {
      var n :| 0 <= n < |items| - 1 && items[1..][n].key == k;
      assert items[n + 1].key == k;
    }
  }
}
