// The DNS checker: nested walks over endpoints that stop early, against one flat list of addresses.
module Dns {
  import opened Results
  import opened Cluster
  import opened Config
  import opened Metrics

  // `ready` may be unset, which counts as ready; `pod` is the name of the endpoint's target.
  datatype Endpoint = Endpoint(ready: Option<bool>, addresses: seq<string>, pod: Option<string>)

  // What a query of an address comes to, by its number in the run: asked again, an address may answer otherwise.
  type Lookup = (nat, string) -> Option<Error>

  // What the cluster answers during one run. A clusterIP of None models both empty and headless ones.
  datatype Answers = Answers(service: Option<Error>, clusterIP: Option<string>,
                             slicesErr: Option<Error>, slices: seq<seq<Endpoint>>, lookup: Lookup)

  const LOCAL_DNS_IP: string := "169.254.10.11"

  // ---- The flat view ----

  predicate Counts(e: Endpoint)
  {
    e.ready != Some(false)
  }

  function ReadyIn(slice: seq<Endpoint>): seq<Endpoint>
  {
    if slice == [] then [] else (if Counts(slice[0]) then [slice[0]] else []) + ReadyIn(slice[1..])
  }

  function ReadyOf(slices: seq<seq<Endpoint>>): seq<Endpoint>
  {
    if slices == [] then [] else ReadyIn(slices[0]) + ReadyOf(slices[1..])
  }

  function AddressesOf(endpoints: seq<Endpoint>): seq<string>
  {
    if endpoints == [] then [] else endpoints[0].addresses + AddressesOf(endpoints[1..])
  }

  // The error of the first address that does not resolve, the first query being number n.
  function FirstFailure(lookup: Lookup, n: nat, addresses: seq<string>): Option<Error>
    decreases addresses
  {
    if addresses == [] then None
    else if lookup(n, addresses[0]).Some? then lookup(n, addresses[0])
    else FirstFailure(lookup, n + 1, addresses[1..])
  }

  // How many queries it takes to find it, or that there is none.
  function Queries(lookup: Lookup, n: nat, addresses: seq<string>): nat
    decreases addresses
  {
    if addresses == [] then 0
    else if lookup(n, addresses[0]).Some? then 1
    else 1 + Queries(lookup, n + 1, addresses[1..])
  }

  lemma {:induction false} NoFailure(lookup: Lookup, n: nat, addresses: seq<string>)
    ensures FirstFailure(lookup, n, addresses).None? <==>
              forall m | 0 <= m < |addresses| :: lookup(n + m, addresses[m]).None?
    ensures FirstFailure(lookup, n, addresses).None? ==> Queries(lookup, n, addresses) == |addresses|
    decreases addresses
  {
    if addresses != [] {
      NoFailure(lookup, n + 1, addresses[1..]);
      assert forall m | 0 < m < |addresses| ::
        lookup(n + m, addresses[m]) == lookup(n + 1 + (m - 1), addresses[1..][m - 1]);
    }
  }

  lemma {:induction false} FirstFailureAppend(lookup: Lookup, n: nat, a: seq<string>, b: seq<string>)
    ensures FirstFailure(lookup, n, a + b) ==
            if FirstFailure(lookup, n, a).Some? then FirstFailure(lookup, n, a) else FirstFailure(lookup, n + |a|, b)
    decreases a
  {
    if a == [] {
      assert a + b == b;
    } else {
      assert (a + b)[1..] == a[1..] + b;
      FirstFailureAppend(lookup, n + 1, a[1..], b);
    }
  }

  // ---- Endpoints ----

  datatype Endpoints = Found(endpoints: seq<Endpoint>) | NotReady | Unlisted

  // An endpoint by its slice and its position there.
  datatype Place = Place(slice: nat, pos: nat)

  predicate Earlier(p: Place, q: Place)
  {
    p.slice < q.slice || (p.slice == q.slice && p.pos < q.pos)
  }

  predicate ReadyAt(slices: seq<seq<Endpoint>>, p: Place)
  {
    p.slice < |slices| && p.pos < |slices[p.slice]| && slices[p.slice][p.pos].ready != Some(false)
  }

  // The endpoints at the picked places, which are all those before `end` not marked unready, in order.
  ghost predicate Gathers(slices: seq<seq<Endpoint>>, end: Place, endpoints: seq<Endpoint>, picked: seq<Place>)
  {
    && |picked| == |endpoints|
    && (forall m | 0 <= m < |picked| ::
          && ReadyAt(slices, picked[m]) && Earlier(picked[m], end)
          && endpoints[m] == slices[picked[m].slice][picked[m].pos])
    && (forall m, n | 0 <= m < n < |picked| :: Earlier(picked[m], picked[n]))
    && (forall p | ReadyAt(slices, p) && Earlier(p, end) :: p in picked)
  }

  ghost predicate Gathered(slices: seq<seq<Endpoint>>, endpoints: seq<Endpoint>)
  {
    exists picked :: Gathers(slices, Place(|slices|, 0), endpoints, picked)
  }

  lemma GathersStep(slices: seq<seq<Endpoint>>, p: Place, endpoints: seq<Endpoint>, picked: seq<Place>)
    requires p.slice < |slices| && p.pos < |slices[p.slice]| && Gathers(slices, p, endpoints, picked)
    ensures ReadyAt(slices, p) ==>
              Gathers(slices, Place(p.slice, p.pos + 1), endpoints + [slices[p.slice][p.pos]], picked + [p])
    ensures !ReadyAt(slices, p) ==> Gathers(slices, Place(p.slice, p.pos + 1), endpoints, picked)
  {
  }

  lemma GathersSlice(slices: seq<seq<Endpoint>>, i: nat, endpoints: seq<Endpoint>, picked: seq<Place>)
    requires i < |slices| && Gathers(slices, Place(i, |slices[i]|), endpoints, picked)
    ensures Gathers(slices, Place(i + 1, 0), endpoints, picked)
  {
  }

  // The endpoints of slice i, after those of all before it.
  method CollectReady(slices: seq<seq<Endpoint>>, i: nat, endpoints0: seq<Endpoint>, ghost picked0: seq<Place>)
      returns (endpoints: seq<Endpoint>, ghost picked: seq<Place>)
    requires i < |slices| && Gathers(slices, Place(i, 0), endpoints0, picked0)
    ensures Gathers(slices, Place(i + 1, 0), endpoints, picked)
    ensures endpoints == endpoints0 + ReadyIn(slices[i])
  {
    var slice := slices[i];
    endpoints, picked := endpoints0, picked0;
    for n := 0 to |slice|
      invariant endpoints + ReadyIn(slice[n..]) == endpoints0 + ReadyIn(slice)
      invariant Gathers(slices, Place(i, n), endpoints, picked)
    {
      assert slice[n..][1..] == slice[n + 1..];
      GathersStep(slices, Place(i, n), endpoints, picked);
      if slice[n].ready != Some(false) {
        endpoints, picked := endpoints + [slice[n]], picked + [Place(i, n)];
      }
    }
    GathersSlice(slices, i, endpoints, picked);
  }

  lemma GathersNothing(slices: seq<seq<Endpoint>>)
    ensures Gathers(slices, Place(0, 0), [], [])
  {
  }

  method CollectAll(slices: seq<seq<Endpoint>>) returns (endpoints: seq<Endpoint>)
    ensures Gathered(slices, endpoints) && endpoints == ReadyOf(slices)
  {
    endpoints := [];
    ghost var picked := [];
    GathersNothing(slices);
    for n := 0 to |slices|
      invariant Gathers(slices, Place(n, 0), endpoints, picked)
      invariant endpoints + ReadyOf(slices[n..]) == ReadyOf(slices)
    {
      assert slices[n..][1..] == slices[n + 1..];
      endpoints, picked := CollectReady(slices, n, endpoints, picked);
    }
  }

  method GetCoreDnsEndpoints(a: Answers) returns (r: Endpoints)
    ensures r.Unlisted? <==> a.slicesErr.Some? && a.slicesErr != Some(NotFound)
    ensures a.slicesErr == Some(NotFound) ==> r.NotReady?
    ensures r.Found? ==> r.endpoints != [] && Gathered(a.slices, r.endpoints)
    ensures r.NotReady? && a.slicesErr.None? ==> Gathered(a.slices, [])
    ensures a.slicesErr.None? ==> r == if ReadyOf(a.slices) == [] then NotReady else Found(ReadyOf(a.slices))
  {
    if a.slicesErr == Some(NotFound) {
      return NotReady;
    }
    if a.slicesErr.Some? {
      return Unlisted;
    }
    var endpoints := CollectAll(a.slices);
    return if endpoints == [] then NotReady else Found(endpoints);
  }

  // Querying these addresses in turn, the first query being number `first`, ends before number `next` with err:
  // at the first that does not resolve, if any.
  ghost predicate QueriedTo(lookup: Lookup, first: nat, addresses: seq<string>, err: Option<Error>, next: nat)
  {
    && first <= next <= first + |addresses|
    && (err.None? ==>
          && next == first + |addresses|
          && forall l: nat | l < |addresses| :: lookup(first + l, addresses[l]).None?)
    && (err.Some? ==>
          && first < next
          && lookup(next - 1, addresses[next - 1 - first]) == err
          && forall l: nat | l < next - 1 - first :: lookup(first + l, addresses[l]).None?)
  }

  // The addresses of one endpoint, up to the first that does not resolve. `asked` counts the queries.
  method QueryEndpoint(a: Answers, asked0: nat, e: Endpoint) returns (err: Option<Error>, asked: nat)
    ensures QueriedTo(a.lookup, asked0, e.addresses, err, asked)
    ensures err == FirstFailure(a.lookup, asked0, e.addresses)
    ensures asked == asked0 + Queries(a.lookup, asked0, e.addresses)
  {
    asked := asked0;
    for n := 0 to |e.addresses|
      invariant asked == asked0 + n
      invariant forall l: nat | l < n :: a.lookup(asked0 + l, e.addresses[l]).None?
      invariant FirstFailure(a.lookup, asked, e.addresses[n..]) == FirstFailure(a.lookup, asked0, e.addresses)
      invariant n + Queries(a.lookup, asked, e.addresses[n..]) == Queries(a.lookup, asked0, e.addresses)
    {
      err := a.lookup(asked, e.addresses[n]);
      asked := asked + 1;
      if err.Some? {
        return;
      }
    }
    err := None;
  }

  // ---- Service and pods ----

  predicate ServiceResolves(a: Answers)
  {
    a.service.None? && a.clusterIP.Some? && a.lookup(0, a.clusterIP.value).None?
  }

  // What is reported when the service does not resolve.
  function ServiceFailure(a: Answers): Verdict
    requires !ServiceResolves(a)
  {
    if a.service == Some(NotFound) || (a.service.None? && a.clusterIP.None?) then Unhealthy(ServiceNotReady)
    else if a.service.Some? then Failed(ServiceLookup)
    else if a.lookup(0, a.clusterIP.value).value.DeadlineExceeded? then Unhealthy(ServiceTimeout)
    else Unhealthy(ServiceError)
  }

  // The verdict in terms of the flat list of addresses.
  function AddressesVerdict(lookup: Lookup, addresses: seq<string>): Verdict
  {
    match FirstFailure(lookup, 1, addresses)
    case None => Healthy
    case Some(e) => Unhealthy(if e.DeadlineExceeded? then PodTimeout else PodError)
  }

  function CoreDnsVerdict(a: Answers): Verdict
  {
    if !ServiceResolves(a) then ServiceFailure(a)
    else if a.slicesErr.Some? && a.slicesErr != Some(NotFound) then Failed(EndpointList)
    else if a.slicesErr.Some? || ReadyOf(a.slices) == [] then Unhealthy(PodsNotReady)
    else AddressesVerdict(a.lookup, AddressesOf(ReadyOf(a.slices)))
  }

  // ---- The same, answer by answer ----

  // The number of the first query of endpoint k, after that of the service.
  function FirstQuery(endpoints: seq<Endpoint>, k: nat): nat
    requires k <= |endpoints|
  {
    if k == 0 then 1 else FirstQuery(endpoints, k - 1) + |endpoints[k - 1].addresses|
  }

  function AnswerAt(lookup: Lookup, endpoints: seq<Endpoint>, k: nat, l: nat): Option<Error>
    requires k < |endpoints| && l < |endpoints[k].addresses|
  {
    lookup(FirstQuery(endpoints, k) + l, endpoints[k].addresses[l])
  }

  ghost predicate AllResolve(lookup: Lookup, endpoints: seq<Endpoint>, n: nat)
    requires n <= |endpoints|
  {
    forall k: nat, l: nat | k < n && l < |endpoints[k].addresses| :: AnswerAt(lookup, endpoints, k, l).None?
  }

  // Address l of endpoint k is the first that does not resolve.
  ghost predicate FailsAt(lookup: Lookup, endpoints: seq<Endpoint>, k: nat, l: nat)
  {
    && k < |endpoints| && l < |endpoints[k].addresses|
    && AnswerAt(lookup, endpoints, k, l).Some? && AllResolve(lookup, endpoints, k)
    && forall m: nat | m < l :: AnswerAt(lookup, endpoints, k, m).None?
  }

  // Healthy if every address of every endpoint resolves, else by what the first that does not was answered.
  ghost predicate AddressesConclude(lookup: Lookup, endpoints: seq<Endpoint>, v: Verdict)
  {
    && (v == Healthy <==> AllResolve(lookup, endpoints, |endpoints|))
    && (v != Healthy ==>
          exists k: nat, l: nat ::
            && FailsAt(lookup, endpoints, k, l)
            && if AnswerAt(lookup, endpoints, k, l) == Some(DeadlineExceeded) then v == Unhealthy(PodTimeout)
               else v == Unhealthy(PodError))
  }

  ghost predicate PodsConclude(a: Answers, v: Verdict)
  {
    && (a.slicesErr == Some(NotFound) ==> v == Unhealthy(PodsNotReady))
    && (a.slicesErr.Some? && a.slicesErr != Some(NotFound) ==> v == Failed(EndpointList))
    && (a.slicesErr.None? ==>
          exists endpoints ::
            && Gathered(a.slices, endpoints)
            && if endpoints == [] then v == Unhealthy(PodsNotReady) else AddressesConclude(a.lookup, endpoints, v))
  }

  ghost predicate CoreDnsConcludes(a: Answers, v: Verdict)
  {
    && (a.service == Some(NotFound) ==> v == Unhealthy(ServiceNotReady))
    && (a.service.Some? && a.service != Some(NotFound) ==> v == Failed(ServiceLookup))
    && (a.service.None? && a.clusterIP.None? ==> v == Unhealthy(ServiceNotReady))
    && (a.service.None? && a.clusterIP.Some? ==>
          var answer := a.lookup(0, a.clusterIP.value);
          && (answer == Some(DeadlineExceeded) ==> v == Unhealthy(ServiceTimeout))
          && (answer.Some? && answer != Some(DeadlineExceeded) ==> v == Unhealthy(ServiceError))
          && (answer.None? ==> PodsConclude(a, v)))
  }

  method CheckService(a: Answers) returns (v: Option<Verdict>)
    ensures v.None? <==> a.service.None? && a.clusterIP.Some? && a.lookup(0, a.clusterIP.value).None?
    ensures v.Some? ==> CoreDnsConcludes(a, v.value) && v.value == ServiceFailure(a)
  {
    if a.service == Some(NotFound) || (a.service.None? && a.clusterIP.None?) {
      return Some(Unhealthy(ServiceNotReady));
    }
    if a.service.Some? {
      return Some(Failed(ServiceLookup));
    }
    match a.lookup(0, a.clusterIP.value) {
      case Some(e) => return Some(Unhealthy(if e.DeadlineExceeded? then ServiceTimeout else ServiceError));
      case None => return None;
    }
  }

  // One more endpoint, all of whose addresses resolve.
  lemma AllResolveNext(lookup: Lookup, endpoints: seq<Endpoint>, n: nat, next: nat)
    requires n < |endpoints| && AllResolve(lookup, endpoints, n)
    requires QueriedTo(lookup, FirstQuery(endpoints, n), endpoints[n].addresses, None, next)
    ensures AllResolve(lookup, endpoints, n + 1) && next == FirstQuery(endpoints, n + 1)
  {
  }

  lemma FailsHere(lookup: Lookup, endpoints: seq<Endpoint>, n: nat, e: Error, next: nat) returns (l: nat)
    requires n < |endpoints| && AllResolve(lookup, endpoints, n)
    requires QueriedTo(lookup, FirstQuery(endpoints, n), endpoints[n].addresses, Some(e), next)
    ensures FailsAt(lookup, endpoints, n, l) && AnswerAt(lookup, endpoints, n, l) == Some(e)
  {
    l := next - 1 - FirstQuery(endpoints, n);
    forall m: nat | m < l ensures AnswerAt(lookup, endpoints, n, m).None? {
      assert lookup(FirstQuery(endpoints, n) + m, endpoints[n].addresses[m]).None?;
    }
  }

  lemma FailsThere(lookup: Lookup, endpoints: seq<Endpoint>, n: nat, e: Error, next: nat)
    requires n < |endpoints| && AllResolve(lookup, endpoints, n)
    requires QueriedTo(lookup, FirstQuery(endpoints, n), endpoints[n].addresses, Some(e), next)
    ensures AddressesConclude(lookup, endpoints, Unhealthy(if e.DeadlineExceeded? then PodTimeout else PodError))
  {
    var l := FailsHere(lookup, endpoints, n, e, next);
    assert !AllResolve(lookup, endpoints, |endpoints|);
  }

  // Queries every address of every endpoint, up to the first that does not resolve.
  method QueryAll(a: Answers, endpoints: seq<Endpoint>) returns (v: Verdict)
    ensures AddressesConclude(a.lookup, endpoints, v)
    ensures v == AddressesVerdict(a.lookup, AddressesOf(endpoints))
  {
    var asked := 1;
    for n := 0 to |endpoints|
      invariant FirstFailure(a.lookup, asked, AddressesOf(endpoints[n..]))
                == FirstFailure(a.lookup, 1, AddressesOf(endpoints))
      invariant asked == FirstQuery(endpoints, n) && AllResolve(a.lookup, endpoints, n)
    {
      assert endpoints[n..][1..] == endpoints[n + 1..];
      FirstFailureAppend(a.lookup, asked, endpoints[n].addresses, AddressesOf(endpoints[n + 1..]));
      var err, next := QueryEndpoint(a, asked, endpoints[n]);
      if err.Some? {
        FailsThere(a.lookup, endpoints, n, err.value, next);
        return Unhealthy(if err.value.DeadlineExceeded? then PodTimeout else PodError);
      }
      AllResolveNext(a.lookup, endpoints, n, next);
      asked := next;
    }
    return Healthy;
  }

  method CheckPods(a: Answers) returns (v: Verdict)
    requires ServiceResolves(a)
    ensures PodsConclude(a, v) && v == CoreDnsVerdict(a)
  {
    var r := GetCoreDnsEndpoints(a);
    match r {
      case NotReady => return Unhealthy(PodsNotReady);
      case Unlisted => return Failed(EndpointList);
      case Found(endpoints) => v := QueryAll(a, endpoints);
    }
  }

  // The service resolves, and so does every address of the non-empty list of ready endpoints.
  ghost predicate ResolvesWholly(a: Answers)
  {
    var addresses := AddressesOf(ReadyOf(a.slices));
    && a.service.None? && a.clusterIP.Some? && a.lookup(0, a.clusterIP.value).None?
    && a.slicesErr.None? && ReadyOf(a.slices) != []
    && forall n: nat | n < |addresses| :: a.lookup(1 + n, addresses[n]).None?
  }

  lemma HealthyWholly(a: Answers)
    ensures CoreDnsVerdict(a) == Healthy <==> ResolvesWholly(a)
  {
    NoFailure(a.lookup, 1, AddressesOf(ReadyOf(a.slices)));
  }

  // Healthy exactly when the service resolves and so does every address of the non-empty list of ready
  // endpoints; otherwise the first failure decides.
  method CheckCoreDns(a: Answers) returns (v: Verdict)
    ensures CoreDnsConcludes(a, v)
    ensures v == Healthy <==> ResolvesWholly(a)
    ensures v == CoreDnsVerdict(a)
  {
    HealthyWholly(a);
    var stop := CheckService(a);
    if stop.Some? {
      return stop.value;
    }
    v := CheckPods(a);
  }

  function LocalDnsVerdict(a: Answers): Verdict
  {
    match a.lookup(0, LOCAL_DNS_IP)
    case None => Healthy
    case Some(e) => Unhealthy(if e.DeadlineExceeded? then LocalDnsTimeout else LocalDnsError)
  }

  predicate LocalDnsConcludes(a: Answers, v: Verdict)
  {
    var answer := a.lookup(0, LOCAL_DNS_IP);
    && (v == Healthy <==> answer.None?)
    && (v == Unhealthy(LocalDnsTimeout) <==> answer == Some(DeadlineExceeded))
    && (v == Unhealthy(LocalDnsError) <==> answer.Some? && answer != Some(DeadlineExceeded))
  }

  method CheckLocalDns(a: Answers) returns (v: Verdict)
    ensures LocalDnsConcludes(a, v) && v == LocalDnsVerdict(a)
  {
    match a.lookup(0, LOCAL_DNS_IP) {
      case None => return Healthy;
      case Some(e) => return Unhealthy(if e.DeadlineExceeded? then LocalDnsTimeout else LocalDnsError);
    }
  }

  // ---- Pod by pod ----

  predicate Named(e: Endpoint)
  {
    e.pod.Some? && e.pod.value != []
  }

  // The result recorded for a named endpoint whose first query is number n.
  function PodVerdict(lookup: Lookup, n: nat, e: Endpoint): Verdict
  {
    match FirstFailure(lookup, n, e.addresses)
    case None => Healthy
    case Some(err) => if err.DeadlineExceeded? then Unhealthy(PodTimeout) else Failed(EndpointQuery)
  }

  // How many queries the named ones of a list of endpoints take.
  function Asked(lookup: Lookup, endpoints: seq<Endpoint>): nat
  {
    if endpoints == [] then 0 else
    var e, before := endpoints[|endpoints| - 1], Asked(lookup, endpoints[..|endpoints| - 1]);
    before + if Named(e) then Queries(lookup, before, e.addresses) else 0
  }

  // The pod series counted for a list of endpoints.
  function PodHistory(name: string, lookup: Lookup, endpoints: seq<Endpoint>): seq<Series>
  {
    if endpoints == [] then [] else
    var e, front := endpoints[|endpoints| - 1], endpoints[..|endpoints| - 1];
    var v := PodVerdict(lookup, Asked(lookup, front), e);
    PodHistory(name, lookup, front)
    + if Named(e) then [Series(DNS, name, e.pod.value, StatusOf(v), CodeOf(v))] else []
  }

  function NamedCount(endpoints: seq<Endpoint>): nat
  {
    if endpoints == [] then 0 else
    NamedCount(endpoints[..|endpoints| - 1]) + if Named(endpoints[|endpoints| - 1]) then 1 else 0
  }

  // One endpoint was queried from query `first` to before query `next`, and s is what it is counted as.
  ghost predicate PodCounted(name: string, lookup: Lookup, e: Endpoint, first: nat, next: nat, s: Series)
  {
    && e.pod.Some? && s.kind == DNS && s.name == name && s.pod == e.pod.value
    && exists err ::
         && QueriedTo(lookup, first, e.addresses, err, next)
         && (err.None? ==> s.status == HealthyStatus && s.code == HealthyCode)
         && (err == Some(DeadlineExceeded) ==> s.status == UnhealthyStatus && s.code == ErrorCode(PodTimeout))
         && (err.Some? && err != Some(DeadlineExceeded) ==> s.status == UnknownStatus && s.code == UnknownCode)
  }

  // Of the first n endpoints exactly those with a pod name were visited, in order, each queried from where the
  // one before it ended, and counted once.
  ghost predicate Visited(name: string, lookup: Lookup, endpoints: seq<Endpoint>, n: nat, h: seq<Series>,
                          visited: seq<nat>, starts: seq<nat>)
    requires n <= |endpoints|
  {
    && |h| == |visited| && |starts| == |h| + 1 && starts[0] == 0
    && (forall k: nat | k < n :: k in visited <==> endpoints[k].pod.Some? && endpoints[k].pod.value != [])
    && (forall m | 0 <= m < |visited| :: visited[m] < n)
    && (forall m, l | 0 <= m < l < |visited| :: visited[m] < visited[l])
    && (forall m | 0 <= m < |h| :: PodCounted(name, lookup, endpoints[visited[m]], starts[m], starts[m + 1], h[m]))
  }

  lemma VisitedNext(name: string, lookup: Lookup, endpoints: seq<Endpoint>, n: nat, h: seq<Series>, visited: seq<nat>,
                    starts: seq<nat>, next: nat, s: Series)
    requires n < |endpoints| && Visited(name, lookup, endpoints, n, h, visited, starts)
    ensures endpoints[n].pod.Some? && endpoints[n].pod.value != []
            && PodCounted(name, lookup, endpoints[n], starts[|h|], next, s) ==>
              Visited(name, lookup, endpoints, n + 1, h + [s], visited + [n], starts + [next])
    ensures endpoints[n].pod.None? || endpoints[n].pod.value == [] ==>
              Visited(name, lookup, endpoints, n + 1, h, visited, starts)
  {
  }

  ghost predicate CountedSo(name: string, a: Answers, endpoints: seq<Endpoint>, h: seq<Series>, visited: seq<nat>,
                            starts: seq<nat>)
  {
    Gathered(a.slices, endpoints) && Visited(name, a.lookup, endpoints, |endpoints|, h, visited, starts)
  }

  // What the check by pod adds to the counter, given the list of endpoints.
  ghost predicate PodsCounted(name: string, a: Answers, before: Counter, after: Counter)
  {
    && (a.slicesErr.Some? ==> after == before)
    && (a.slicesErr.None? ==>
          exists endpoints, h, visited, starts ::
            && CountedSo(name, a, endpoints, h, visited, starts) && after == IncAll(before, h))
  }

  // Queries one named endpoint and counts its result.
  method VisitPod(name: string, a: Answers, e: Endpoint, asked0: nat, counters: Counters)
      returns (asked: nat, ghost s: Series)
    requires Named(e)
    modifies counters`podResults
    ensures PodCounted(name, a.lookup, e, asked0, asked, s)
    ensures asked == asked0 + Queries(a.lookup, asked0, e.addresses)
    ensures var v := PodVerdict(a.lookup, asked0, e); s == Series(DNS, name, e.pod.value, StatusOf(v), CodeOf(v))
    ensures counters.podResults == Inc(old(counters.podResults), s)
  {
    var err;
    err, asked := QueryEndpoint(a, asked0, e);
    var v := match err
      case None => Healthy
      case Some(err) => if err.DeadlineExceeded? then Unhealthy(PodTimeout) else Failed(EndpointQuery);
    s := Series(DNS, name, e.pod.value, StatusOf(v), CodeOf(v));
    counters.RecordCoreDnsPodResult(DNS, name, e.pod.value, v);
  }

  // The endpoints up to n were visited, and so much was counted.
  ghost predicate VisitedTo(name: string, lookup: Lookup, endpoints: seq<Endpoint>, n: nat, h: seq<Series>,
                            visited: seq<nat>, starts: seq<nat>, asked: nat)
    requires n <= |endpoints|
  {
    && Visited(name, lookup, endpoints, n, h, visited, starts) && starts[|h|] == asked
    && asked == Asked(lookup, endpoints[..n])
    && h == PodHistory(name, lookup, endpoints[..n]) && |h| == NamedCount(endpoints[..n])
  }

  lemma VisitedToNext(name: string, lookup: Lookup, endpoints: seq<Endpoint>, n: nat, h: seq<Series>,
                      visited: seq<nat>, starts: seq<nat>, asked: nat, next: nat, s: Series)
    requires n < |endpoints| && VisitedTo(name, lookup, endpoints, n, h, visited, starts, asked)
    ensures !Named(endpoints[n]) ==> VisitedTo(name, lookup, endpoints, n + 1, h, visited, starts, asked)
    ensures Named(endpoints[n]) && PodCounted(name, lookup, endpoints[n], asked, next, s)
            && next == asked + Queries(lookup, asked, endpoints[n].addresses)
            && (var v := PodVerdict(lookup, asked, endpoints[n]);
                s == Series(DNS, name, endpoints[n].pod.value, StatusOf(v), CodeOf(v))) ==>
              VisitedTo(name, lookup, endpoints, n + 1, h + [s], visited + [n], starts + [next], next)
  {
    VisitedNext(name, lookup, endpoints, n, h, visited, starts, next, s);
    assert endpoints[..n + 1][..n] == endpoints[..n];
    assert h + [] == h;
  }

  lemma IncAllSnoc(m: Counter, h: seq<Series>, s: Series)
    ensures IncAll(m, h + [s]) == Inc(IncAll(m, h), s)
  {
    assert (h + [s])[..|h|] == h;
  }

  // Visits endpoint n, if it is named.
  method VisitNext(name: string, a: Answers, endpoints: seq<Endpoint>, n: nat, asked0: nat, counters: Counters,
                   ghost before: Counter, ghost h0: seq<Series>, ghost visited0: seq<nat>, ghost starts0: seq<nat>)
      returns (asked: nat, ghost h: seq<Series>, ghost visited: seq<nat>, ghost starts: seq<nat>)
    requires n < |endpoints| && VisitedTo(name, a.lookup, endpoints, n, h0, visited0, starts0, asked0)
    requires counters.podResults == IncAll(before, h0)
    modifies counters`podResults
    ensures VisitedTo(name, a.lookup, endpoints, n + 1, h, visited, starts, asked)
    ensures counters.podResults == IncAll(before, h)
  {
    if !Named(endpoints[n]) {
      VisitedToNext(name, a.lookup, endpoints, n, h0, visited0, starts0, asked0, 0,
                    Series(DNS, name, [], NoStatus, NoCode));
      return asked0, h0, visited0, starts0;
    }
    ghost var s;
    asked, s := VisitPod(name, a, endpoints[n], asked0, counters);
    VisitedToNext(name, a.lookup, endpoints, n, h0, visited0, starts0, asked0, asked, s);
    IncAllSnoc(before, h0, s);
    h, visited, starts := h0 + [s], visited0 + [n], starts0 + [asked];
  }

  // Visits every named endpoint, whatever the others answer.
  method VisitPods(name: string, a: Answers, endpoints: seq<Endpoint>, counters: Counters)
      returns (ghost h: seq<Series>, ghost visited: seq<nat>, ghost starts: seq<nat>, ghost asked: nat)
    modifies counters`podResults
    ensures VisitedTo(name, a.lookup, endpoints, |endpoints|, h, visited, starts, asked)
    ensures counters.podResults == IncAll(old(counters.podResults), h)
  {
    var queries := 0;
    h, visited, starts := [], [], [0];
    for n := 0 to |endpoints|
      invariant VisitedTo(name, a.lookup, endpoints, n, h, visited, starts, queries)
      invariant counters.podResults == IncAll(old(counters.podResults), h)
    {
      queries, h, visited, starts := VisitNext(name, a, endpoints, n, queries, counters, old(counters.podResults),
                                               h, visited, starts);
    }
    asked := queries;
  }

  // Queries every ready endpoint, whatever the others answer, and counts one result for each named one.
  method CheckCoreDnsPerPod(name: string, a: Answers, counters: Counters)
    modifies counters`podResults
    ensures PodsCounted(name, a, old(counters.podResults), counters.podResults)
    ensures a.slicesErr.None? ==>
              counters.podResults == IncAll(old(counters.podResults), PodHistory(name, a.lookup, ReadyOf(a.slices)))
    ensures a.slicesErr.None? ==>
              Total(counters.podResults) == old(Total(counters.podResults)) + NamedCount(ReadyOf(a.slices))
    ensures a.slicesErr.Some? ==> counters.podResults == old(counters.podResults)
  {
    var r := GetCoreDnsEndpoints(a);
    if r.Found? {
      ghost var h, visited, starts, asked := VisitPods(name, a, r.endpoints, counters);
      assert r.endpoints[..|r.endpoints|] == r.endpoints;
      IncAllCounts(old(counters.podResults), h, Series(DNS, name, [], NoStatus, NoCode));
      assert CountedSo(name, a, r.endpoints, h, visited, starts);
    } else {
      NothingVisited(name, a.lookup, counters.podResults);
      assert a.slicesErr.None? ==> CountedSo(name, a, [], [], [], [0]);
    }
  }

  lemma NothingVisited(name: string, lookup: Lookup, m: Counter)
    ensures Visited(name, lookup, [], 0, [], [], [0]) && IncAll(m, []) == m
  {
  }

  // ---- One against the other ----

  // An address answers alike whenever it is asked.
  ghost predicate Steady(lookup: Lookup)
  {
    forall m: nat, n: nat, address :: lookup(m, address) == lookup(n, address)
  }

  lemma {:induction false} SteadyFailure(lookup: Lookup, m: nat, n: nat, addresses: seq<string>)
    requires Steady(lookup)
    ensures FirstFailure(lookup, m, addresses) == FirstFailure(lookup, n, addresses)
    decreases addresses
  {
    if addresses != [] {
      assert lookup(m, addresses[0]) == lookup(n, addresses[0]);
      SteadyFailure(lookup, m + 1, n + 1, addresses[1..]);
    }
  }

  lemma {:induction false} AllEndpointsHealthy(lookup: Lookup, n: nat, endpoints: seq<Endpoint>)
    requires Steady(lookup)
    ensures FirstFailure(lookup, n, AddressesOf(endpoints)).None? <==>
              forall m | 0 <= m < |endpoints| :: PodVerdict(lookup, 0, endpoints[m]) == Healthy
    decreases endpoints
  {
    if endpoints != [] {
      var first := endpoints[0].addresses;
      AllEndpointsHealthy(lookup, n + |first|, endpoints[1..]);
      FirstFailureAppend(lookup, n, first, AddressesOf(endpoints[1..]));
      SteadyFailure(lookup, n, 0, first);
      assert forall m | 0 < m < |endpoints| :: endpoints[m] == endpoints[1..][m - 1];
    }
  }

  // On the same steady answers, with the service resolving and every ready endpoint named, the whole
  // check returns Healthy exactly when the check by pod, whatever was counted before, counts something
  // and counts only healthy pods.
  lemma WholeAgreesWithPods(name: string, a: Answers, before: Counter)
    requires ServiceResolves(a) && a.slicesErr.None? && Steady(a.lookup)
    requires forall n | 0 <= n < |ReadyOf(a.slices)| :: Named(ReadyOf(a.slices)[n])
    ensures var after := IncAll(before, PodHistory(name, a.lookup, ReadyOf(a.slices)));
            CoreDnsVerdict(a) == Healthy <==>
              Total(after) > Total(before) && forall s | At(after, s) > At(before, s) :: s.status == HealthyStatus
  {
    var endpoints := ReadyOf(a.slices);
    AllEndpointsHealthy(a.lookup, 1, endpoints);
    HealthyHistory(name, a.lookup, endpoints);
    OnlyHealthyGrow(before, PodHistory(name, a.lookup, endpoints));
  }

  // What grows when a history is counted are its series.
  lemma OnlyHealthyGrow(before: Counter, h: seq<Series>)
    ensures var after := IncAll(before, h);
            h != [] && (forall n | 0 <= n < |h| :: h[n].status == HealthyStatus) <==>
              Total(after) > Total(before) && forall s | At(after, s) > At(before, s) :: s.status == HealthyStatus
  {
    forall s ensures At(IncAll(before, h), s) > At(before, s) <==> s in h {
      IncAllCounts(before, h, s);
    }
    IncAllCounts(before, h, Series(DNS, [], [], NoStatus, NoCode));
    if n :| 0 <= n < |h| && h[n].status != HealthyStatus {
      assert h[n] in h;
    }
  }

  // The history holds a healthy series for each healthy endpoint.
  lemma {:induction false} HealthyHistory(name: string, lookup: Lookup, endpoints: seq<Endpoint>)
    requires Steady(lookup) && forall n | 0 <= n < |endpoints| :: Named(endpoints[n])
    ensures |PodHistory(name, lookup, endpoints)| == |endpoints|
    ensures (forall n | 0 <= n < |endpoints| :: PodHistory(name, lookup, endpoints)[n].status == HealthyStatus) <==>
              forall n | 0 <= n < |endpoints| :: PodVerdict(lookup, 0, endpoints[n]) == Healthy
  {
    if endpoints != [] {
      var front, last := endpoints[..|endpoints| - 1], endpoints[|endpoints| - 1];
      var h, h0 := PodHistory(name, lookup, endpoints), PodHistory(name, lookup, front);
      HealthyHistory(name, lookup, front);
      SteadyFailure(lookup, Asked(lookup, front), 0, last.addresses);
      assert forall n | 0 <= n < |front| :: h[n] == h0[n] && endpoints[n] == front[n];
      assert h[|front|].status == HealthyStatus <==> PodVerdict(lookup, 0, last) == Healthy;
    }
  }
}
