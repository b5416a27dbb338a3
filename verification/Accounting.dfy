// Every run of every checker ends in the result counters: what Run does after the check, and what
// the counters hold after any history of runs.
module Accounting {
  import opened Results
  import opened Config
  import opened Metrics
  import opened Dns
  import Protocol
  import PodStartup
  import ApiServer
  import Measure

  // A completed run: of a checker that comes to one verdict, or of a DNS checker.
  datatype Completed =
    | Checked(kind: CheckerType, name: string, v: Verdict)
    | Queried(name: string, target: Target, a: Answers)

  // The series a run counts among the results of runs, and among those of pods.
  function ResultOf(r: Completed): seq<Series>
  {
    match r
    case Checked(kind, name, v) => [Series(kind, name, [], StatusOf(v), CodeOf(v))]
    case Queried(name, target, a) =>
      match target
      case CoreDNS => [Series(DNS, name, [], StatusOf(CoreDnsVerdict(a)), CodeOf(CoreDnsVerdict(a)))]
      case LocalDNS => [Series(DNS, name, [], StatusOf(LocalDnsVerdict(a)), CodeOf(LocalDnsVerdict(a)))]
      case _ => []
  }

  function PodsOf(r: Completed): seq<Series>
  {
    if r.Queried? && r.target.CoreDNSPerPod? && r.a.slicesErr.None? then
      PodHistory(r.name, r.a.lookup, ReadyOf(r.a.slices))
    else
      []
  }

  function ResultsOf(history: seq<Completed>): seq<Series>
  {
    if history == [] then [] else ResultsOf(history[..|history| - 1]) + ResultOf(history[|history| - 1])
  }

  function AllPodsOf(history: seq<Completed>): seq<Series>
  {
    if history == [] then [] else AllPodsOf(history[..|history| - 1]) + PodsOf(history[|history| - 1])
  }

  // ---- Any history ----

  predicate ByPod(r: Completed)
  {
    r.Queried? && r.target.CoreDNSPerPod?
  }

  // Validation admits no other DNS target.
  predicate Admitted(r: Completed)
  {
    r.Queried? ==> !r.target.OtherTarget?
  }

  // How many runs are not by pod, and how many named ready endpoints those by pod visited.
  function RunsNotByPod(history: seq<Completed>): nat
  {
    if history == [] then 0 else RunsNotByPod(history[..|history| - 1]) + if ByPod(history[|history| - 1]) then 0 else 1
  }

  function PodsVisited(r: Completed): nat
  {
    if ByPod(r) && r.a.slicesErr.None? then NamedCount(ReadyOf(r.a.slices)) else 0
  }

  function AllPodsVisited(history: seq<Completed>): nat
  {
    if history == [] then 0 else AllPodsVisited(history[..|history| - 1]) + PodsVisited(history[|history| - 1])
  }

  lemma {:induction false} PodHistoryLength(name: string, a: Answers, endpoints: seq<Endpoint>)
    ensures |PodHistory(name, a.lookup, endpoints)| == NamedCount(endpoints)
  {
    if endpoints != [] {
      PodHistoryLength(name, a, endpoints[..|endpoints| - 1]);
    }
  }

  lemma {:induction false} HistoryLengths(history: seq<Completed>)
    ensures (forall r | r in history :: Admitted(r)) ==> |ResultsOf(history)| == RunsNotByPod(history)
    ensures |AllPodsOf(history)| == AllPodsVisited(history)
  {
    if history != [] {
      var last := history[|history| - 1];
      HistoryLengths(history[..|history| - 1]);
      assert last in history && forall r | r in history[..|history| - 1] :: r in history;
      assert Admitted(last) ==> |ResultOf(last)| == if ByPod(last) then 0 else 1;
      if last.Queried? {
        PodHistoryLength(last.name, last.a, ReadyOf(last.a.slices));
      }
    }
  }

  lemma IncOne(m: Counter, s: Series)
    ensures IncAll(m, [s]) == Inc(m, s)
  {
    assert [s][..0] == [];
  }

  // One more run: its series are counted on top.
  lemma Completes(results: Counter, pods: Counter, history: seq<Completed>, r: Completed)
    requires results == IncAll(map[], ResultsOf(history)) && pods == IncAll(map[], AllPodsOf(history))
    ensures IncAll(map[], ResultsOf(history + [r])) == IncAll(results, ResultOf(r))
    ensures IncAll(map[], AllPodsOf(history + [r])) == IncAll(pods, PodsOf(r))
    ensures ResultOf(r) == [] ==> IncAll(results, ResultOf(r)) == results
    ensures PodsOf(r) == [] ==> IncAll(pods, PodsOf(r)) == pods
  {
    assert (history + [r])[..|history|] == history;
    IncAllAppend(map[], ResultsOf(history), ResultOf(r));
    IncAllAppend(map[], AllPodsOf(history), PodsOf(r));
  }

  // ---- The runs ----

  // The process: its counters, and the runs completed since it started.
  class Process {
    const counters: Counters
    ghost var history: seq<Completed>

    constructor ()
      ensures Valid() && history == [] && fresh(counters)
    {
      counters := new Counters();
      history := [];
    }

    ghost predicate Valid()
      reads this, counters
    {
      && counters.results == IncAll(map[], ResultsOf(history))
      && counters.podResults == IncAll(map[], AllPodsOf(history))
    }

    // Over any history the run counters sum to the runs that are not by pod, skipped ones included, and
    // the pod counters to the endpoints visited by those that are; each series holds its own share.
    lemma Accounts(s: Series)
      requires Valid()
      ensures (forall r | r in history :: Admitted(r)) ==> Total(counters.results) == RunsNotByPod(history)
      ensures Total(counters.podResults) == AllPodsVisited(history)
      ensures At(counters.results, s) == multiset(ResultsOf(history))[s]
      ensures At(counters.podResults, s) == multiset(AllPodsOf(history))[s]
    {
      HistoryLengths(history);
      IncAllCounts(map[], ResultsOf(history), s);
      IncAllCounts(map[], AllPodsOf(history), s);
    }

    // Run of a checker whose check came to v.
    method Record(kind: CheckerType, name: string, v: Verdict)
      requires Valid()
      modifies this, counters`results
      ensures Valid() && history == old(history) + [Checked(kind, name, v)]
      ensures Registered(old(counters.results), counters.results, kind, name, [], v)
    {
      var r := Checked(kind, name, v);
      Completes(counters.results, counters.podResults, history, r);
      IncOne(counters.results, ResultOf(r)[0]);
      counters.RecordResult(kind, name, v);
      history := history + [r];
    }

    method RunPodStartup(chk: PodStartup.PodStartupChecker, o: Measure.Observation) returns (v: Verdict)
      requires Valid() && chk.Valid() && chk.api.Traced() && chk.api.pc == Protocol.Start(chk.api.chk)
      modifies this, counters`results, chk.api
      ensures Valid() && chk.api.Traced() && chk.api.pc == Protocol.Done(v)
      ensures history == old(history) + [Checked(PodStartupType, chk.api.chk.name, v)]
      ensures Registered(old(counters.results), counters.results, PodStartupType, chk.api.chk.name, [], v)
      ensures Measurable(v) ==> Measure.Judged(o, chk.api.chk.startupTimeout, v)
    {
      var verdict, _, _, _, _, _, _, _, _ := chk.Check(o);
      v := verdict;
      Record(PodStartupType, chk.api.chk.name, v);
    }

    method RunApiServer(chk: ApiServer.ApiServerChecker) returns (v: Verdict)
      requires Valid() && chk.Valid() && chk.api.Traced() && chk.api.pc == Protocol.Start(chk.api.chk)
      modifies this, counters`results, chk.api
      ensures Valid() && chk.api.Traced() && chk.api.pc == Protocol.Done(v)
      ensures history == old(history) + [Checked(APIServer, chk.api.chk.name, v)]
      ensures Registered(old(counters.results), counters.results, APIServer, chk.api.chk.name, [], v)
    {
      var verdict, _, _, _, _, _ := chk.Check();
      v := verdict;
      Record(APIServer, chk.api.chk.name, v);
    }

    method RunDns(name: string, target: Target, a: Answers)
      requires Valid()
      modifies this, counters
      ensures Valid() && history == old(history) + [Queried(name, target, a)]
      ensures target == CoreDNS ==>
                && counters.podResults == old(counters.podResults)
                && exists v :: CoreDnsConcludes(a, v)
                               && Registered(old(counters.results), counters.results, DNS, name, [], v)
      ensures target == LocalDNS ==>
                && counters.podResults == old(counters.podResults)
                && exists v :: LocalDnsConcludes(a, v)
                               && Registered(old(counters.results), counters.results, DNS, name, [], v)
      ensures target == CoreDNSPerPod ==>
                && counters.results == old(counters.results)
                && PodsCounted(name, a, old(counters.podResults), counters.podResults)
      ensures target.OtherTarget? ==>
                counters.results == old(counters.results) && counters.podResults == old(counters.podResults)
    {
      var r := Queried(name, target, a);
      Completes(counters.results, counters.podResults, history, r);
      match target {
        case CoreDNS =>
          IncOne(counters.results, ResultOf(r)[0]);
          var v := CheckCoreDns(a);
          counters.RecordResult(DNS, name, v);
        case LocalDNS =>
          IncOne(counters.results, ResultOf(r)[0]);
          var v := CheckLocalDns(a);
          counters.RecordResult(DNS, name, v);
        case CoreDNSPerPod => CheckCoreDnsPerPod(name, a, counters);
        case OtherTarget(_) =>
      }
      history := history + [r];
    }
  }
}
