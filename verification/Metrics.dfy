// Result counters: one count for every completed run, one for every CoreDNS pod queried.
module Metrics {
  import opened Results
  import opened Config

  // A skipped run is counted with empty status and code.
  datatype Status = HealthyStatus | UnhealthyStatus | UnknownStatus | NoStatus
  datatype CodeLabel = HealthyCode | UnknownCode | ErrorCode(code: Code) | NoCode

  function StatusOf(v: Verdict): Status
  {
    match v
    case Healthy => HealthyStatus
    case Unhealthy(_) => UnhealthyStatus
    case Skipped => NoStatus
    case Failed(_) => UnknownStatus
  }

  function CodeOf(v: Verdict): CodeLabel
  {
    match v
    case Healthy => HealthyCode
    case Unhealthy(code) => ErrorCode(code)
    case Skipped => NoCode
    case Failed(_) => UnknownCode
  }

  // `pod` is empty in the counter of runs.
  datatype Series = Series(kind: CheckerType, name: string, pod: string, status: Status, code: CodeLabel)

  type Counter = map<Series, nat>

  function At(m: Counter, s: Series): nat
  {
    if s in m then m[s] else 0
  }

  function Inc(m: Counter, s: Series): Counter
  {
    m[s := At(m, s) + 1]
  }

  // The sum of all series.
  ghost function Total(m: Counter): nat
  {
    if m == map[] then 0 else var s :| s in m; m[s] + Total(m - {s})
  }

  lemma {:induction false} TotalTakes(m: Counter, s: Series)
    requires s in m
    ensures Total(m) == m[s] + Total(m - {s})
  {
    var t :| t in m && Total(m) == m[t] + Total(m - {t});
    if t != s {
      TotalTakes(m - {t}, s);
      TotalTakes(m - {s}, t);
      assert m - {t} - {s} == m - {s} - {t};
    }
  }

  lemma TotalInc(m: Counter, s: Series)
    ensures Total(Inc(m, s)) == Total(m) + 1
  {
    var m' := Inc(m, s);
    TotalTakes(m', s);
    assert m' - {s} == m - {s};
    if s in m {
      TotalTakes(m, s);
    } else {
      assert m - {s} == m;
    }
  }

  // Counting one series after the other.
  ghost function IncAll(m: Counter, history: seq<Series>): Counter
  {
    if history == [] then m else Inc(IncAll(m, history[..|history| - 1]), history[|history| - 1])
  }

  // Each series grows by its own share, all together by the length of the history.
  lemma {:induction false} IncAllCounts(m: Counter, history: seq<Series>, s: Series)
    ensures At(IncAll(m, history), s) == At(m, s) + multiset(history)[s]
    ensures Total(IncAll(m, history)) == Total(m) + |history|
  {
    if history != [] {
      var before, last := history[..|history| - 1], history[|history| - 1];
      IncAllCounts(m, before, s);
      TotalInc(IncAll(m, before), last);
      assert history == before + [last];
    }
  }

  lemma {:induction false} IncAllAppend(m: Counter, a: seq<Series>, b: seq<Series>)
    ensures IncAll(m, a + b) == IncAll(IncAll(m, a), b)
  {
    if b == [] {
      assert a + b == a;
    } else {
      var n := |b| - 1;
      assert (a + b)[..|a + b| - 1] == a + b[..n];
      IncAllAppend(m, a, b[..n]);
    }
  }

  // The labels tell apart all results but the causes of failed runs.
  lemma LabelsTell(v: Verdict, w: Verdict)
    ensures StatusOf(v) == StatusOf(w) && CodeOf(v) == CodeOf(w) <==> v == w || (v.Failed? && w.Failed?)
  {
  }

  // One more of s, and no change to any other series.
  ghost predicate OneMore(m: Counter, m': Counter, s: Series)
  {
    && m'.Keys == m.Keys + {s}
    && At(m', s) == At(m, s) + 1
    && forall t | t in m && t != s :: m'[t] == m[t]
  }

  // A run, or a pod of one, that came to v is registered.
  ghost predicate Registered(m: Counter, m': Counter, kind: CheckerType, name: string, pod: string, v: Verdict)
  {
    && (v == Healthy ==> OneMore(m, m', Series(kind, name, pod, HealthyStatus, HealthyCode)))
    && (v.Unhealthy? ==> OneMore(m, m', Series(kind, name, pod, UnhealthyStatus, ErrorCode(v.code))))
    && (v.Failed? ==> OneMore(m, m', Series(kind, name, pod, UnknownStatus, UnknownCode)))
    && (v == Skipped ==> OneMore(m, m', Series(kind, name, pod, NoStatus, NoCode)))
  }

  class Counters {
    var results: Counter
    var podResults: Counter

    constructor ()
      ensures results == podResults == map[]
    {
      results, podResults := map[], map[];
    }

    method RecordResult(kind: CheckerType, name: string, v: Verdict)
      modifies this`results
      ensures Registered(old(results), results, kind, name, [], v)
      ensures results == Inc(old(results), Series(kind, name, [], StatusOf(v), CodeOf(v)))
      ensures Total(results) == old(Total(results)) + 1
    {
      var s := match v
        case Failed(_) => Series(kind, name, [], UnknownStatus, UnknownCode)
        case Healthy => Series(kind, name, [], HealthyStatus, HealthyCode)
        case Unhealthy(code) => Series(kind, name, [], UnhealthyStatus, ErrorCode(code))
        case Skipped => Series(kind, name, [], NoStatus, NoCode);
      TotalInc(results, s);
      results := Inc(results, s);
    }

    method RecordCoreDnsPodResult(kind: CheckerType, name: string, pod: string, v: Verdict)
      modifies this`podResults
      ensures Registered(old(podResults), podResults, kind, name, pod, v)
      ensures podResults == Inc(old(podResults), Series(kind, name, pod, StatusOf(v), CodeOf(v)))
      ensures Total(podResults) == old(Total(podResults)) + 1
    {
      var s := match v
        case Failed(_) => Series(kind, name, pod, UnknownStatus, UnknownCode)
        case Healthy => Series(kind, name, pod, HealthyStatus, HealthyCode)
        case Unhealthy(code) => Series(kind, name, pod, UnhealthyStatus, ErrorCode(code))
        case Skipped => Series(kind, name, pod, NoStatus, NoCode);
      TotalInc(podResults, s);
      podResults := Inc(podResults, s);
    }
  }
}
