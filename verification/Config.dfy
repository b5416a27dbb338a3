// The configuration and its validation: every rule is tried and every violation reported.
module Config {
  import opened Names
  import opened Cluster

  // ---- 64-bit durations, in nanoseconds ----

  const TWO63: int := 0x8000_0000_0000_0000
  const TWO64: int := 0x1_0000_0000_0000_0000

  type Duration = d: int | -TWO63 <= d < TWO63

  // Addition wraps around.
  function Plus(a: Duration, b: Duration): Duration
  {
    var s := a + b;
    if s >= TWO63 then s - TWO64 else if s < -TWO63 then s + TWO64 else s
  }

  // ---- Entities ----

  datatype CheckerType = DNS | PodStartupType | APIServer | AzurePolicy | MetricsServer | OtherType(text: string)

  datatype Target = CoreDNS | CoreDNSPerPod | LocalDNS | OtherTarget(text: string)

  datatype DnsConfig = DnsConfig(domain: string, queryTimeout: Duration, target: Target)

  datatype PodConfig = PodConfig(ns: string, labelKey: string, startupTimeout: Duration, maxPods: int,
                                 tcpTimeout: Duration, provisioning: bool, csis: seq<CsiType>)

  datatype ApiConfig = ApiConfig(ns: string, labelKey: string, mutateTimeout: Duration, readTimeout: Duration,
      maxObjects: int)

  datatype CheckerConfig = CheckerConfig(name: string, kind: CheckerType, interval: Duration, timeout: Duration,
                                         dns: Option<DnsConfig>, pod: Option<PodConfig>, api: Option<ApiConfig>)

  // What the libraries for namespace names and label keys object to.
  datatype Rules = Rules(namespace: string -> seq<string>, labelKey: string -> seq<string>)

  datatype Problem =
    | NoConfig | NoCheckers
    | Invalid(name: string, problems: seq<Problem>)
    | Duplicate(name: string)
    | NoName | NoType | BadInterval | BadTimeout | BadType(kind: CheckerType)
    | NoSubConfig
    | NoDomain | BadQueryTimeout | NoTarget | BadTarget(target: Target) | TimeoutWithinQuery
    | BadNamespace(reason: string) | BadLabelKey(reason: string)
    | TimeoutWithinStartup | BadStartupTimeout | BadTcpTimeout | BadMaxPods
    | TimeoutWithinMutate | TimeoutWithinRead | BadMaxObjects

  // ---- What a valid configuration is ----

  predicate MeetsDns(dns: Option<DnsConfig>, timeout: Duration)
  {
    && dns.Some?
    && dns.value.domain != [] && 0 < dns.value.queryTimeout < timeout
    && !dns.value.target.OtherTarget?
  }

  predicate MeetsPod(rules: Rules, pod: Option<PodConfig>, timeout: Duration)
  {
    && pod.Some?
    && rules.namespace(pod.value.ns) == [] && rules.labelKey(pod.value.labelKey) == []
    && pod.value.startupTimeout > 0 && pod.value.tcpTimeout > 0 && pod.value.maxPods > 0
    && Plus(pod.value.startupTimeout, pod.value.tcpTimeout) < timeout
  }

  predicate MeetsApi(rules: Rules, api: Option<ApiConfig>, timeout: Duration)
  {
    && api.Some?
    && rules.namespace(api.value.ns) == [] && rules.labelKey(api.value.labelKey) == []
    && api.value.mutateTimeout < timeout && api.value.readTimeout < timeout && api.value.maxObjects > 0
  }

  predicate Meets(rules: Rules, c: CheckerConfig)
  {
    && c.name != [] && c.interval > 0 && c.timeout > 0
    && match c.kind
       case DNS => MeetsDns(c.dns, c.timeout)
       case PodStartupType => MeetsPod(rules, c.pod, c.timeout)
       case APIServer => MeetsApi(rules, c.api, c.timeout)
       case AzurePolicy => true
       case MetricsServer => true
       case OtherType(_) => false
  }

  ghost predicate NamedTwice(checkers: seq<CheckerConfig>, name: string)
  {
    exists i, j :: 0 <= i < j < |checkers| && checkers[i].name == name == checkers[j].name
  }

  ghost predicate Sound(rules: Rules, checkers: seq<CheckerConfig>)
  {
    && (forall n | 0 <= n < |checkers| :: Meets(rules, checkers[n]))
    && (forall i, j | 0 <= i < j < |checkers| :: checkers[i].name != checkers[j].name)
  }

  ghost predicate Accepted(rules: Rules, checkers: seq<CheckerConfig>)
  {
    checkers != [] && Sound(rules, checkers)
  }

  // ---- Validation ----

  method ValidateDns(dns: Option<DnsConfig>, timeout: Duration) returns (errs: seq<Problem>)
    ensures errs == [] <==> MeetsDns(dns, timeout)
    ensures dns.None? ==> errs == [NoSubConfig]
    ensures dns.Some? ==>
              && (NoDomain in errs <==> dns.value.domain == [])
              && (BadQueryTimeout in errs <==> dns.value.queryTimeout <= 0)
              && (NoTarget in errs <==> dns.value.target == OtherTarget([]))
              && (BadTarget(dns.value.target) in errs <==> dns.value.target.OtherTarget? && dns.value.target.text != [])
              && (TimeoutWithinQuery in errs <==> timeout <= dns.value.queryTimeout)
              && forall p | p in errs ::
                   p in {NoDomain, BadQueryTimeout, NoTarget, BadTarget(dns.value.target), TimeoutWithinQuery}
  {
    if dns.None? {
      return [NoSubConfig];
    }
    var c := dns.value;
    errs := [];
    if c.domain == [] { errs := errs + [NoDomain]; }
    if c.queryTimeout <= 0 { errs := errs + [BadQueryTimeout]; }
    if c.target.OtherTarget? {
      errs := errs + [if c.target.text == [] then NoTarget else BadTarget(c.target)];
    }
    if timeout <= c.queryTimeout { errs := errs + [TimeoutWithinQuery]; }
  }

  // Every objection to the namespace and to the label key is reported, and nothing else.
  ghost predicate NamesReported(rules: Rules, ns: string, labelKey: string, errs: seq<Problem>)
  {
    && (forall r :: BadNamespace(r) in errs <==> r in rules.namespace(ns))
    && (forall r :: BadLabelKey(r) in errs <==> r in rules.labelKey(labelKey))
  }

  method ValidateNames(rules: Rules, ns: string, labelKey: string) returns (errs: seq<Problem>)
    ensures |errs| == |rules.namespace(ns)| + |rules.labelKey(labelKey)|
    ensures NamesReported(rules, ns, labelKey, errs)
    ensures forall p | p in errs :: p.BadNamespace? || p.BadLabelKey?
  {
    errs := [];
    var wrong := rules.namespace(ns);
    for n := 0 to |wrong|
      invariant |errs| == n && forall m | 0 <= m < n :: errs[m] == BadNamespace(wrong[m])
    {
      errs := errs + [BadNamespace(wrong[n])];
    }
    ghost var before := errs;
    var wrongKey := rules.labelKey(labelKey);
    for n := 0 to |wrongKey|
      invariant |errs| == |before| + n && before == errs[..|before|]
      invariant forall m | |before| <= m < |errs| :: errs[m] == BadLabelKey(wrongKey[m - |before|])
    {
      errs := errs + [BadLabelKey(wrongKey[n])];
    }
    forall r ensures BadNamespace(r) in errs <==> r in wrong {
      if m :| 0 <= m < |wrong| && wrong[m] == r {
        assert errs[m] == BadNamespace(r);
      }
    }
    forall r ensures BadLabelKey(r) in errs <==> r in wrongKey {
      if m :| 0 <= m < |wrongKey| && wrongKey[m] == r {
        assert errs[|before| + m] == BadLabelKey(r);
      }
    }
  }

  method ValidatePod(rules: Rules, pod: Option<PodConfig>, timeout: Duration) returns (errs: seq<Problem>)
    ensures errs == [] <==> MeetsPod(rules, pod, timeout)
    ensures pod.None? ==> errs == [NoSubConfig]
    ensures pod.Some? ==>
              && (TimeoutWithinStartup in errs <==> timeout <= Plus(pod.value.startupTimeout, pod.value.tcpTimeout))
              && (BadStartupTimeout in errs <==> pod.value.startupTimeout <= 0)
              && (BadTcpTimeout in errs <==> pod.value.tcpTimeout <= 0)
              && (BadMaxPods in errs <==> pod.value.maxPods <= 0)
              && NamesReported(rules, pod.value.ns, pod.value.labelKey, errs)
              && forall p | p in errs ::
                   || p in {TimeoutWithinStartup, BadStartupTimeout, BadTcpTimeout, BadMaxPods}
                   || p.BadNamespace? || p.BadLabelKey?
  {
    if pod.None? {
      return [NoSubConfig];
    }
    var c := pod.value;
    errs := ValidateNames(rules, c.ns, c.labelKey);
    if timeout <= Plus(c.startupTimeout, c.tcpTimeout) { errs := errs + [TimeoutWithinStartup]; }
    if c.startupTimeout <= 0 { errs := errs + [BadStartupTimeout]; }
    if c.tcpTimeout <= 0 { errs := errs + [BadTcpTimeout]; }
    if c.maxPods <= 0 { errs := errs + [BadMaxPods]; }
  }

  method ValidateApi(rules: Rules, api: Option<ApiConfig>, timeout: Duration) returns (errs: seq<Problem>)
    ensures errs == [] <==> MeetsApi(rules, api, timeout)
    ensures api.None? ==> errs == [NoSubConfig]
    ensures api.Some? ==>
              && (TimeoutWithinMutate in errs <==> timeout <= api.value.mutateTimeout)
              && (TimeoutWithinRead in errs <==> timeout <= api.value.readTimeout)
              && (BadMaxObjects in errs <==> api.value.maxObjects <= 0)
              && NamesReported(rules, api.value.ns, api.value.labelKey, errs)
              && forall p | p in errs ::
                   || p in {TimeoutWithinMutate, TimeoutWithinRead, BadMaxObjects}
                   || p.BadNamespace? || p.BadLabelKey?
  {
    if api.None? {
      return [NoSubConfig];
    }
    var c := api.value;
    errs := ValidateNames(rules, c.ns, c.labelKey);
    if timeout <= c.mutateTimeout { errs := errs + [TimeoutWithinMutate]; }
    if timeout <= c.readTimeout { errs := errs + [TimeoutWithinRead]; }
    if c.maxObjects <= 0 { errs := errs + [BadMaxObjects]; }
  }

  // Problems of that name are reported.
  ghost predicate Reported(errs: seq<Problem>, name: string)
  {
    exists e :: e in errs && e.Invalid? && e.name == name && e.problems != []
  }

  method ValidateChecker(rules: Rules, c: CheckerConfig) returns (errs: seq<Problem>)
    ensures errs == [] <==> Meets(rules, c)
    ensures NoName in errs <==> c.name == []
    ensures NoType in errs <==> c.kind == OtherType([])
    ensures BadInterval in errs <==> c.interval <= 0
    ensures BadTimeout in errs <==> c.timeout <= 0
    ensures BadType(c.kind) in errs <==> c.kind.OtherType?
    ensures Reported(errs, c.name) <==>
              || (c.kind == DNS && !MeetsDns(c.dns, c.timeout))
              || (c.kind == PodStartupType && !MeetsPod(rules, c.pod, c.timeout))
              || (c.kind == APIServer && !MeetsApi(rules, c.api, c.timeout))
    ensures forall p | p in errs ::
              p in {NoName, NoType, BadInterval, BadTimeout, BadType(c.kind)} || (p.Invalid? && p.name == c.name)
  {
    errs := [];
    if c.name == [] { errs := errs + [NoName]; }
    if c.kind == OtherType([]) { errs := errs + [NoType]; }
    if c.interval <= 0 { errs := errs + [BadInterval]; }
    if c.timeout <= 0 { errs := errs + [BadTimeout]; }
    var nested := [];
    match c.kind {
      case DNS => nested := ValidateDns(c.dns, c.timeout);
      case PodStartupType => nested := ValidatePod(rules, c.pod, c.timeout);
      case APIServer => nested := ValidateApi(rules, c.api, c.timeout);
      case AzurePolicy =>
      case MetricsServer =>
      case OtherType(_) => errs := errs + [BadType(c.kind)];
    }
    if nested != [] {
      errs := errs + [Invalid(c.name, nested)];
    }
  }

  // Two problems are reported per checker at most: its own, and its name's.
  method ValidateNext(rules: Rules, c: CheckerConfig, taken: bool, errs0: seq<Problem>) returns (errs: seq<Problem>)
    ensures errs == [] <==> errs0 == [] && Meets(rules, c) && !taken
    ensures forall name :: Duplicate(name) in errs <==> Duplicate(name) in errs0 || (taken && name == c.name)
    ensures Duplicates(errs) == Duplicates(errs0) + if taken then 1 else 0
    ensures forall name :: Reported(errs, name) <==> Reported(errs0, name) || (name == c.name && !Meets(rules, c))
  {
    errs := errs0;
    var problems := ValidateChecker(rules, c);
    if problems != [] {
      DuplicatesSnoc(errs, Invalid(c.name, problems));
      ReportedSnoc(errs, Invalid(c.name, problems));
      errs := errs + [Invalid(c.name, problems)];
    }
    if taken {
      DuplicatesSnoc(errs, Duplicate(c.name));
      ReportedSnoc(errs, Duplicate(c.name));
      errs := errs + [Duplicate(c.name)];
    }
  }

  function Duplicates(errs: seq<Problem>): nat
  {
    if errs == [] then 0 else (if errs[|errs| - 1].Duplicate? then 1 else 0) + Duplicates(errs[..|errs| - 1])
  }

  lemma DuplicatesSnoc(errs: seq<Problem>, e: Problem)
    ensures Duplicates(errs + [e]) == Duplicates(errs) + if e.Duplicate? then 1 else 0
  {
  }

  lemma ReportedSnoc(errs: seq<Problem>, e: Problem)
    ensures forall name ::
              Reported(errs + [e], name) <==> Reported(errs, name) || (e.Invalid? && e.name == name && e.problems != [])
  {
    forall name
      ensures Reported(errs + [e], name) <==> Reported(errs, name) || (e.Invalid? && e.name == name && e.problems != [])
    {
      assert forall d :: d in errs + [e] <==> d in errs || d == e;
    }
  }

  // A checker of that name breaks a rule.
  ghost predicate Unmet(rules: Rules, checkers: seq<CheckerConfig>, name: string)
  {
    exists n :: 0 <= n < |checkers| && checkers[n].name == name && !Meets(rules, checkers[n])
  }

  lemma UnmetSnoc(rules: Rules, checkers: seq<CheckerConfig>, c: CheckerConfig, name: string)
    ensures Unmet(rules, checkers + [c], name) <==> Unmet(rules, checkers, name) || (name == c.name && !Meets(rules, c))
  {
    var more := checkers + [c];
    if Unmet(rules, checkers, name) {
      var n :| 0 <= n < |checkers| && checkers[n].name == name && !Meets(rules, checkers[n]);
      assert more[n] == checkers[n];
    } else if name == c.name {
      assert more[|checkers|] == c;
    }
  }

  ghost function NamesOf(checkers: seq<CheckerConfig>): set<string>
  {
    set n | 0 <= n < |checkers| :: checkers[n].name
  }

  // Where validation stands after these checkers.
  ghost predicate Tried(rules: Rules, checkers: seq<CheckerConfig>, nameSet: set<string>, errs: seq<Problem>)
  {
    && nameSet == NamesOf(checkers)
    && (errs == [] <==> Sound(rules, checkers))
    && (forall name :: Duplicate(name) in errs <==> NamedTwice(checkers, name))
    && |nameSet| + Duplicates(errs) == |checkers|
    && (forall name :: Reported(errs, name) <==> Unmet(rules, checkers, name))
  }

  lemma NamesSnoc(checkers: seq<CheckerConfig>, c: CheckerConfig)
    ensures NamesOf(checkers + [c]) == NamesOf(checkers) + {c.name}
  {
    var more := checkers + [c];
    forall name | name in NamesOf(checkers) + {c.name} ensures name in NamesOf(more) {
      if name == c.name {
        assert more[|checkers|].name == name;
      } else {
        var n :| 0 <= n < |checkers| && checkers[n].name == name;
        assert more[n].name == name;
      }
    }
  }

  lemma TwiceSnoc(checkers: seq<CheckerConfig>, c: CheckerConfig, name: string)
    ensures NamedTwice(checkers + [c], name) <==>
              NamedTwice(checkers, name) || (name == c.name && name in NamesOf(checkers))
  {
    var more := checkers + [c];
    if NamedTwice(checkers, name) {
      var i, j :| 0 <= i < j < |checkers| && checkers[i].name == name == checkers[j].name;
      assert more[i].name == name == more[j].name;
    } else if name == c.name && name in NamesOf(checkers) {
      var i :| 0 <= i < |checkers| && checkers[i].name == name;
      assert more[i].name == name == more[|checkers|].name;
    }
  }

  lemma SoundSnoc(rules: Rules, checkers: seq<CheckerConfig>, c: CheckerConfig)
    ensures Sound(rules, checkers + [c]) <==> Sound(rules, checkers) && Meets(rules, c) && c.name !in NamesOf(checkers)
  {
    var more := checkers + [c];
    if Sound(rules, more) {
      assert forall n | 0 <= n < |checkers| :: more[n] == checkers[n];
      assert more[|checkers|] == c;
    }
  }

  lemma TriedSnoc(rules: Rules, checkers: seq<CheckerConfig>, nameSet: set<string>, errs: seq<Problem>,
                  c: CheckerConfig, errs': seq<Problem>)
    requires Tried(rules, checkers, nameSet, errs)
    requires errs' == [] <==> errs == [] && Meets(rules, c) && c.name !in nameSet
    requires forall name :: Duplicate(name) in errs' <==>
              Duplicate(name) in errs || (c.name in nameSet && name == c.name)
    requires Duplicates(errs') == Duplicates(errs) + if c.name in nameSet then 1 else 0
    requires forall name :: Reported(errs', name) <==> Reported(errs, name) || (name == c.name && !Meets(rules, c))
    ensures Tried(rules, checkers + [c], nameSet + {c.name}, errs')
  {
    NamesSnoc(checkers, c);
    SoundSnoc(rules, checkers, c);
    if c.name in nameSet {
      assert nameSet + {c.name} == nameSet;
    }
    assert |checkers + [c]| == |checkers| + 1;
    forall name ensures Duplicate(name) in errs' <==> NamedTwice(checkers + [c], name) {
      TwiceSnoc(checkers, c, name);
      assert Duplicate(name) in errs <==> NamedTwice(checkers, name);
    }
    forall name ensures Reported(errs', name) <==> Unmet(rules, checkers + [c], name) {
      UnmetSnoc(rules, checkers, c, name);
      assert Reported(errs, name) <==> Unmet(rules, checkers, name);
    }
  }

  lemma TriedNone(rules: Rules)
    ensures Tried(rules, [], {}, [])
  {
  }

  // Checker n, after all before it.
  method ValidateAt(rules: Rules, checkers: seq<CheckerConfig>, n: nat, nameSet: set<string>, errs0: seq<Problem>)
      returns (errs: seq<Problem>)
    requires n < |checkers| && Tried(rules, checkers[..n], nameSet, errs0)
    ensures Tried(rules, checkers[..n + 1], nameSet + {checkers[n].name}, errs)
  {
    errs := ValidateNext(rules, checkers[n], checkers[n].name in nameSet, errs0);
    assert checkers[..n + 1] == checkers[..n] + [checkers[n]];
    TriedSnoc(rules, checkers[..n], nameSet, errs0, checkers[n], errs);
  }

  method ValidateAll(rules: Rules, checkers: seq<CheckerConfig>) returns (errs: seq<Problem>)
    ensures Tried(rules, checkers, NamesOf(checkers), errs)
  {
    errs := [];
    var nameSet: set<string> := {};
    TriedNone(rules);
    assert checkers[..0] == [];
    for n := 0 to |checkers|
      invariant Tried(rules, checkers[..n], nameSet, errs)
    {
      errs := ValidateAt(rules, checkers, n, nameSet, errs);
      nameSet := nameSet + {checkers[n].name};
    }
    assert checkers[..|checkers|] == checkers;
  }

  // No error exactly when the configuration is acceptable. Problems are reported under the names of exactly
  // the checkers that break a rule. A name is reported each time it comes
  // again: distinct names and reports add up to the checkers.
  method Validate(rules: Rules, cfg: Option<seq<CheckerConfig>>) returns (errs: seq<Problem>)
    ensures errs == [] <==> cfg.Some? && Accepted(rules, cfg.value)
    ensures cfg.Some? ==> forall name :: Duplicate(name) in errs <==> NamedTwice(cfg.value, name)
    ensures cfg.Some? ==> |NamesOf(cfg.value)| + Duplicates(errs) == |cfg.value|
    ensures cfg.Some? ==> forall name :: Reported(errs, name) <==> Unmet(rules, cfg.value, name)
    ensures cfg.None? ==> errs == [NoConfig]
    ensures cfg == Some([]) ==> errs == [NoCheckers]
  {
    if cfg.None? {
      return [NoConfig];
    }
    if cfg.value == [] {
      return [NoCheckers];
    }
    errs := ValidateAll(rules, cfg.value);
  }

  // ---- The 64-bit sum ----

  // Acceptance means the timeout exceeds startup and TCP timeout together exactly when their sum fits
  // in 64 bits.
  lemma TimeoutCoversBoth(rules: Rules, pod: PodConfig, timeout: Duration)
    requires MeetsPod(rules, Some(pod), timeout)
    ensures pod.startupTimeout + pod.tcpTimeout < timeout <==> pod.startupTimeout + pod.tcpTimeout < TWO63
  {
  }

  // One hour of timeout is accepted with two timeouts of over 146 years each.
  lemma OverflowAccepted(rules: Rules, ns: string, labelKey: string)
    requires rules.namespace(ns) == [] && rules.labelKey(labelKey) == []
    ensures exists pod: PodConfig, timeout: Duration ::
              && timeout == 3600_000_000_000 && pod.ns == ns && pod.labelKey == labelKey
              && MeetsPod(rules, Some(pod), timeout) && pod.startupTimeout + pod.tcpTimeout > timeout
  {
    var half: Duration := 0x4000_0000_0000_0000;
    var pod := PodConfig(ns, labelKey, half, 1, half, false, []);
    var timeout: Duration := 3600_000_000_000;
    assert MeetsPod(rules, Some(pod), timeout);
  }
}
