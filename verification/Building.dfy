// Building checkers from the configuration and putting them on a schedule.
module Building {
  import opened Cluster
  import opened Config

  // What a builder finds around it: whether clients can be made, and whether resolv.conf lists the
  // LocalDNS address (None: the file cannot be read).
  datatype Site = Site(client: bool, inCluster: bool, localDns: Option<bool>)

  datatype Builder = DnsBuilder | PodStartupBuilder | ApiServerBuilder | MetricsServerBuilder | AzurePolicyBuilder

  // NilDereference: the builder reads a field of a sub-configuration that is not there.
  datatype Built = Ready(checker: CheckerConfig) | Skip | Failed | NilDereference

  function Make(b: Builder, cfg: CheckerConfig, site: Site): Built
  {
    match b
    case DnsBuilder =>
      if cfg.dns.None? then NilDereference
      else if !cfg.dns.value.target.LocalDNS? then Ready(cfg)
      else if site.localDns.None? then Failed
      else if site.localDns.value then Ready(cfg) else Skip
    case PodStartupBuilder => if cfg.pod.None? then NilDereference else if site.inCluster then Ready(cfg) else Failed
    case ApiServerBuilder => Ready(cfg)
    case MetricsServerBuilder => if site.inCluster then Ready(cfg) else Failed
    case AzurePolicyBuilder => if site.inCluster then Ready(cfg) else Failed
  }

  function BuildOf(registry: map<CheckerType, Builder>, cfg: CheckerConfig, site: Site): Built
  {
    if !site.client || cfg.kind !in registry then Failed else Make(registry[cfg.kind], cfg, site)
  }

  predicate ForLocalDns(c: CheckerConfig)
  {
    c.kind == DNS && c.dns.Some? && c.dns.value.target.LocalDNS?
  }

  // What the builders known to the process make of a checker: one is skipped for a disabled LocalDNS alone.
  predicate BuiltWell(c: CheckerConfig, site: Site, b: Built)
  {
    && (b.Skip? <==> site.client && ForLocalDns(c) && site.localDns == Some(false))
    && (b.NilDereference? <==>
          site.client && ((c.kind == DNS && c.dns.None?) || (c.kind == PodStartupType && c.pod.None?)))
    && (b.Failed? <==>
          || !site.client || c.kind.OtherType? || (ForLocalDns(c) && site.localDns.None?)
          || (c.kind == PodStartupType && c.pod.Some? && !site.inCluster)
          || (c.kind in {MetricsServer, AzurePolicy} && !site.inCluster))
    && (b.Ready? ==> b.checker == c)
  }

  // The same of an accepted checker, which has the sub-configuration its builder reads.
  predicate BuiltAccepted(c: CheckerConfig, site: Site, b: Built)
  {
    && (b.Skip? <==> ForLocalDns(c) && site.client && site.localDns == Some(false))
    && (b.Failed? <==>
          || !site.client || (ForLocalDns(c) && site.localDns.None?)
          || (c.kind in {PodStartupType, MetricsServer, AzurePolicy} && !site.inCluster))
    && (!b.Skip? && !b.Failed? ==> b == Ready(c))
  }

  datatype Scheduled = Scheduled(interval: Duration, timeout: Duration, checker: CheckerConfig)

  datatype Outcome = Schedules(entries: seq<Scheduled>) | BuildError(at: nat) | Crash(at: nat)

  // Exactly the checkers that are not skipped, in order; `picked` are their positions.
  ghost predicate InOrder(checkers: seq<CheckerConfig>, built: seq<Built>, entries: seq<Scheduled>, picked: seq<nat>)
    requires |built| == |checkers|
  {
    && |picked| == |entries|
    && (forall m | 0 <= m < |picked| :: picked[m] < |checkers| && built[picked[m]].Ready?)
    && (forall m, k | 0 <= m < k < |picked| :: picked[m] < picked[k])
    && (forall n | 0 <= n < |built| && built[n].Ready? :: n in picked)
    && forall m | 0 <= m < |picked| ::
         entries[m] == Scheduled(checkers[picked[m]].interval, checkers[picked[m]].timeout, built[picked[m]].checker)
  }

  lemma InOrderSnoc(checkers: seq<CheckerConfig>, built: seq<Built>, entries: seq<Scheduled>, picked: seq<nat>,
                    c: CheckerConfig, b: Built)
    requires |built| == |checkers| && InOrder(checkers, built, entries, picked)
    ensures b.Ready? ==>
              InOrder(checkers + [c], built + [b], entries + [Scheduled(c.interval, c.timeout, b.checker)],
                      picked + [|checkers|])
    ensures !b.Ready? ==> InOrder(checkers + [c], built + [b], entries, picked)
  {
  }

  class Registry {
    var builders: map<CheckerType, Builder>

    constructor ()
      ensures builders == map[]
    {
      builders := map[];
    }

    method RegisterChecker(t: CheckerType, b: Builder)
      modifies this
      ensures builders == old(builders)[t := b]
    {
      builders := builders[t := b];
    }

    ghost predicate Complete()
      reads this
    {
      builders == map[DNS := DnsBuilder, PodStartupType := PodStartupBuilder, APIServer := ApiServerBuilder,
                      MetricsServer := MetricsServerBuilder, AzurePolicy := AzurePolicyBuilder]
    }

    method RegisterCheckers()
      requires builders == map[]
      modifies this
      ensures Complete()
    {
      RegisterChecker(DNS, DnsBuilder);
      RegisterChecker(PodStartupType, PodStartupBuilder);
      RegisterChecker(APIServer, ApiServerBuilder);
      RegisterChecker(MetricsServer, MetricsServerBuilder);
      RegisterChecker(AzurePolicy, AzurePolicyBuilder);
    }

    // The non-skipped checkers in order, or the first one that fails. sites[n] is what the builder of
    // checker n finds; `built` what the builders returned.
    method BuildCheckerSchedule(checkers: seq<CheckerConfig>, sites: seq<Site>)
        returns (outcome: Outcome, ghost built: seq<Built>, ghost picked: seq<nat>)
      requires |sites| == |checkers|
      ensures |built| <= |checkers| && forall n | 0 <= n < |built| ::
                built[n] == BuildOf(builders, checkers[n], sites[n])
      ensures Complete() ==> forall n | 0 <= n < |built| :: BuiltWell(checkers[n], sites[n], built[n])
      ensures Complete() && (exists rules :: Accepted(rules, checkers)) ==>
                forall n | 0 <= n < |built| :: BuiltAccepted(checkers[n], sites[n], built[n])
      ensures outcome.Schedules? ==>
                && |built| == |checkers| && InOrder(checkers, built, outcome.entries, picked)
                && forall n | 0 <= n < |built| :: built[n].Ready? || built[n].Skip?
      ensures !outcome.Schedules? ==>
                && |built| == outcome.at + 1 && built[outcome.at] == (if outcome.Crash? then NilDereference else Failed)
                && forall n | 0 <= n < outcome.at :: built[n].Ready? || built[n].Skip?
      ensures Complete() && (exists rules :: Accepted(rules, checkers)) ==> !outcome.Crash?
    {
      var entries := [];
      built, picked := [], [];
      for n := 0 to |checkers|
        invariant |built| == n && forall m | 0 <= m < n :: built[m] == BuildOf(builders, checkers[m], sites[m])
        invariant forall m | 0 <= m < n :: built[m].Ready? || built[m].Skip?
        invariant InOrder(checkers[..n], built, entries, picked)
      {
        var b := BuildOf(builders, checkers[n], sites[n]);
        InOrderSnoc(checkers[..n], built, entries, picked, checkers[n], b);
        assert checkers[..n + 1] == checkers[..n] + [checkers[n]];
        built := built + [b];
        match b {
          case Skip =>
          case Failed => return BuildError(n), built, picked;
          case NilDereference =>
            SubConfigsPresent(this, checkers, sites[n], n);
            return Crash(n), built, picked;
          case Ready(checker) =>
            entries := entries + [Scheduled(checkers[n].interval, checkers[n].timeout, checker)];
            picked := picked + [n];
        }
      }
      assert checkers[..|checkers|] == checkers;
      return Schedules(entries), built, picked;
    }
  }

  // An accepted configuration has every sub-configuration its builders read.
  lemma SubConfigsPresent(registry: Registry, checkers: seq<CheckerConfig>, site: Site, n: nat)
    requires n < |checkers|
    ensures registry.Complete() && (exists rules :: Accepted(rules, checkers)) ==>
              !BuildOf(registry.builders, checkers[n], site).NilDereference?
  {
  }

  // Of an accepted configuration, exactly the LocalDNS checkers of nodes without LocalDNS are skipped; the
  // schedule has positive intervals and timeouts, the checkers' own, distinct names and DNS targets a run can
  // handle.
  lemma AcceptedSchedule(rules: Rules, checkers: seq<CheckerConfig>, sites: seq<Site>, registry: Registry,
                         built: seq<Built>, entries: seq<Scheduled>, picked: seq<nat>)
    requires Accepted(rules, checkers) && registry.Complete() && |sites| == |built| == |checkers|
    requires forall n | 0 <= n < |built| :: built[n] == BuildOf(registry.builders, checkers[n], sites[n])
    requires InOrder(checkers, built, entries, picked)
    ensures forall n | 0 <= n < |built| :: BuiltAccepted(checkers[n], sites[n], built[n])
    ensures forall m | 0 <= m < |entries| :: entries[m].interval > 0 && entries[m].timeout > 0
    ensures forall m | 0 <= m < |entries| ::
              && entries[m].checker == checkers[picked[m]]
              && entries[m].interval == entries[m].checker.interval && entries[m].timeout == entries[m].checker.timeout
    ensures forall m | 0 <= m < |entries| :: Meets(rules, entries[m].checker)
    ensures forall m | 0 <= m < |entries| && entries[m].checker.kind == DNS ::
              entries[m].checker.dns.Some? && entries[m].checker.dns.value.target in {CoreDNS, LocalDNS, CoreDNSPerPod}
    ensures forall m, k | 0 <= m < k < |entries| :: entries[m].checker.name != entries[k].checker.name
  {
  }
}
