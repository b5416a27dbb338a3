// From the configuration file to every reachable state: what an accepted configuration guarantees of
// the checkers built from it, run by their loops side by side.
module Monitor {
  import opened Cluster
  import opened Config
  import opened Building
  import Protocol
  import System
  import Bounds
  import Ownership
  import Leftovers
  import SelfDisable
  import Maxima

  // The checkers that write to the cluster.
  function Synthetic(c: CheckerConfig): Option<Protocol.Checker>
  {
    if c.timeout <= 0 then None else
    match c.kind
    case PodStartupType =>
      if c.pod.None? then None else
      var p := c.pod.value;
      Some(Protocol.PodStartup(c.name, c.timeout, p.ns, p.labelKey, p.maxPods, p.csis, p.provisioning,
                               p.startupTimeout))
    case APIServer =>
      if c.api.None? then None else
      var a := c.api.value;
      Some(Protocol.ApiServer(c.name, c.timeout, a.ns, a.labelKey, a.maxObjects))
    case _ => None
  }

  // The protocol side of the schedule: checker i of the environment is entry `at[i]`, run with the
  // entry's timeout; none is missing.
  ghost predicate Runs(entries: seq<Scheduled>, env: System.Env, at: seq<nat>)
  {
    && |at| == |env.chks|
    && (forall i | 0 <= i < |at| :: at[i] < |entries| && Synthetic(entries[at[i]].checker) == Some(env.chks[i]))
    && (forall i, j | 0 <= i < j < |at| :: at[i] < at[j])
    && forall m | 0 <= m < |entries| && Synthetic(entries[m].checker).Some? :: m in at
  }

  // What building an accepted configuration came to.
  ghost predicate Deployed(rules: Rules, checkers: seq<CheckerConfig>, sites: seq<Site>, registry: Registry,
                           built: seq<Built>, entries: seq<Scheduled>, picked: seq<nat>)
    reads registry
  {
    && Accepted(rules, checkers) && registry.Complete() && |sites| == |built| == |checkers|
    && (forall n | 0 <= n < |built| :: built[n] == BuildOf(registry.builders, checkers[n], sites[n]))
    && InOrder(checkers, built, entries, picked)
  }

  // The protocol checker has the settings of the configured one.
  predicate Configured(c: CheckerConfig, chk: Protocol.Checker)
  {
    && chk.name == c.name && chk.timeout == c.timeout
    && (chk.PodStartup? <==> c.kind == PodStartupType) && (chk.ApiServer? <==> c.kind == APIServer)
    && (chk.PodStartup? ==>
          && c.pod.Some? && chk.ns == c.pod.value.ns && chk.labelKey == c.pod.value.labelKey
          && chk.maxPods == c.pod.value.maxPods && chk.csis == c.pod.value.csis
          && chk.provisioning == c.pod.value.provisioning && chk.startupTimeout == c.pod.value.startupTimeout)
    && (chk.ApiServer? ==>
          && c.api.Some? && chk.ns == c.api.value.ns && chk.labelKey == c.api.value.labelKey
          && chk.maxObjects == c.api.value.maxObjects)
  }

  // Scheduled checkers meet what the protocol theorems ask for, have the settings they were configured with,
  // and all of those that write to the cluster are there.
  lemma DeployedCheckers(rules: Rules, checkers: seq<CheckerConfig>, sites: seq<Site>, registry: Registry,
                         built: seq<Built>, entries: seq<Scheduled>, picked: seq<nat>, env: System.Env, at: seq<nat>)
    requires Deployed(rules, checkers, sites, registry, built, entries, picked)
    requires Runs(entries, env, at)
    ensures System.DistinctNames(env.chks) && Ownership.SharedTimeouts(env.chks)
    ensures forall i | 0 <= i < |env.chks| :: Configured(entries[at[i]].checker, env.chks[i])
    ensures forall m | 0 <= m < |entries| && entries[m].checker.kind in {PodStartupType, APIServer} :: m in at
    ensures forall i | 0 <= i < |env.chks| ::
              && env.chks[i].name != [] && env.chks[i].timeout == entries[at[i]].timeout > 0
                  && entries[at[i]].interval > 0
              && (env.chks[i].PodStartup? ==> env.chks[i].maxPods >= 1)
              && (env.chks[i].ApiServer? ==> env.chks[i].maxObjects >= 1)
  {
    AcceptedSchedule(rules, checkers, sites, registry, built, entries, picked);
    forall i | 0 <= i < |env.chks|
      ensures env.chks[i].name == entries[at[i]].checker.name
      ensures env.chks[i].name != [] && env.chks[i].timeout == entries[at[i]].timeout > 0 && entries[at[i]].interval > 0
      ensures env.chks[i].PodStartup? ==> env.chks[i].maxPods >= 1
      ensures env.chks[i].ApiServer? ==> env.chks[i].maxObjects >= 1
    {
      assert Meets(rules, entries[at[i]].checker);
    }
    SameLabelSameChecker(env.chks);
    forall m | 0 <= m < |entries| && entries[m].checker.kind in {PodStartupType, APIServer} ensures m in at {
      assert Meets(rules, entries[m].checker);
    }
  }

  lemma SameLabelSameChecker(chks: seq<Protocol.Checker>)
    requires System.DistinctNames(chks)
    ensures Ownership.SharedTimeouts(chks)
  {
    forall i, j | 0 <= i < |chks| && 0 <= j < |chks| && Protocol.Labels(chks[i]) == Protocol.Labels(chks[j])
      ensures i == j
    {
      assert Protocol.Labels(chks[i])[chks[i].labelKey] == chks[i].name;
      assert chks[i].labelKey in Protocol.Labels(chks[j]);
    }
  }

  // A configured checker's objects are within the limits of its configuration.
  ghost predicate WithinConfigured(c: CheckerConfig, st: Objects)
  {
    match c.kind
    case PodStartupType =>
      && c.pod.Some?
      && (var p := c.pod.value;
          var own := HasValue(p.labelKey, c.name);
          && |Matching(st, Pod, p.ns, own)| <= p.maxPods
          && |Matching(st, StorageClass, "", own)| <= p.maxPods
          && (p.csis != [] ==> |Matching(st, Claim, p.ns, own)| <= (p.maxPods + 1) * |p.csis| - 1))
    case APIServer =>
      && c.api.Some?
      && |Matching(st, ConfigMap, c.api.value.ns, HasValue(c.api.value.labelKey, c.name))| <= c.api.value.maxObjects
    case _ => true
  }

  lemma ConfiguredLimits(c: CheckerConfig, chk: Protocol.Checker, st: Objects)
    requires Synthetic(c) == Some(chk)
    requires chk.PodStartup? ==>
              Bounds.Count(st, chk, Pod) <= chk.maxPods && Bounds.Count(st, chk, StorageClass) <= chk.maxPods
    requires chk.PodStartup? && chk.csis != [] ==> Bounds.Count(st, chk, Claim) <= (chk.maxPods + 1) * |chk.csis| - 1
    requires chk.ApiServer? ==> Bounds.Count(st, chk, ConfigMap) <= chk.maxObjects
    ensures WithinConfigured(c, st)
  {
  }

  // Every accepted configuration keeps every checker within its limits, in every state of every
  // behaviour of its schedule that starts within them.
  lemma AcceptedConfigKeepsLimits(rules: Rules, checkers: seq<CheckerConfig>, sites: seq<Site>, registry: Registry,
                                  built: seq<Built>, entries: seq<Scheduled>, picked: seq<nat>, env: System.Env,
                                  at: seq<nat>, ws: seq<System.World>, es: seq<System.Event>, n: nat, m: nat)
    requires Deployed(rules, checkers, sites, registry, built, entries, picked) && Runs(entries, env, at)
    requires System.Behaviour(env, ws, es) && n < |ws| && m < |entries|
    requires forall i | 0 <= i < |env.chks| :: Bounds.WithinLimits(env.chks[i], ws[0].store)
    ensures WithinConfigured(entries[m].checker, ws[n].store)
  {
    DeployedCheckers(rules, checkers, sites, registry, built, entries, picked, env, at);
    EntryMeets(rules, checkers, sites, registry, built, entries, picked, m);
    if Synthetic(entries[m].checker).Some? {
      var i :| 0 <= i < |at| && at[i] == m;
      CheckerLimits(entries[m].checker, env, ws, es, n, i);
    }
  }

  lemma CheckerLimits(c: CheckerConfig, env: System.Env, ws: seq<System.World>, es: seq<System.Event>, n: nat, i: nat)
    requires System.DistinctNames(env.chks) && System.Behaviour(env, ws, es) && n < |ws| && i < |env.chks|
    requires forall k | 0 <= k < |env.chks| :: Bounds.WithinLimits(env.chks[k], ws[0].store)
    requires Synthetic(c) == Some(env.chks[i])
    ensures WithinConfigured(c, ws[n].store)
  {
    Bounds.LimitsHold(env, ws, es, n, i);
    ConfiguredLimits(c, env.chks[i], ws[n].store);
  }

  lemma EntryMeets(rules: Rules, checkers: seq<CheckerConfig>, sites: seq<Site>, registry: Registry,
                   built: seq<Built>, entries: seq<Scheduled>, picked: seq<nat>, m: nat)
    requires Deployed(rules, checkers, sites, registry, built, entries, picked) && m < |entries|
    ensures Meets(rules, entries[m].checker)
    ensures Synthetic(entries[m].checker).None? ==>
              !entries[m].checker.kind.PodStartupType? && !entries[m].checker.kind.APIServer?
  {
    AcceptedSchedule(rules, checkers, sites, registry, built, entries, picked);
  }

  // The configuration leaves room for the leftovers of one run beside a run, and names only storage that
  // can be created. Validation demands neither.
  predicate Roomy(c: CheckerConfig)
  {
    match c.kind
    case PodStartupType => c.pod.Some? && c.pod.value.maxPods >= 2 && Ownership.Creatable(c.pod.value.csis)
    case APIServer => c.api.Some? && c.api.value.maxObjects >= 2
    case _ => true
  }

  // A checker of an accepted configuration that leaves it room never reports a maximum reached.
  lemma AcceptedConfigStaysEnabled(rules: Rules, checkers: seq<CheckerConfig>, sites: seq<Site>, registry: Registry,
                                   built: seq<Built>, entries: seq<Scheduled>, picked: seq<nat>, env: System.Env,
                                   at: seq<nat>, ws: seq<System.World>, es: seq<System.Event>, n: nat, i: nat)
    requires Deployed(rules, checkers, sites, registry, built, entries, picked) && Runs(entries, env, at)
    requires System.Behaviour(env, ws, es) && n < |ws| && i < |env.chks| && Roomy(entries[at[i]].checker)
    requires forall kind | Leftovers.Limits(env.chks[i], kind) :: SelfDisable.PromptFrom(env, ws, es, i, kind)
    ensures i < |ws[n].locals| && !Maxima.AtMaximum(env.chks[i], ws[n].locals[i].pc)
  {
    DeployedCheckers(rules, checkers, sites, registry, built, entries, picked, env, at);
    Maxima.NeverDisablesItself(env, ws, es, n, i);
  }

  // But there are accepted configurations that allow two pods and whose checker disables itself, since it
  // lists a CSI type twice.
  lemma AcceptedConfigDisables(rules: Rules, ns: string, labelKey: string, gran: nat)
    requires rules.namespace(ns) == [] && rules.labelKey(labelKey) == [] && gran >= 1
    ensures exists c: CheckerConfig ::
              && Accepted(rules, [c]) && c.pod.Some? && c.pod.value.maxPods == 2
              && c.pod.value.csis == [Names.AzureDisk, Names.AzureDisk]
              && Synthetic(c).Some? && Maxima.CanDisable(Synthetic(c).value, gran)
  {
    var csis := [Names.AzureDisk, Names.AzureDisk];
    var pod := PodConfig(ns, labelKey, 5, 2, 5, false, csis);
    var c := CheckerConfig("startup", PodStartupType, 1, 60, None, Some(pod), None);
    assert Accepted(rules, [c]);
    assert !Ownership.Creatable(csis) by {
      assert csis[0] == csis[1];
    }
    Maxima.DisablesExactly(Synthetic(c).value, gran);
  }

  // Two processes running one accepted configuration, as during a rollout, share their timeouts.
  lemma TwoProcessesShare(rules: Rules, checkers: seq<CheckerConfig>, sites: seq<Site>, registry: Registry,
                          built: seq<Built>, entries: seq<Scheduled>, picked: seq<nat>,
                          one: System.Env, at1: seq<nat>, two: System.Env, at2: seq<nat>)
    requires Deployed(rules, checkers, sites, registry, built, entries, picked)
    requires Runs(entries, one, at1) && Runs(entries, two, at2)
    ensures Ownership.SharedTimeouts(one.chks + two.chks)
  {
    AcceptedSchedule(rules, checkers, sites, registry, built, entries, picked);
    var chks, at := one.chks + two.chks, at1 + at2;
    forall i | 0 <= i < |chks| ensures at[i] < |entries| && Synthetic(entries[at[i]].checker) == Some(chks[i]) {
      if i >= |at1| {
        assert chks[i] == two.chks[i - |at1|] && at[i] == at2[i - |at1|];
      }
    }
    forall i, j | 0 <= i < |chks| && 0 <= j < |chks| && Protocol.Labels(chks[i]) == Protocol.Labels(chks[j])
      ensures chks[i].timeout == chks[j].timeout
    {
      SameName(chks[i], chks[j]);
      SameEntry(entries, at[i], at[j], chks[i], chks[j]);
    }
  }

  lemma SameEntry(entries: seq<Scheduled>, m: nat, n: nat, c: Protocol.Checker, d: Protocol.Checker)
    requires forall i, j | 0 <= i < j < |entries| :: entries[i].checker.name != entries[j].checker.name
    requires m < |entries| && n < |entries| && c.name == d.name
    requires Synthetic(entries[m].checker) == Some(c) && Synthetic(entries[n].checker) == Some(d)
    ensures c == d
  {
    assert m < n || n < m || m == n;
  }

  lemma SameName(c: Protocol.Checker, d: Protocol.Checker)
    requires Protocol.Labels(c) == Protocol.Labels(d)
    ensures c.name == d.name
  {
    assert Protocol.Labels(c)[c.labelKey] == c.name;
    assert c.labelKey in Protocol.Labels(d);
  }

  // Neither of two processes running one accepted configuration collects an object of a run of the
  // other still in its deadline, unless truncation moved its timestamp to before that run.
  lemma TwoProcessesSpareLiveRuns(rules: Rules, checkers: seq<CheckerConfig>, sites: seq<Site>, registry: Registry,
                                  built: seq<Built>, entries: seq<Scheduled>, picked: seq<nat>,
                                  one: System.Env, at1: seq<nat>, two: System.Env, at2: seq<nat>,
                                  env: System.Env, ws: seq<System.World>, es: seq<System.Event>, n: nat, k: Key, o: nat)
    requires Deployed(rules, checkers, sites, registry, built, entries, picked)
    requires Runs(entries, one, at1) && Runs(entries, two, at2) && env.chks == one.chks + two.chks
    requires System.Behaviour(env, ws, es) && n < |es|
    requires Ownership.SignedStore(env, ws[0].births, ws[0].store)
    requires Ownership.Deletes(env, ws[n], es[n], ws[n + 1], k)
    requires !k.kind.NodePool? && ws[n].locals[es[n].i].pc.GcDelete?
    requires o < |ws[n].locals| && Ownership.RunStamp(ws[n].locals[o].pc) == Ownership.Stamp(k)
    ensures ws[n].locals[es[n].i].pc.todo[0].key == k
    ensures ws[n].locals[es[n].i].pc.todo[0].created >= ws[n].locals[o].start ==> es[n].at > ws[n].locals[o].deadline
    ensures ws[n].locals[o].deadline + 2 <= es[n].at + env.gran
  {
    TwoProcessesShare(rules, checkers, sites, registry, built, entries, picked, one, at1, two, at2);
    Ownership.GcSparesLiveRuns(env, ws, es, n, k);
    Ownership.InvHolds(env, ws, es, n);
  }
}
