// Measuring a started pod: from its status, its image pull event, its address and a TCP connection
// to a verdict.
module Measure {
  import opened Results
  import opened Cluster
  import opened Durations

  // One read of the pod while polling: its creation time and, per container, when it started
  // running. Times are in nanoseconds, truncated to seconds by the API.
  datatype PodView = PodView(created: int, running: seq<Option<int>>)

  // What the reads after pod creation return: successive polls until the context ends (None is a
  // failed read) and the error it ends with, the events, the address, the outcome of the dial.
  datatype Observation = Observation(polls: seq<Option<PodView>>, pollEnd: Error, events: Option<seq<string>>,
                                     ip: Option<string>, dial: Option<Error>)

  // ---- Polling ----

  // When the first running container of a pod started.
  function FirstStart(running: seq<Option<int>>): Option<int>
  {
    if running == [] then None else if running[0].Some? then running[0] else FirstStart(running[1..])
  }

  // The first poll that shows a running container decides.
  function CreationToRunning(polls: seq<Option<PodView>>): Option<int>
  {
    if polls == [] then None
    else if polls[0].Some? && FirstStart(polls[0].value.running).Some?
    then Some(FirstStart(polls[0].value.running).value - polls[0].value.created)
    else CreationToRunning(polls[1..])
  }

  // Container m is the first one running in poll p, the first poll to show any.
  ghost predicate Decides(polls: seq<Option<PodView>>, p: nat, m: nat)
  {
    && p < |polls| && polls[p].Some?
    && (forall q, l | 0 <= q < p && polls[q].Some? && 0 <= l < |polls[q].value.running| ::
          polls[q].value.running[l].None?)
    && m < |polls[p].value.running| && polls[p].value.running[m].Some?
    && (forall l | 0 <= l < m :: polls[p].value.running[l].None?)
  }

  lemma {:induction false} FirstStartIs(running: seq<Option<int>>, m: nat)
    requires m < |running| && running[m].Some? && forall l | 0 <= l < m :: running[l].None?
    ensures FirstStart(running) == running[m]
  {
    if m > 0 {
      FirstStartIs(running[1..], m - 1);
    }
  }

  lemma {:induction false} NoStart(running: seq<Option<int>>)
    ensures FirstStart(running).None? <==> forall l | 0 <= l < |running| :: running[l].None?
  {
    if running != [] {
      NoStart(running[1..]);
      assert forall l | 0 < l < |running| :: running[l] == running[1..][l - 1];
    }
  }

  lemma {:induction false} DecidingPoll(polls: seq<Option<PodView>>, p: nat, m: nat)
    requires Decides(polls, p, m)
    ensures CreationToRunning(polls) == Some(polls[p].value.running[m].value - polls[p].value.created)
  {
    if p == 0 {
      FirstStartIs(polls[0].value.running, m);
    } else {
      if polls[0].Some? {
        NoStart(polls[0].value.running);
      }
      DecidingPoll(polls[1..], p - 1, m);
    }
  }

  method PollCreationToRunning(polls: seq<Option<PodView>>) returns (d: Option<int>)
    ensures d == CreationToRunning(polls)
    ensures d.Some? ==>
              exists p: nat, m: nat ::
                Decides(polls, p, m) && d.value == polls[p].value.running[m].value - polls[p].value.created
    ensures d.None? ==>
              forall p | 0 <= p < |polls| && polls[p].Some? ::
                forall l | 0 <= l < |polls[p].value.running| :: polls[p].value.running[l].None?
  {
    for p := 0 to |polls|
      invariant forall q | 0 <= q < p && polls[q].Some? ::
                  forall l | 0 <= l < |polls[q].value.running| :: polls[q].value.running[l].None?
      invariant CreationToRunning(polls) == CreationToRunning(polls[p..])
    {
      if polls[p].Some? {
        var view := polls[p].value;
        for n := 0 to |view.running|
          invariant forall l | 0 <= l < n :: view.running[l].None?
        {
          if view.running[n].Some? {
            DecidingPoll(polls, p, n);
            return Some(view.running[n].value - view.created);
          }
        }
        NoStart(view.running);
      }
    }
    return None;
  }

  // ---- The image pull event ----

  // strings.Contains.
  predicate Contains(s: string, sub: string)
  {
    StartsWith(s, sub) || (s != [] && Contains(s[1..], sub))
  }

  const PULLED: string := "Successfully pulled image"
  const PRESENT: string := "already present on machine"

  // What one event says, None if nothing about a pull; Some(None) is an unreadable pull.
  function EventPull(message: string): Option<Option<nat>>
  {
    if Contains(message, PULLED) then Some(ParseImagePullDuration(message))
    else if Contains(message, PRESENT) then Some(Some(0))
    else None
  }

  // The first event about a pull decides.
  function PullOf(events: seq<string>): Option<nat>
  {
    if events == [] then None
    else if EventPull(events[0]).Some? then EventPull(events[0]).value
    else PullOf(events[1..])
  }

  lemma {:induction false} ContainsIs(s: string, sub: string)
    ensures Contains(s, sub) <==> exists i | 0 <= i <= |s| :: StartsWith(s[i..], sub)
  {
    assert s[0..] == s;
    if s != [] {
      ContainsIs(s[1..], sub);
      forall i | 0 <= i < |s| ensures s[1..][i..] == s[i + 1..] {
      }
      if i :| 0 < i <= |s| && StartsWith(s[i..], sub) {
        assert s[1..][i - 1..] == s[i..];
      }
    }
  }

  // Event n is the first that speaks of a pull.
  predicate FirstMention(events: seq<string>, n: nat)
  {
    && n < |events| && (Contains(events[n], PULLED) || Contains(events[n], PRESENT))
    && forall m | 0 <= m < n :: !Contains(events[m], PULLED) && !Contains(events[m], PRESENT)
  }

  // Listed, and the first event that speaks of a pull tells how long it took, nothing if the image was there.
  ghost predicate Tells(events: Option<seq<string>>, pull: nat)
  {
    && events.Some?
    && exists n: nat ::
         && FirstMention(events.value, n)
         && if Contains(events.value[n], PULLED) then ParseImagePullDuration(events.value[n]) == Some(pull)
            else pull == 0
  }

  // Not listed, none speaks of a pull, or the first that does is of a pull and cannot be read.
  ghost predicate TellsNothing(events: Option<seq<string>>)
  {
    || events.None?
    || (forall n | 0 <= n < |events.value| ::
          !Contains(events.value[n], PULLED) && !Contains(events.value[n], PRESENT))
    || (exists n: nat :: && FirstMention(events.value, n) && Contains(events.value[n], PULLED)
                         && ParseImagePullDuration(events.value[n]).None?)
  }

  // The duration is what the events tell.
  lemma {:induction false} PullTold(events: seq<string>)
    ensures PullOf(events).None? <==> TellsNothing(Some(events))
    ensures forall pull: nat :: PullOf(events) == Some(pull) <==> Tells(Some(events), pull)
  {
    if n: nat :| FirstMention(events, n) {
      FirstPull(events, n);
      forall m: nat | FirstMention(events, m) ensures m == n {
      }
    } else {
      NoMention(events);
      NoPull(events);
    }
  }

  lemma {:induction false} NoMention(events: seq<string>)
    requires forall n: nat :: !FirstMention(events, n)
    ensures forall n | 0 <= n < |events| :: !Contains(events[n], PULLED) && !Contains(events[n], PRESENT)
  {
    if n: nat :| n < |events| && (Contains(events[n], PULLED) || Contains(events[n], PRESENT)) {
      var m := 0;
      while !Contains(events[m], PULLED) && !Contains(events[m], PRESENT)
        invariant m <= n
        invariant forall k | 0 <= k < m :: !Contains(events[k], PULLED) && !Contains(events[k], PRESENT)
        decreases n - m
      {
        m := m + 1;
      }
      assert FirstMention(events, m);
    }
  }

  lemma {:induction false} NoPull(events: seq<string>)
    requires forall n | 0 <= n < |events| :: !Contains(events[n], PULLED) && !Contains(events[n], PRESENT)
    ensures PullOf(events).None?
  {
    if events != [] {
      NoPull(events[1..]);
    }
  }

  method GetImagePullDuration(events: Option<seq<string>>) returns (d: Option<nat>)
    ensures d.None? <==> TellsNothing(events)
    ensures forall pull: nat :: d == Some(pull) <==> Tells(events, pull)
    ensures d == if events.Some? then PullOf(events.value) else None
  {
    if events.None? {
      return None;
    }
    PullTold(events.value);
    for n := 0 to |events.value|
      invariant PullOf(events.value) == PullOf(events.value[n..])
    {
      var message := events.value[n];
      if Contains(message, PULLED) {
        d := ParseImagePullDuration(message);
        return;
      }
      if Contains(message, PRESENT) {
        return Some(0);
      }
    }
    return None;
  }

  // ---- Rounding ----

  // Duration.Round(time.Second): half away from zero.
  function RoundToSecond(d: int): int
  {
    if d >= 0 then
      var r := d % SECOND;
      if r + r < SECOND then d - r else d + SECOND - r
    else
      var r := (-d) % SECOND;
      if r + r < SECOND then d + r else d - SECOND + r
  }

  // RoundToSecond picks the nearest whole second and breaks ties away from zero.
  lemma RoundIsNearest(d: int)
    ensures RoundToSecond(d) % SECOND == 0
    ensures d >= 0 ==> d - 500 * MILLISECOND < RoundToSecond(d) <= d + 500 * MILLISECOND
    ensures d < 0 ==> d - 500 * MILLISECOND <= RoundToSecond(d) < d + 500 * MILLISECOND
  {
  }

  // The startup duration compared with the limit, when both measurements exist.
  function Compared(o: Observation): Option<int>
  {
    if o.events.None? || CreationToRunning(o.polls).None? || PullOf(o.events.value).None? then None
    else Some(RoundToSecond(CreationToRunning(o.polls).value - PullOf(o.events.value).value))
  }

  predicate Reachable(o: Observation)
  {
    o.ip.Some? && o.ip.value != [] && o.dial.None?
  }

  // ---- How accurate the verdict is ----

  function TruncatedTo(t: int, unit: nat): int
    requires unit > 0
  {
    t - t % unit
  }

  // The kubelet's message about a pull that took `pull`, printed to the millisecond.
  function KubeletMessage(middle: string, pull: nat, after: string): string
  {
    PullMessage(PULLED + middle, pull / MILLISECOND, after)
  }

  // Event n is the first about a pull. It reports a pull that took `pull`, or an image already present.
  ghost predicate Pulls(events: seq<string>, n: nat, pull: nat)
  {
    && n < |events| && (forall m | 0 <= m < n :: EventPull(events[m]).None?)
    && (|| (exists middle, after ::
              events[n] == KubeletMessage(middle, pull, after) && forall i | 0 <= i < |middle| :: middle[i] != '(')
        || (pull == 0 && Contains(events[n], PRESENT) && !Contains(events[n], PULLED)))
  }

  // The observation of a pod created and started at these times (nanoseconds) whose image took
  // `pull` to get, nothing if it was present: the deciding poll shows the stamps truncated to the
  // second, the event the pull time to the millisecond.
  ghost predicate Observes(o: Observation, created: int, started: int, pull: nat)
  {
    && pull < LIMIT && o.events.Some?
    && (exists p: nat, m: nat ::
          && Decides(o.polls, p, m)
          && o.polls[p].value.created == TruncatedTo(created, SECOND)
          && o.polls[p].value.running[m].value == TruncatedTo(started, SECOND))
    && exists n: nat :: Pulls(o.events.value, n, pull)
  }

  lemma MessageRead(middle: string, pull: nat, after: string)
    requires pull < LIMIT && forall i | 0 <= i < |middle| :: middle[i] != '('
    ensures EventPull(KubeletMessage(middle, pull, after)) == Some(Some(TruncatedTo(pull, MILLISECOND) as nat))
  {
    var before := PULLED + middle;
    var message := KubeletMessage(middle, pull, after);
    PulledHasNoParenthesis();
    assert forall i | 0 <= i < |before| :: before[i] != '(';
    assert pull / MILLISECOND * MILLISECOND == TruncatedTo(pull, MILLISECOND);
    PullDurationRoundTrip(before, pull / MILLISECOND, after);
    var rest := "(" + (DurationText(pull / MILLISECOND) + (WAITING + after));
    assert message == before + rest;
    StartsPulled(middle, rest);
  }

  lemma PulledHasNoParenthesis()
    ensures forall i | 0 <= i < |PULLED| :: PULLED[i] != '('
  {
  }

  lemma StartsPulled(middle: string, rest: string)
    ensures Contains(PULLED + middle + rest, PULLED)
  {
  }

  lemma {:induction false} FirstPull(events: seq<string>, n: nat)
    requires n < |events| && EventPull(events[n]).Some?
    requires forall m | 0 <= m < n :: EventPull(events[m]).None?
    ensures PullOf(events) == EventPull(events[n]).value
  {
    if n > 0 {
      FirstPull(events[1..], n - 1);
    }
  }

  lemma PullRead(events: seq<string>, n: nat, pull: nat)
    requires pull < LIMIT && Pulls(events, n, pull)
    ensures PullOf(events) == Some(TruncatedTo(pull, MILLISECOND) as nat)
  {
    if middle, after
      :| events[n] == KubeletMessage(middle, pull, after) && forall i | 0 <= i < |middle| :: middle[i] != '(' {
      MessageRead(middle, pull, after);
    }
    FirstPull(events, n);
  }

  // The compared duration is within -1.5s and +1.501s of the true startup time.
  lemma ComparedAccuracy(o: Observation, created: int, started: int, pull: nat)
    requires Observes(o, created, started, pull)
    ensures Compared(o).Some?
    ensures -1500 * MILLISECOND < Compared(o).value - (started - created - pull) < 1501 * MILLISECOND
  {
    var p: nat, m: nat :| && Decides(o.polls, p, m)
                && o.polls[p].value.created == TruncatedTo(created, SECOND)
                && o.polls[p].value.running[m].value == TruncatedTo(started, SECOND);
    DecidingPoll(o.polls, p, m);
    var n: nat :| Pulls(o.events.value, n, pull);
    PullRead(o.events.value, n, pull);
    var d := TruncatedTo(started, SECOND) - TruncatedTo(created, SECOND) - TruncatedTo(pull, MILLISECOND);
    RoundIsNearest(d);
    RoundError(started, created, pull, d);
  }

  lemma RoundError(started: int, created: int, pull: nat, d: int)
    requires d == TruncatedTo(started, SECOND) - TruncatedTo(created, SECOND) - TruncatedTo(pull, MILLISECOND)
    ensures -1000 * MILLISECOND < d - (started - created - pull) < 1001 * MILLISECOND
  {
  }

  // ---- The verdict ----

  // A container was seen running before polling ended.
  ghost predicate SeenRunning(polls: seq<Option<PodView>>)
  {
    exists p: nat, m: nat :: Decides(polls, p, m)
  }

  lemma SeenRunningIs(polls: seq<Option<PodView>>)
    ensures SeenRunning(polls) <==> CreationToRunning(polls).Some?
  {
    if p: nat, m: nat :| Decides(polls, p, m) {
      DecidingPoll(polls, p, m);
    } else {
      NothingRunning(polls);
    }
  }

  lemma {:induction false} NothingRunning(polls: seq<Option<PodView>>)
    requires !SeenRunning(polls)
    ensures CreationToRunning(polls).None?
  {
    if polls != [] {
      if polls[0].Some? && FirstStart(polls[0].value.running).Some? {
        var m := FirstRunning(polls[0].value.running);
        assert Decides(polls, 0, m);
      } else {
        forall p: nat, m: nat ensures !Decides(polls[1..], p, m) {
          LaterDecides(polls, p, m);
        }
        NothingRunning(polls[1..]);
      }
    }
  }

  lemma {:induction false} FirstRunning(running: seq<Option<int>>) returns (m: nat)
    requires FirstStart(running).Some?
    ensures m < |running| && running[m].Some? && forall l | 0 <= l < m :: running[l].None?
  {
    if running[0].Some? {
      m := 0;
    } else {
      var n := FirstRunning(running[1..]);
      m := n + 1;
    }
  }

  lemma LaterDecides(polls: seq<Option<PodView>>, p: nat, m: nat)
    requires polls != [] && (polls[0].Some? ==> FirstStart(polls[0].value.running).None?)
    ensures Decides(polls[1..], p, m) ==> Decides(polls, p + 1, m)
  {
    if Decides(polls[1..], p, m) {
      if polls[0].Some? {
        NoStart(polls[0].value.running);
      }
      forall q, l | 0 <= q < p + 1 && polls[q].Some? && 0 <= l < |polls[q].value.running|
        ensures polls[q].value.running[l].None?
      {
        if q > 0 {
          assert polls[1..][q - 1] == polls[q];
        }
      }
    }
  }

  // What a pod measured to have started in d, against the limit, then addressed and dialled, comes to.
  ghost predicate Rated(o: Observation, d: int, limit: int, v: Verdict)
  {
    if d >= limit then v == Unhealthy(PodStartupDurationExceeded)
    else if o.ip.None? || o.ip.value == [] then v == Failed(NoPodIP)
    else match o.dial
         case None => v == Healthy
         case Some(e) => v == Unhealthy(if e.DeadlineExceeded? then RequestTimeout else RequestFailed)
  }

  // Never seen running: too slow if that is why polling ended.
  function Unstarted(o: Observation): Verdict
  {
    if o.pollEnd.DeadlineExceeded? then Unhealthy(PodStartupDurationExceeded) else Failed(NoRunningContainer)
  }

  // The verdict, by what was observed.
  ghost predicate Judged(o: Observation, limit: int, v: Verdict)
  {
    && Measurable(v)
    && (!SeenRunning(o.polls) && o.pollEnd == DeadlineExceeded ==> v == Unhealthy(PodStartupDurationExceeded))
    && (!SeenRunning(o.polls) && o.pollEnd != DeadlineExceeded ==> v == Failed(NoRunningContainer))
    && (SeenRunning(o.polls) && TellsNothing(o.events) ==> v == Failed(NoPullDuration))
    && (forall p: nat, m: nat, pull: nat | Decides(o.polls, p, m) && Tells(o.events, pull) ::
          Rated(o, RoundToSecond(o.polls[p].value.running[m].value - o.polls[p].value.created - pull), limit, v))
  }

  lemma JudgedUnseen(o: Observation, limit: int, v: Verdict)
    requires CreationToRunning(o.polls).None?
    requires v == Unstarted(o)
    ensures Judged(o, limit, v) && !SeenRunning(o.polls)
  {
    SeenRunningIs(o.polls);
  }

  lemma JudgedUntold(o: Observation, limit: int)
    requires CreationToRunning(o.polls).Some? && (o.events.None? || PullOf(o.events.value).None?)
    ensures Judged(o, limit, Failed(NoPullDuration)) && SeenRunning(o.polls) && TellsNothing(o.events)
  {
    SeenRunningIs(o.polls);
    if o.events.Some? {
      PullTold(o.events.value);
    }
  }

  lemma TellsIs(events: Option<seq<string>>, pull: nat)
    requires events.Some? && Tells(events, pull)
    ensures PullOf(events.value) == Some(pull)
  {
    PullTold(events.value);
  }

  lemma ComparedIs(o: Observation, p: nat, m: nat, pull: nat)
    requires o.events.Some? && Decides(o.polls, p, m) && PullOf(o.events.value) == Some(pull)
    ensures Compared(o) == Some(RoundToSecond(o.polls[p].value.running[m].value - o.polls[p].value.created - pull))
  {
    DecidingPoll(o.polls, p, m);
  }

  lemma ComparedSeen(o: Observation)
    requires Compared(o).Some?
    ensures SeenRunning(o.polls) && !TellsNothing(o.events)
  {
    SeenRunningIs(o.polls);
    PullTold(o.events.value);
  }

  lemma JudgedRated(o: Observation, limit: int, v: Verdict)
    requires Compared(o).Some? && Measurable(v) && Rated(o, Compared(o).value, limit, v)
    ensures Judged(o, limit, v) && SeenRunning(o.polls) && !TellsNothing(o.events)
  {
    ComparedSeen(o);
    forall p: nat, m: nat, pull: nat | Decides(o.polls, p, m) && Tells(o.events, pull)
      ensures Rated(o, RoundToSecond(o.polls[p].value.running[m].value - o.polls[p].value.created - pull), limit, v)
    {
      TellsIs(o.events, pull);
      ComparedIs(o, p, m, pull);
    }
  }

  // Healthy means it really started in time, up to 1.5s; too slow means it really was, up to 1.501s.
  lemma AccurateVerdict(o: Observation, limit: int, v: Verdict)
    requires v == Healthy ==> Compared(o).Some? && Compared(o).value < limit
    requires v == Unhealthy(PodStartupDurationExceeded) && Compared(o).Some? ==> Compared(o).value >= limit
    ensures forall created: int, started: int, pull: nat | Observes(o, created, started, pull) ::
              && (v == Healthy ==> started - created - pull < limit + 1500 * MILLISECOND)
              && (v == Unhealthy(PodStartupDurationExceeded) ==> started - created - pull > limit - 1501 * MILLISECOND)
  {
    forall created: int, started: int, pull: nat | Observes(o, created, started, pull)
      ensures Compared(o).Some?
      ensures -1500 * MILLISECOND < Compared(o).value - (started - created - pull) < 1501 * MILLISECOND
    {
      ComparedAccuracy(o, created, started, pull);
    }
  }

  // The measured duration against the limit, then the pod's address and whether it answers.
  method Rate(o: Observation, started: int, pull: nat, limit: int) returns (v: Verdict)
    requires CreationToRunning(o.polls) == Some(started) && o.events.Some? && PullOf(o.events.value) == Some(pull)
    ensures Compared(o).Some? && Rated(o, Compared(o).value, limit, v)
    ensures Judged(o, limit, v) && SeenRunning(o.polls) && !TellsNothing(o.events)
  {
    if RoundToSecond(started - pull) >= limit {
      v := Unhealthy(PodStartupDurationExceeded);
    } else if o.ip.None? || o.ip.value == [] {
      v := Failed(NoPodIP);
    } else {
      match o.dial {
        case Some(e) => v := Unhealthy(if e.DeadlineExceeded? then RequestTimeout else RequestFailed);
        case None => v := Healthy;
      }
    }
    JudgedRated(o, limit, v);
  }

  // A pod seen running, after `started`.
  method JudgeStarted(o: Observation, started: int, limit: int) returns (v: Verdict)
    requires CreationToRunning(o.polls) == Some(started)
    ensures Judged(o, limit, v) && v != Failed(NoRunningContainer) && SeenRunning(o.polls)
    ensures v == Failed(NoPullDuration) <==> Compared(o).None?
    ensures v == Failed(NoPullDuration) <==> TellsNothing(o.events)
    ensures Compared(o).Some? ==> Rated(o, Compared(o).value, limit, v)
  {
    var pull := GetImagePullDuration(o.events);
    if pull.None? {
      JudgedUntold(o, limit);
      return Failed(NoPullDuration);
    }
    v := Rate(o, started, pull.value, limit);
  }

  method Judge(o: Observation, startupTimeout: int) returns (v: Verdict)
    ensures Measurable(v)
    ensures Judged(o, startupTimeout, v)
    ensures v == Healthy <==> Compared(o).Some? && Compared(o).value < startupTimeout && Reachable(o)
    ensures v == Unhealthy(PodStartupDurationExceeded) <==>
              if CreationToRunning(o.polls).None? then o.pollEnd.DeadlineExceeded?
              else Compared(o).Some? && Compared(o).value >= startupTimeout
    ensures v == Failed(NoRunningContainer) <==> CreationToRunning(o.polls).None? && !o.pollEnd.DeadlineExceeded?
    ensures v == Failed(NoPullDuration) <==> SeenRunning(o.polls) && TellsNothing(o.events)
    ensures v == Failed(NoPodIP) <==>
              Compared(o).Some? && Compared(o).value < startupTimeout && (o.ip.None? || o.ip.value == [])
    // Healthy means it really started in time, up to 1.5s; too slow means it really was, up to 1.501s.
    ensures forall created: int, started: int, pull: nat | Observes(o, created, started, pull) ::
              && (v == Healthy ==> started - created - pull < startupTimeout + 1500 * MILLISECOND)
              && (v == Unhealthy(PodStartupDurationExceeded) ==>
                    started - created - pull > startupTimeout - 1501 * MILLISECOND)
    ensures v == Unhealthy(RequestTimeout) ==> o.dial == Some(DeadlineExceeded)
    ensures v == Unhealthy(RequestFailed) ==> o.dial.Some? && o.dial != Some(DeadlineExceeded)
  {
    var started := PollCreationToRunning(o.polls);
    if started.None? {
      v := Unstarted(o);
      JudgedUnseen(o, startupTimeout, v);
    } else {
      v := JudgeStarted(o, started.value, startupTimeout);
    }
    AccurateVerdict(o, startupTimeout, v);
  }
}
