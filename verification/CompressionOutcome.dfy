/** What a run of cluster compression has achieved when it stops, and what its counters mean. */
module CompressionOutcome {
  import opened Kube
  import opened NodeFilters
  import opened Compression
  import opened CompressionInvariant
  import opened CompressionSteps
  import opened CompressionTheorems
  import opened CompressionProgress

  // ---------------------------------------------------------------- untried nodes keep what they have

  /** The pod is where it was at the start, now and after a rollback. */
  ghost predicate InPlace(s0: State, s: State, k: Key, n: string) {
    && On(s.pods, k, n) && On(Base(s), k, n)
    && k in s0.pods && s.pods[k] == s0.pods[k] && Base(s)[k] == s0.pods[k]
  }

  lemma StepLeavesInPlace(c: Config, s0: State, s: State, e: Event, t: State, k: Key, n: string)
    requires Next(c, s, e, t) && Attempt(s) && WellFormed(s.nodes, s.pods)
    requires InPlace(s0, s, k, n) && n != ""
    requires e.Select? ==> n != e.node.name
    ensures InPlace(s0, t, k, n)
  {
    match e
    case Select(_, _, _, _) =>
      SelectElsewhere(c, s, e, n);
      SelectConserves(c, s0, s, e);
    case Bind(p, target) =>
      BindPlaces(c, s, p, target);
      BindBase(c, s, p, target);
    case _ =>
  }

  lemma UntriedBefore(c: Config, states: seq<State>, events: seq<Event>, i: nat, n: string)
    requires IsRun(c, states, events) && i < |events| && !Tried(states[0], states[i + 1], n)
    ensures !Tried(states[0], states[i], n)
  {
    if Tried(states[0], states[i], n) {
      TriedStays(c, states, events, i, n);
    }
  }

  /** A pod on a node that has not been tried has not moved. */
  lemma {:induction false} UntriedKeepPods(c: Config, states: seq<State>, events: seq<Event>, i: nat, n: string, k: Key)
    requires IsRun(c, states, events) && i < |states|
    requires n != "" && On(states[0].pods, k, n) && !Tried(states[0], states[i], n)
    ensures InPlace(states[0], states[i], k, n)
  {
    if i == 0 {
    } else {
      var s0, s, e := states[0], states[i - 1], events[i - 1];
      UntriedBefore(c, states, events, i - 1, n);
      UntriedKeepPods(c, states, events, i - 1, n, k);
      RunAttempt(c, states, events, i - 1);
      RunFates(c, states, events, i - 1);
      Step(c, states, events, i - 1);
      if e.Select? { SelectedIsTried(c, states, events, i - 1); }
      StepLeavesInPlace(c, s0, s, e, states[i], k, n);
    }
  }

  /** Pods on nodes outside the cluster, such as excluded ones, never move. */
  lemma PodsElsewhereStay(c: Config, states: seq<State>, events: seq<Event>, i: nat, n: string, k: Key)
    requires IsRun(c, states, events) && i < |states|
    requires n != "" && n !in states[0].nodes && On(states[0].pods, k, n)
    ensures On(states[i].pods, k, n) && states[i].pods[k] == states[0].pods[k]
  {
    RunFates(c, states, events, i);
    assert forall m :: m in states[i].nodesToScaleDown ==> m in states[0].nodes;
    UntriedKeepPods(c, states, events, i, n, k);
  }

  lemma BindKeepsEligible(c: Config, s: State, k: Key, target: string, n: string)
    requires Binds(s, k, target) && WellFormed(s.nodes, s.pods) && Cache(c, s)
    requires Eligible(c, s, n) && n != s.currentNode
    ensures Eligible(c, AfterBind(c, s, k, target), n)
  {
    PendingAccepted(c, s, k);
    BindEligible(c, s, k, target, n);
  }

  lemma RollbackKeepsEligible(c: Config, s: State, n: string)
    requires s.stage == Trying && s.createPodIndex <= |s.createdPods| && s.currentNode in s.nodes
    requires Eligible(c, s, n) && n != s.currentNode
    ensures Eligible(c, AfterUnschedulable(s), n)
  {
  }

  lemma StageKeepsEligible(c: Config, s: State, t: State, n: string)
    requires StageOnly(s, t) && Eligible(c, s, n)
    ensures Eligible(c, t, n)
  {
  }

  lemma SelectKeepsEligible(c: Config, s: State, e: Event, n: string)
    requires e.Select? && Enabled(c, s, e) && NothingPending(s.pods) && WellFormed(s.nodes, s.pods)
    requires Eligible(c, s, n) && n != e.node.name
    ensures Eligible(c, Apply(c, s, e), n)
  {
    SelectEligible(c, s, e, n);
  }

  lemma StepKeepsEligible(c: Config, s: State, e: Event, n: string)
    requires Enabled(c, s, e) && Attempt(s) && WellFormed(s.nodes, s.pods) && Cache(c, s)
    requires Eligible(c, s, n)
    requires e.Select? ==> n != e.node.name
    requires InFlight(s) ==> n != s.currentNode
    ensures Eligible(c, Apply(c, s, e), n)
  {
    match e
    case Select(_, _, _, _) => SelectKeepsEligible(c, s, e, n);
    case Bind(k, target) => BindKeepsEligible(c, s, k, target, n);
    case Unschedulable(_) => RollbackKeepsEligible(c, s, n);
    case Exhaust => StageKeepsEligible(c, s, Apply(c, s, e), n);
    case Stop(_) => StageKeepsEligible(c, s, Apply(c, s, e), n);
  }

  lemma NextKeepsEligible(c: Config, states: seq<State>, events: seq<Event>, i: nat, n: string)
    requires IsRun(c, states, events) && i < |events|
    requires Eligible(c, states[i], n) && !Tried(states[0], states[i + 1], n)
    ensures Eligible(c, states[i + 1], n)
  {
    UntriedBefore(c, states, events, i, n);
    RunAttempt(c, states, events, i);
    RunCache(c, states, events, i);
    Step(c, states, events, i);
    if events[i].Select? { SelectedIsTried(c, states, events, i); }
    StepKeepsEligible(c, states[i], events[i], n);
  }

  /** A node that passed the filter at the start and has not been tried passes it still. */
  lemma {:induction false} UntriedStayEligible(c: Config, states: seq<State>, events: seq<Event>, i: nat, n: string)
    requires IsRun(c, states, events) && i < |states|
    requires Accepted(c, states[0], n) && !Tried(states[0], states[i], n)
    ensures Eligible(c, states[i], n)
  {
    if i == 0 {
    } else {
      UntriedBefore(c, states, events, i - 1, n);
      UntriedStayEligible(c, states, events, i - 1, n);
      NextKeepsEligible(c, states, events, i - 1, n);
    }
  }

  // ---------------------------------------------------------------- the order of candidates

  lemma CacheWaits(c: Config, s: State, e: Event, t: State)
    requires Next(c, s, e, t) && (e.Bind? || e.Unschedulable?)
    ensures t.candidateNode == s.candidateNode && t.candidateIndex == s.candidateIndex
  {
  }

  /** Nothing but a selection touches the batch. */
  lemma {:induction false} CacheKept(c: Config, states: seq<State>, events: seq<Event>, i: nat, j: nat)
    requires IsRun(c, states, events) && i <= j < |states|
    requires forall m :: i <= m < j ==> events[m].Bind? || events[m].Unschedulable?
    ensures states[j].candidateNode == states[i].candidateNode && states[j].candidateIndex == states[i].candidateIndex
  {
    if i == j {
    } else {
      CacheKept(c, states, events, i, j - 1);
      Step(c, states, events, j - 1);
      CacheWaits(c, states[j - 1], events[j - 1], states[j]);
    }
  }

  /** From one selection to the next: the batch is served in its order without leaving a node out, and when it is used
      up the next node is the first of a new batch, which lists all the nodes that pass at that moment. */
  lemma CandidatesAreServedInOrder(c: Config, states: seq<State>, events: seq<Event>, i: nat, j: nat)
    requires IsRun(c, states, events) && i < j < |events| && events[i].Select? && events[j].Select?
    requires forall m :: i < m < j ==> events[m].Bind? || events[m].Unschedulable?
    ensures var d, e := events[i], events[j];
      if d.index < |d.candidates| then
        && e.node == d.candidates[d.index]
        && (if d.index + 1 < |d.candidates| then e.candidates == d.candidates && e.index == d.index + 1
            else e.candidates == [] && e.index == 0)
      else
        && |e.candidates| > 0 && e.node == e.candidates[0] && e.index == 1
        && ListsAccepted(c, states[j], e.candidates)
  {
    Step(c, states, events, i);
    Step(c, states, events, j);
    CacheKept(c, states, events, i + 1, j);
    SelectFields(states[i], events[i].node, events[i].candidates, events[i].index, events[i].created);
  }

  // ---------------------------------------------------------------- the end of a run

  /** The run has ended because the filter returned no node. */
  predicate NoNodeLeft(s: State) {
    s.stage == Exhausted || s.stage == Stopped(FailedSelectNode) || s.stage == Stopped(FailedRunInit)
  }

  lemma {:induction false} NothingAcceptedAtExit(c: Config, states: seq<State>, events: seq<Event>, i: nat, n: string)
    requires IsRun(c, states, events) && i < |states| && NoNodeLeft(states[i])
    ensures !Accepted(c, states[i], n)
  {
    assert i > 0;
    var s, e := states[i - 1], events[i - 1];
    Step(c, states, events, i - 1);
    if e.Stop? {
      NothingAcceptedAtExit(c, states, events, i - 1, n);
    } else if e.Bind? {
      EveryBindProceeds(c, states, events, i - 1);
    }
    assert Accepted(c, states[i], n) ==> Accepted(c, s, n);
  }

  /** When selection gives up, every node of the final cluster fails the filter, and every node that passed it at
      the start has been tried: it is scaled down, or it got the failed label. */
  lemma NothingLeftToTry(c: Config, states: seq<State>, events: seq<Event>, i: nat, n: string)
    requires IsRun(c, states, events) && i < |states| && NoNodeLeft(states[i])
    ensures !Accepted(c, states[i], n)
    ensures Accepted(c, states[0], n) ==> n in states[i].nodesToScaleDown || n in FailedNodes(states[0], states[i])
  {
    NothingAcceptedAtExit(c, states, events, i, n);
    if Accepted(c, states[0], n) && !Tried(states[0], states[i], n) {
      UntriedStayEligible(c, states, events, i, n);
    }
  }

  /** The node is acceptable, and so are its pods, if it has any. */
  ghost predicate Candidate(c: Config, s: State, n: string) {
    && n in s.nodes && NodeAccepted(c.options, s.nodes[n])
    && forall k :: On(s.pods, k, n) ==> PodVerdict(c.options, s.pods[k]).None?
  }

  /** Conversely only candidates of the initial cluster are tried: acceptable nodes, but for possibly not yet running
      a pod. */
  lemma OnlyCandidatesAreTried(c: Config, states: seq<State>, events: seq<Event>, i: nat)
    requires IsRun(c, states, events) && i < |events| && events[i].Select?
    ensures Candidate(c, states[0], events[i].node.name)
  {
    var s0, s, n := states[0], states[i], events[i].node.name;
    SelectedIsUntouched(c, states, events, i);
    StaleCacheIsSound(c, states, events, i);
    Step(c, states, events, i);
    forall k | On(s0.pods, k, n) ensures PodVerdict(c.options, s0.pods[k]).None? {
      UntriedKeepPods(c, states, events, i, n, k);
    }
  }

  /** A run that stopped at the limit has scaled down at least that many nodes. */
  lemma StoppedAtTheLimit(c: Config, states: seq<State>, events: seq<Event>, i: nat)
    requires IsRun(c, states, events) && i < |states| && states[i].stage == Stopped(LimitReached)
    ensures 0 < c.maxSimulated <= |states[i].nodesToScaleDown|
  {
    assert i > 0;
    Step(c, states, events, i - 1);
    if events[i - 1].Bind? {
      EveryBindProceeds(c, states, events, i - 1);
      RunAttempt(c, states, events, i - 1);
      BindCases(c, states[i - 1], events[i - 1].pod, events[i - 1].target);
    }
  }

  // ---------------------------------------------------------------- the counters

  /** The events of a run that satisfy p, counted. */
  function Tally(events: seq<Event>, p: Event -> bool): nat {
    if events == [] then 0
    else Tally(events[..|events| - 1], p) + (if p(events[|events| - 1]) then 1 else 0)
  }

  const IS_SELECTION := (e: Event) => e.Select? || e.Exhaust?
  const IS_BIND := (e: Event) => e.Bind?
  const IS_FAILURE := (e: Event) => e.Unschedulable?

  lemma StepCounts(c: Config, states: seq<State>, events: seq<Event>, i: nat)
    requires IsRun(c, states, events) && i < |events|
    ensures var s, t, e := states[i], states[i + 1], events[i];
      && t.selectNodeCount == s.selectNodeCount + (if e.Select? || e.Exhaust? then 1 else 0)
      && t.schedulerCount == s.schedulerCount + (if e.Bind? then 1 else 0)
      && t.failedSchedulerCount == s.failedSchedulerCount + (if e.Unschedulable? then 1 else 0)
  {
    Step(c, states, events, i);
    if events[i].Bind? {
      RunAttempt(c, states, events, i);
      BindCases(c, states[i], events[i].pod, events[i].target);
    }
  }

  /** The reported counters are the number of selections, of binds and of scheduling failures of the run. */
  lemma {:induction false} CountersCountEvents(c: Config, states: seq<State>, events: seq<Event>, i: nat)
    requires IsRun(c, states, events) && i < |states|
    ensures var s := states[i];
      && s.selectNodeCount == Tally(events[..i], IS_SELECTION)
      && s.schedulerCount == Tally(events[..i], IS_BIND)
      && s.failedSchedulerCount == Tally(events[..i], IS_FAILURE)
  {
    if i == 0 {
    } else {
      CountersCountEvents(c, states, events, i - 1);
      StepCounts(c, states, events, i - 1);
      assert events[..i][..i - 1] == events[..i - 1];
    }
  }

  /** The nodes that got the success label during the run. */
  function SucceededNodes(s0: State, s: State): set<string> {
    set n | n in s.nodes && n in s0.nodes && SUCCESS_LABEL in s.nodes[n].labels && SUCCESS_LABEL !in s0.nodes[n].labels
  }

  /** The status agrees with the labels in the cluster: the nodes listed are those that got the success label, each
      once, the simulator and the filter count the same number, and every selection but the pending one has ended. */
  lemma StatusMatchesCluster(c: Config, states: seq<State>, events: seq<Event>, i: nat)
    requires IsRun(c, states, events) && i < |states|
    ensures var s0, s := states[0], states[i];
      && SucceededNodes(s0, s) == SetOf(s.nodesToScaleDown)
      && |SucceededNodes(s0, s)| == |s.nodesToScaleDown| == s.simulated == s.selectedCount
      && s.failedSchedulerCount == |FailedNodes(s0, s)|
      && s.selectNodeCount == |s.nodesToScaleDown| + s.failedSchedulerCount + (if s.stage == Selecting then 0 else 1)
  {
    var s0, s := states[0], states[i];
    RunFates(c, states, events, i);
    SetOfSize(s.nodesToScaleDown);
    forall n ensures n in SucceededNodes(s0, s) <==> n in s.nodesToScaleDown {
      if n in s0.nodes { assert s.nodes[n] == Expected(s0, s, n); }
      if n in s.nodesToScaleDown { assert Selectable(s0, n); }
    }
  }

  /** The filter rejects a retired node for its success label, whatever its pods: never for the taint it was given. */
  lemma RetiredNodesAreNotTainted(c: Config, states: seq<State>, events: seq<Event>, i: nat, n: string, ps: seq<Pod>)
    requires IsRun(c, states, events) && i < |states| && n in states[i].nodesToScaleDown
    ensures n in states[i].nodes && Filter(c.options, states[i].nodes[n], ps) == Some(SuccessScaleDown)
  {
    RunFates(c, states, events, i);
    assert Selectable(states[0], n);
    assert states[i].nodes[n] == Expected(states[0], states[i], n);
  }

  // ---------------------------------------------------------------- the limit

  /** The bind that completes the drain of a node. */
  predicate CompletesDrain(states: seq<State>, events: seq<Event>, i: nat)
    requires |states| == |events| + 1 && i < |events|
  {
    events[i].Bind? && states[i + 1].stage == Selecting
  }

  function CountDrains(states: seq<State>, events: seq<Event>, i: nat): nat
    requires |states| == |events| + 1 && i <= |events|
  {
    if i == 0 then 0 else CountDrains(states, events, i - 1) + (if CompletesDrain(states, events, i - 1) then 1 else 0)
  }

  /** A drain completes only below the limit. */
  lemma DrainStep(c: Config, states: seq<State>, events: seq<Event>, i: nat)
    requires IsRun(c, states, events) && i < |events| && c.maxSimulated > 0
    ensures |states[i].nodesToScaleDown| <= |states[i + 1].nodesToScaleDown|
    ensures CompletesDrain(states, events, i) ==>
      |states[i].nodesToScaleDown| < c.maxSimulated
      && |states[i + 1].nodesToScaleDown| == |states[i].nodesToScaleDown| + 1
  {
    Step(c, states, events, i);
    if events[i].Bind? {
      RunFates(c, states, events, i);
      RunAttempt(c, states, events, i);
      BindCases(c, states[i], events[i].pod, events[i].target);
    }
  }

  /** With a limit, at most that many nodes are drained by moving pods, in any run. */
  lemma {:induction false} DrainsAreLimited(c: Config, states: seq<State>, events: seq<Event>, i: nat)
    requires IsRun(c, states, events) && i < |states| && c.maxSimulated > 0
    ensures CountDrains(states, events, i) <= |states[i].nodesToScaleDown|
    ensures CountDrains(states, events, i) <= c.maxSimulated
  {
    if i == 0 {
    } else {
      DrainsAreLimited(c, states, events, i - 1);
      DrainStep(c, states, events, i - 1);
    }
  }

  /** A selected node that has nothing to move is retired on the spot, without a look at the limit. */
  lemma LimitIsCrossedExactlyWhen(c: Config, states: seq<State>, events: seq<Event>, i: nat)
    requires IsRun(c, states, events) && i < |events| && c.maxSimulated > 0
    requires |states[i].nodesToScaleDown| <= c.maxSimulated
    ensures |states[i + 1].nodesToScaleDown| > c.maxSimulated <==>
      |states[i].nodesToScaleDown| == c.maxSimulated && events[i].Select? && events[i].created == []
  {
    Step(c, states, events, i);
    if events[i].Bind? {
      EveryBindProceeds(c, states, events, i);
      RunFates(c, states, events, i);
      RunAttempt(c, states, events, i);
      BindCases(c, states[i], events[i].pod, events[i].target);
    }
  }

  ghost predicate RunsMovable(s: State, n: string) {
    exists j :: On(s.pods, j, n) && Movable(s.pods[j])
  }

  /** Every candidate that runs pods runs one that can be moved. */
  ghost predicate EachRunsMovable(c: Config, s: State) {
    forall n :: Candidate(c, s, n) && (exists k :: On(s.pods, k, n)) ==> RunsMovable(s, n)
  }

  /** A node about to be selected runs a movable pod: one it had from the start, or one that was moved there. */
  lemma RunsMovableNow(c: Config, states: seq<State>, events: seq<Event>, i: nat, n: string, k: Key)
    requires IsRun(c, states, events) && i < |states| && On(states[i].pods, k, n)
    requires n in states[0].nodes && !Tried(states[0], states[i], n)
    requires (exists j :: On(states[0].pods, j, n)) ==> RunsMovable(states[0], n)
    ensures RunsMovable(states[i], n)
  {
    var s0, s := states[0], states[i];
    if On(s0.pods, k, n) {
      var m :| On(s0.pods, m, n) && Movable(s0.pods[m]);
      UntriedKeepPods(c, states, events, i, n, m);
    } else {
      PodsAreConserved(c, states, events, i);
      CoreDecides(s.pods[k], s0.pods[k]);
    }
  }

  lemma SomethingToMove(c: Config, states: seq<State>, events: seq<Event>, i: nat)
    requires IsRun(c, states, events) && i < |events| && events[i].Select? && EachRunsMovable(c, states[0])
    ensures events[i].created != []
  {
    var s, n := states[i], events[i].node.name;
    SelectedIsUntouched(c, states, events, i);
    OnlyCandidatesAreTried(c, states, events, i);
    Step(c, states, events, i);
    var k :| On(s.pods, k, n);
    RunsMovableNow(c, states, events, i, n, k);
    var j :| On(s.pods, j, n) && Movable(s.pods[j]);
    assert j in KeysOf(events[i].created);
  }

  /** The transition retires a node with nothing to move although the list is full. */
  ghost predicate IgnoresLimit(c: Config, s: State, e: Event) {
    e.Select? && e.created == [] && |s.nodesToScaleDown| >= c.maxSimulated
  }

  lemma ListGrows(c: Config, states: seq<State>, events: seq<Event>, i: nat)
    requires IsRun(c, states, events) && i < |events|
    ensures |states[i].nodesToScaleDown| <= |states[i + 1].nodesToScaleDown|
    ensures events[i].Select? && events[i].created == [] ==>
      |states[i].nodesToScaleDown| < |states[i + 1].nodesToScaleDown|
  {
    Step(c, states, events, i);
  }

  /** The limit has held in every state so far if and only if no node with nothing to move was selected when the list
      was full. */
  lemma {:induction false} LimitHoldsExactlyWhen(c: Config, states: seq<State>, events: seq<Event>, i: nat)
    requires IsRun(c, states, events) && i < |states| && c.maxSimulated > 0
    ensures (forall j :: 0 <= j <= i ==> |states[j].nodesToScaleDown| <= c.maxSimulated) <==>
      forall j :: 0 <= j < i ==> !IgnoresLimit(c, states[j], events[j])
  {
    if i == 0 {
    } else {
      LimitHoldsExactlyWhen(c, states, events, i - 1);
      ListGrows(c, states, events, i - 1);
      if |states[i - 1].nodesToScaleDown| <= c.maxSimulated {
        LimitIsCrossedExactlyWhen(c, states, events, i - 1);
      }
    }
  }

  /** So the limit holds in every state of every run when each candidate that runs pods runs a movable one. */
  lemma LimitHolds(c: Config, states: seq<State>, events: seq<Event>, i: nat)
    requires IsRun(c, states, events) && i < |states| && c.maxSimulated > 0 && EachRunsMovable(c, states[0])
    ensures |states[i].nodesToScaleDown| <= c.maxSimulated
  {
    LimitHoldsExactlyWhen(c, states, events, i);
    forall j | 0 <= j < i ensures !IgnoresLimit(c, states[j], events[j]) {
      if events[j].Select? { SomethingToMove(c, states, events, j); }
    }
  }
}
