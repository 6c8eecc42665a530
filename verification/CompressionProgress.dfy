/** Runs of cluster compression end, try every node at most once, and leave no acceptable node behind. */
module CompressionProgress {
  import opened Kube
  import opened Compression
  import opened CompressionInvariant
  import opened CompressionSteps
  import opened CompressionTheorems

  // ---------------------------------------------------------------- tried nodes stay tried

  /** The run has selected the node. */
  ghost predicate Tried(s0: State, s: State, n: string) {
    n in s.nodesToScaleDown || n in FailedNodes(s0, s) || (InFlight(s) && n == s.currentNode)
  }

  predicate LabelsKept(before: map<string, Node>, after: map<string, Node>) {
    forall n :: n in before ==> n in after && before[n].labels.Keys <= after[n].labels.Keys
  }

  lemma SelectKeepsLabels(s: State, node: Node, batch: seq<Node>, index: nat, created: seq<Pod>)
    requires node.name in s.nodes
    ensures LabelsKept(s.nodes, AfterSelect(s, node, batch, index, created).nodes)
  {
  }

  lemma BindKeepsLabels(c: Config, s: State, k: Key, target: string)
    requires k in s.pods && s.currentNode in s.nodes
    ensures LabelsKept(s.nodes, AfterBind(c, s, k, target).nodes)
  {
  }

  lemma LabelsGrow(c: Config, s: State, e: Event, t: State)
    requires Next(c, s, e, t)
    ensures LabelsKept(s.nodes, t.nodes)
  {
    match e
    case Select(node, batch, index, created) => SelectKeepsLabels(s, node, batch, index, created);
    case Bind(k, target) => BindKeepsLabels(c, s, k, target);
    case _ =>
  }

  lemma TriedStays(c: Config, states: seq<State>, events: seq<Event>, i: nat, n: string)
    requires IsRun(c, states, events) && i < |events| && Tried(states[0], states[i], n)
    ensures Tried(states[0], states[i + 1], n)
  {
    var s0, s, t, e := states[0], states[i], states[i + 1], events[i];
    RunFates(c, states, events, i);
    Step(c, states, events, i);
    if n in FailedNodes(s0, s) {
      LabelsGrow(c, s, e, t);
    } else if e.Unschedulable? {
      RunAttempt(c, states, events, i);
      RollbackFailed(s0, s);
    } else if e.Bind? {
      RunAttempt(c, states, events, i);
      BindCases(c, s, e.pod, e.target);
    }
  }

  lemma {:induction false} TriedLater(c: Config, states: seq<State>, events: seq<Event>, i: nat, j: nat, n: string)
    requires IsRun(c, states, events) && i <= j < |states| && Tried(states[0], states[i], n)
    ensures Tried(states[0], states[j], n)
  {
    if i == j {
    } else {
      TriedLater(c, states, events, i, j - 1, n);
      TriedStays(c, states, events, j - 1, n);
    }
  }

  lemma SelectedIsTried(c: Config, states: seq<State>, events: seq<Event>, i: nat)
    requires IsRun(c, states, events) && i < |events| && events[i].Select?
    ensures Tried(states[0], states[i + 1], events[i].node.name)
  {
    Step(c, states, events, i);
    if events[i].created == [] {
      var t := states[i + 1];
      assert t.nodesToScaleDown[|t.nodesToScaleDown| - 1] == events[i].node.name;
    }
  }

  /** No node is selected twice. */
  lemma NoReselection(c: Config, states: seq<State>, events: seq<Event>, i: nat, j: nat)
    requires IsRun(c, states, events) && i < j < |events| && events[i].Select? && events[j].Select?
    ensures events[i].node.name != events[j].node.name
  {
    SelectedIsTried(c, states, events, i);
    TriedLater(c, states, events, i + 1, j, events[i].node.name);
    SelectedIsUntouched(c, states, events, j);
    Step(c, states, events, j);
  }

  // ---------------------------------------------------------------- termination

  lemma {:induction false} DistinctSize(ps: seq<Pod>)
    requires DistinctKeys(ps)
    ensures |KeysOf(ps)| == |ps|
  {
    if ps == [] {
      assert KeysOf(ps) == {};
    } else {
      var front, last := ps[..|ps| - 1], ps[|ps| - 1];
      assert ps == front + [last];
      DistinctSize(front);
      assert KeysOf(ps) == KeysOf(front) + {KeyOf(last)};
      assert KeyOf(last) !in KeysOf(front);
    }
  }

  lemma SubsetSize<T>(a: set<T>, b: set<T>)
    requires a <= b
    ensures |a| <= |b|
  {
    assert b == a + (b - a);
  }

  lemma AttemptSize(s0: State, s: State)
    requires Shape(s) && InFlight(s) && Conserved(s0, s)
    ensures |s.createdPods| <= |s0.pods|
  {
    UndoAt(s);
    DistinctSize(s.createdPods);
    SubsetSize(KeysOf(s.createdPods), s0.pods.Keys);
  }

  function SetOf(ns: seq<string>): set<string> {
    set n | n in ns
  }

  lemma {:induction false} SetOfSize(ns: seq<string>)
    requires forall i, j :: 0 <= i < j < |ns| ==> ns[i] != ns[j]
    ensures |SetOf(ns)| == |ns|
  {
    if ns == [] {
    } else {
      var front, last := ns[..|ns| - 1], ns[|ns| - 1];
      assert ns == front + [last];
      SetOfSize(front);
      assert SetOf(ns) == SetOf(front) + {last};
    }
  }

  /** No node has two fates. */
  lemma FatesAreDisjoint(s0: State, s: State)
    requires Fates(s0, s)
    ensures SetOf(s.nodesToScaleDown) !! FailedNodes(s0, s)
    ensures SetOf(s.nodesToScaleDown) + FailedNodes(s0, s) <= s0.nodes.Keys
    ensures InFlight(s) ==>
      s.currentNode in s0.nodes && s.currentNode !in SetOf(s.nodesToScaleDown) + FailedNodes(s0, s)
  {
    forall n | n in SetOf(s.nodesToScaleDown) ensures n in s0.nodes && n !in FailedNodes(s0, s) {
      assert Selectable(s0, n);
      assert s.nodes[n] == Expected(s0, s, n);
    }
  }

  /** The tried nodes are nodes of the cluster, and no node has two fates. */
  lemma TriedSize(s0: State, s: State)
    requires Fates(s0, s) && Accounts(s0, s)
    ensures |s.nodesToScaleDown| + s.failedSchedulerCount + (if InFlight(s) then 1 else 0) <= |s0.nodes|
  {
    var retired, failed := SetOf(s.nodesToScaleDown), FailedNodes(s0, s);
    SetOfSize(s.nodesToScaleDown);
    FatesAreDisjoint(s0, s);
    var all := retired + failed + (if InFlight(s) then {s.currentNode} else {});
    assert |retired + failed| == |retired| + |failed|;
    SubsetSize(all, s0.nodes.Keys);
  }

  /** Nodes not yet given up or failed weigh more than all the binds of one attempt. */
  ghost function Rank(s0: State, s: State): int {
    match s.stage
    case Selecting => (|s0.nodes| - |s.nodesToScaleDown| - s.failedSchedulerCount) * (|s0.pods| + 2) + 2
    case Trying =>
      (|s0.nodes| - |s.nodesToScaleDown| - s.failedSchedulerCount) * (|s0.pods| + 2) + 1 - s.bindSuccessPodCount
    case Exhausted => 1
    case Stopped(_) => 0
  }

  lemma Weigh(a: int, w: int)
    ensures (a - 1) * w == a * w - w
    ensures a >= 0 && w >= 0 ==> a * w >= 0
    ensures a >= 1 && w >= 0 ==> a * w >= w
  {
  }

  /** The nodes still to be tried and the pods still to be bound. */
  ghost predicate Budget(s0: State, s: State) {
    && |s.nodesToScaleDown| + s.failedSchedulerCount <= |s0.nodes|
    && (s.stage == Trying ==>
          && |s.nodesToScaleDown| + s.failedSchedulerCount < |s0.nodes|
          && s.bindSuccessPodCount < |s0.pods|)
  }

  lemma RankBounds(s0: State, s: State)
    requires Budget(s0, s)
    ensures Rank(s0, s) >= 0
    ensures s.stage == Trying ==> Rank(s0, s) >= 2
  {
    Weigh(|s0.nodes| - |s.nodesToScaleDown| - s.failedSchedulerCount, |s0.pods| + 2);
  }

  /** How a transition changes the quantities of the rank. */
  ghost predicate Advances(s0: State, s: State, t: State) {
    match s.stage
    case Selecting =>
      || t.stage == Exhausted
      || (t.stage == Trying && t.bindSuccessPodCount == 0
          && |t.nodesToScaleDown| == |s.nodesToScaleDown| && t.failedSchedulerCount == s.failedSchedulerCount)
      || (t.stage == Selecting
          && |t.nodesToScaleDown| == |s.nodesToScaleDown| + 1 && t.failedSchedulerCount == s.failedSchedulerCount)
    case Trying =>
      || t.stage == Stopped(LimitReached)
      || (t.stage == Trying && t.bindSuccessPodCount == s.bindSuccessPodCount + 1
          && |t.nodesToScaleDown| == |s.nodesToScaleDown| && t.failedSchedulerCount == s.failedSchedulerCount)
      || (t.stage == Selecting
          && |t.nodesToScaleDown| + t.failedSchedulerCount == |s.nodesToScaleDown| + s.failedSchedulerCount + 1)
    case Exhausted => t.stage.Stopped?
    case Stopped(_) => false
  }

  lemma NextAdvances(c: Config, states: seq<State>, events: seq<Event>, i: nat)
    requires IsRun(c, states, events) && i < |events|
    ensures Advances(states[0], states[i], states[i + 1])
  {
    var s, e := states[i], events[i];
    Step(c, states, events, i);
    if e.Bind? {
      RunAttempt(c, states, events, i);
      BindCases(c, s, e.pod, e.target);
    }
  }

  lemma RankDrops(s0: State, s: State, t: State)
    requires Advances(s0, s, t) && Budget(s0, s)
    ensures Rank(s0, t) < Rank(s0, s)
  {
    RankBounds(s0, s);
    Weigh(|s0.nodes| - |s.nodesToScaleDown| - s.failedSchedulerCount, |s0.pods| + 2);
    if t.stage == Selecting {
      assert |s0.nodes| - |t.nodesToScaleDown| - t.failedSchedulerCount
          == |s0.nodes| - |s.nodesToScaleDown| - s.failedSchedulerCount - 1;
    }
  }

  lemma RunBudget(c: Config, states: seq<State>, events: seq<Event>, i: nat)
    requires IsRun(c, states, events) && i < |states|
    ensures Budget(states[0], states[i])
  {
    RunInv(c, states, events, i);
    TriedSize(states[0], states[i]);
    if states[i].stage == Trying {
      AttemptSize(states[0], states[i]);
    }
  }

  /** Every transition lowers the rank, which never drops below zero. */
  lemma EveryStepCounts(c: Config, states: seq<State>, events: seq<Event>, i: nat)
    requires IsRun(c, states, events) && i < |events|
    ensures 0 <= Rank(states[0], states[i + 1]) < Rank(states[0], states[i])
  {
    RunBudget(c, states, events, i);
    RunBudget(c, states, events, i + 1);
    RankBounds(states[0], states[i + 1]);
    NextAdvances(c, states, events, i);
    RankDrops(states[0], states[i], states[i + 1]);
  }

  lemma {:induction false} RankAfter(c: Config, states: seq<State>, events: seq<Event>, i: nat)
    requires IsRun(c, states, events) && i <= |events|
    ensures Rank(states[0], states[i]) <= Rank(states[0], states[0]) - i
  {
    if i == 0 {
    } else {
      RankAfter(c, states, events, i - 1);
      EveryStepCounts(c, states, events, i - 1);
    }
  }

  /** So no run is longer than the nodes times the pods plus two, whatever the scheduler does. */
  lemma RunsEnd(c: Config, states: seq<State>, events: seq<Event>)
    requires IsRun(c, states, events)
    ensures |events| <= |states[0].nodes| * (|states[0].pods| + 2) + 2
  {
    RankAfter(c, states, events, |events|);
    RunBudget(c, states, events, |events|);
    RankBounds(states[0], states[|events|]);
  }
}
