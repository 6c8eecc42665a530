/** No state of a run places more on a node than the node can carry. */
module CompressionCapacity {
  import opened Kube
  import opened Placement
  import opened Compression
  import opened CompressionInvariant
  import opened CompressionSteps

  // ---------------------------------------------------------------- every state fits

  ghost predicate WithinCapacity(nodes: map<string, Node>, pods: map<Key, Pod>) {
    forall n, r :: n in nodes ==> Load(pods, n, r) <= Amount(nodes[n].allocatable, r)
  }

  /** after differs from before at most in one node, whose capacity is the same. */
  ghost predicate SameCapacity(before: map<string, Node>, after: map<string, Node>) {
    && after.Keys == before.Keys
    && forall n :: n in before ==> after[n].allocatable == before[n].allocatable
  }

  lemma BindCapacity(c: Config, s: State, k: Key, target: string)
    requires k in s.pods && s.currentNode in s.nodes
    ensures SameCapacity(s.nodes, AfterBind(c, s, k, target).nodes)
  {
  }

  lemma SelectCapacity(s: State, node: Node, batch: seq<Node>, index: nat, created: seq<Pod>)
    requires node.name in s.nodes
    ensures SameCapacity(s.nodes, AfterSelect(s, node, batch, index, created).nodes)
  {
  }

  lemma RollbackCapacity(s: State)
    requires s.createPodIndex <= |s.createdPods| && s.currentNode in s.nodes
    ensures SameCapacity(s.nodes, AfterUnschedulable(s).nodes)
  {
  }

  lemma AllocatableKept(c: Config, s: State, e: Event)
    requires Enabled(c, s, e)
    ensures SameCapacity(s.nodes, Apply(c, s, e).nodes)
  {
    match e
    case Select(node, batch, index, created) => SelectCapacity(s, node, batch, index, created);
    case Bind(k, target) => BindCapacity(c, s, k, target);
    case Unschedulable(_) => RollbackCapacity(s);
    case Exhaust =>
    case Stop(_) =>
  }

  lemma SelectLoad(s: State, e: Event, n: string, r: string)
    requires e.Select? && e.node.name in s.nodes && ListsMovable(e.created, s.pods, e.node.name)
    requires WellFormed(s.nodes, s.pods) && n != "" && e.created != []
    ensures Load(TakenDown(s.pods, e.created), n, r) <= Load(s.pods, n, r)
  {
    var less, first := s.pods - KeysOf(e.created), InitPod(e.created[0]);
    TakenDownAt(s.pods, e.created, e.node.name);
    LoadOfFewer(less, s.pods, n, r);
    LoadWith(less, KeyOf(first), first, n, r);
  }

  /** A bind adds what the pod demands to its target and nothing to any other node. */
  lemma BindLoad(c: Config, s: State, k: Key, target: string, n: string, r: string)
    requires Binds(s, k, target) && n != ""
    ensures Load(AfterBind(c, s, k, target).pods, n, r) ==
      Load(s.pods, n, r) + if n == target then Demand(s.pods[k], r) else 0
  {
    var p := s.pods[k];
    var q := s.pods[k := Bound(p, target)];
    LoadWith(s.pods, k, Bound(p, target), n, r);
    BindPods(c, s, k, target);
    if s.createPodIndex < |s.createdPods| {
      var next := InitPod(s.createdPods[s.createPodIndex]);
      assert k in s.pods;
      LoadWith(q, KeyOf(next), next, n, r);
    }
  }

  lemma StepWithinCapacity(c: Config, s: State, e: Event)
    requires Enabled(c, s, e) && WellFormed(s.nodes, s.pods) && Attempt(s)
    requires WithinCapacity(s.nodes, s.pods) && WithinCapacity(s.nodes, Base(s))
    ensures WithinCapacity(s.nodes, Apply(c, s, e).pods)
  {
    var t := Apply(c, s, e);
    forall n, r | n in s.nodes ensures Load(t.pods, n, r) <= Amount(s.nodes[n].allocatable, r) {
      match e
      case Select(_, _, _, created) =>
        if created != [] { SelectLoad(s, e, n, r); }
      case Bind(k, target) => BindLoad(c, s, k, target, n, r);
      case _ =>
    }
  }

  lemma StepBase(c: Config, s: State, e: Event)
    requires Enabled(c, s, e) && WellFormed(s.nodes, s.pods) && Attempt(s)
    ensures var t := Apply(c, s, e); Base(t) == t.pods || Base(t) == Base(s)
  {
    if e.Select? {
      SelectConserves(c, s, s, e);
    } else if e.Bind? {
      BindBase(c, s, e.pod, e.target);
    } else {
      assert !InFlight(Apply(c, s, e));
    }
  }

  lemma FitsNext(c: Config, states: seq<State>, events: seq<Event>, i: nat)
    requires IsRun(c, states, events) && i < |events|
    requires WithinCapacity(states[i].nodes, states[i].pods) && WithinCapacity(states[i].nodes, Base(states[i]))
    ensures WithinCapacity(states[i + 1].nodes, states[i + 1].pods)
    ensures WithinCapacity(states[i + 1].nodes, Base(states[i + 1]))
  {
    var s, e := states[i], events[i];
    Step(c, states, events, i);
    RunAttempt(c, states, events, i);
    AllocatableKept(c, s, e);
    StepWithinCapacity(c, s, e);
    StepBase(c, s, e);
  }

  /** If the pods fit the nodes at the start, they fit in every state, and would still fit after a rollback. */
  lemma {:induction false} EveryStateFits(c: Config, states: seq<State>, events: seq<Event>, i: nat)
    requires IsRun(c, states, events) && i < |states|
    requires WithinCapacity(states[0].nodes, states[0].pods)
    ensures WithinCapacity(states[i].nodes, states[i].pods)
    ensures WithinCapacity(states[i].nodes, Base(states[i]))
  {
    if i == 0 {
    } else {
      EveryStateFits(c, states, events, i - 1);
      FitsNext(c, states, events, i - 1);
    }
  }
}
