/** Cluster compression as a transition system: one transition per atomic action of the simulator. */
module Compression {
  import opened Kube
  import opened NodeFilters
  import opened Placement

  datatype Config = Config(maxSimulated: int, options: Options)

  datatype StopReason = LimitReached | FailedSelectNode | FailedRunInit

  /** Selecting: about to pick a node. Trying: the pods of the picked node are being re-created one by one.
      Exhausted: the filter returned no node. */
  datatype Stage = Selecting | Trying | Exhausted | Stopped(reason: StopReason)

  datatype State = State(
    // the cluster
    nodes: map<string, Node>,
    pods: map<Key, Pod>,
    // the simulator
    createdPods: seq<Pod>,
    createPodIndex: nat,
    bindSuccessPodCount: nat,
    currentNode: string,
    currentNodeUnschedulable: bool,
    simulated: nat,
    // the node filter
    candidateNode: seq<Node>,
    candidateIndex: nat,
    selectedCount: nat,
    // the status
    nodesToScaleDown: seq<string>,
    selectNodeCount: nat,
    schedulerCount: nat,
    failedSchedulerCount: nat,
    stage: Stage)

  datatype Event =
    | Select(node: Node, candidates: seq<Node>, index: nat, created: seq<Pod>)
    | Exhaust
    | Bind(pod: Key, target: string)
    | Unschedulable(pod: Key)
    | Stop(reason: StopReason)

  // ---------------------------------------------------------------- initial states

  ghost predicate WellFormed(nodes: map<string, Node>, pods: map<Key, Pod>) {
    && "" !in nodes
    && (forall n :: n in nodes ==> nodes[n].name == n)
    && (forall k :: k in pods ==> KeyOf(pods[k]) == k && k.namespace != "")
  }

  ghost predicate NothingPending(pods: map<Key, Pod>) {
    forall k :: k in pods ==> !Unbound(pods[k])
  }

  ghost predicate Initial(s: State) {
    && WellFormed(s.nodes, s.pods)
    && NothingPending(s.pods)
    && s.createdPods == [] && s.createPodIndex == 0 && s.bindSuccessPodCount == 0
    && s.simulated == 0 && s.candidateNode == [] && s.candidateIndex == 0 && s.selectedCount == 0
    && s.nodesToScaleDown == [] && s.selectNodeCount == 0
    && s.schedulerCount == 0 && s.failedSchedulerCount == 0
    && s.stage == Selecting
  }

  /** The simulator has not begun. */
  function Start(nodes: map<string, Node>, pods: map<Key, Pod>): State {
    State(nodes, pods, [], 0, 0, "", false, 0, [], 0, 0, [], 0, 0, 0, Selecting)
  }

  // ---------------------------------------------------------------- selecting a node

  ghost predicate Accepted(c: Config, s: State, n: string) {
    n in s.nodes && Passes(c.options, s.nodes[n], s.pods)
  }

  /** batch lists every node that passes the filter once, in any order. */
  ghost predicate ListsAccepted(c: Config, s: State, batch: seq<Node>) {
    && (forall i :: 0 <= i < |batch| ==> batch[i].name in s.nodes && s.nodes[batch[i].name] == batch[i])
    && (forall i :: 0 <= i < |batch| ==> Accepted(c, s, batch[i].name))
    && (forall i, j :: 0 <= i < j < |batch| ==> batch[i].name != batch[j].name)
    && (forall n :: Accepted(c, s, n) ==> exists i :: 0 <= i < |batch| && batch[i].name == n)
  }

  /** SelectNode serves node and leaves the given batch: from the cache as long as it lasts, else from a new batch. */
  ghost predicate Serves(c: Config, s: State, node: Node, batch: seq<Node>, index: nat) {
    if s.candidateIndex < |s.candidateNode| then
      && node == s.candidateNode[s.candidateIndex]
      && (if s.candidateIndex + 1 == |s.candidateNode| then batch == [] && index == 0
          else batch == s.candidateNode && index == s.candidateIndex + 1)
    else
      && ListsAccepted(c, s, batch)
      && |batch| > 0 && node == batch[0] && index == 1
  }

  /** created lists the movable pods of the node once, in any order. */
  ghost predicate ListsMovable(created: seq<Pod>, pods: map<Key, Pod>, node: string) {
    && DistinctKeys(created)
    && (forall i :: 0 <= i < |created| ==>
          && On(pods, KeyOf(created[i]), node)
          && pods[KeyOf(created[i])] == created[i]
          && Movable(created[i]))
    && (forall k :: On(pods, k, node) && Movable(pods[k]) ==> k in KeysOf(created))
  }

  /** The pods once those of the node are deleted and the first one is re-created. */
  function TakenDown(pods: map<Key, Pod>, created: seq<Pod>): map<Key, Pod>
    requires created != []
  {
    (pods - KeysOf(created))[KeyOf(InitPod(created[0])) := InitPod(created[0])]
  }

  /** The node is cordoned and becomes the current one; created are the pods to move. */
  function Opened(s: State, node: Node, batch: seq<Node>, index: nat, created: seq<Pod>): State
    requires node.name in s.nodes
  {
    s.(nodes := s.nodes[node.name := Cordoned(s.nodes[node.name])],
       candidateNode := batch,
       candidateIndex := index,
       selectNodeCount := s.selectNodeCount + 1,
       createdPods := created,
       bindSuccessPodCount := 0,
       createPodIndex := 0,
       currentNode := node.name,
       currentNodeUnschedulable := node.unschedulable)
  }

  /** The current node is given up for good and the next one is due. */
  function ScaledDown(s: State): State
    requires s.currentNode in s.nodes
  {
    s.(nodesToScaleDown := s.nodesToScaleDown + [s.currentNode],
       nodes := s.nodes[s.currentNode := Labelled(s.nodes[s.currentNode], SUCCESS_LABEL)],
       simulated := s.simulated + 1,
       selectedCount := s.selectedCount + 1,
       stage := Selecting)
  }

  function AfterSelect(s: State, node: Node, batch: seq<Node>, index: nat, created: seq<Pod>): State
    requires node.name in s.nodes
  {
    var t := Opened(s, node, batch, index, created);
    if created == [] then ScaledDown(t)
    else t.(pods := TakenDown(s.pods, created), createPodIndex := 1, stage := Trying)
  }

  // ---------------------------------------------------------------- placing pods

  function AfterBind(c: Config, s: State, k: Key, target: string): State
    requires k in s.pods && s.currentNode in s.nodes
  {
    var p := s.pods[k];
    var t := s.(pods := s.pods[k := Bound(p, target)]);
    if PROVISIONER !in p.annotations then t
    else
      var u := t.(schedulerCount := t.schedulerCount + 1);
      if c.maxSimulated > 0 && u.simulated >= c.maxSimulated then u.(stage := Stopped(LimitReached))
      else
        var v := u.(bindSuccessPodCount := u.bindSuccessPodCount + 1);
        if v.createPodIndex < |v.createdPods| then
          var next := InitPod(v.createdPods[v.createPodIndex]);
          v.(pods := v.pods[KeyOf(next) := next], createPodIndex := v.createPodIndex + 1)
        else if v.bindSuccessPodCount == |v.createdPods| then ScaledDown(v)
        else v
  }

  // ---------------------------------------------------------------- rolling back

  function AsMap(ps: seq<Pod>): map<Key, Pod> {
    if ps == [] then map[]
    else AsMap(ps[..|ps| - 1])[KeyOf(ps[|ps| - 1]) := ps[|ps| - 1]]
  }

  /** The pods once the re-created ones are deleted and the originals are put back. */
  function Undo(s: State): map<Key, Pod>
    requires s.createPodIndex <= |s.createdPods|
  {
    (s.pods - KeysOf(s.createdPods[..s.createPodIndex])) + AsMap(s.createdPods)
  }

  function AfterUnschedulable(s: State): State
    requires s.createPodIndex <= |s.createdPods| && s.currentNode in s.nodes
  {
    var n := s.nodes[s.currentNode];
    var restored := if s.currentNodeUnschedulable then n else Uncordoned(n);
    s.(pods := Undo(s),
       nodes := s.nodes[s.currentNode := Labelled(restored, FAILED_LABEL)],
       failedSchedulerCount := s.failedSchedulerCount + 1,
       stage := Selecting)
  }

  // ---------------------------------------------------------------- transitions and runs

  ghost predicate Enabled(c: Config, s: State, e: Event) {
    match e
    case Select(node, batch, index, created) =>
      && s.stage == Selecting
      && Serves(c, s, node, batch, index)
      && node.name in s.nodes
      && (exists k :: On(s.pods, k, node.name))
      && ListsMovable(created, s.pods, node.name)
    case Exhaust =>
      && s.stage == Selecting
      && s.candidateIndex >= |s.candidateNode|
      && forall n :: !Accepted(c, s, n)
    case Bind(k, target) =>
      && s.stage == Trying
      && k in s.pods && Unbound(s.pods[k])
      && target in s.nodes && Schedulable(s.pods, s.nodes[target], s.pods[k])
      && s.currentNode in s.nodes
    case Unschedulable(k) =>
      && s.stage == Trying
      && k in s.pods && Unbound(s.pods[k]) && PROVISIONER in s.pods[k].annotations
      && s.createPodIndex <= |s.createdPods| && s.currentNode in s.nodes
    case Stop(reason) =>
      && s.stage == Exhausted
      && reason in {FailedSelectNode, FailedRunInit}
  }

  ghost function Apply(c: Config, s: State, e: Event): State
    requires Enabled(c, s, e)
  {
    match e
    case Select(node, batch, index, created) => AfterSelect(s, node, batch, index, created)
    case Exhaust =>
      s.(candidateNode := [], candidateIndex := 0, selectNodeCount := s.selectNodeCount + 1, stage := Exhausted)
    case Bind(k, target) => AfterBind(c, s, k, target)
    case Unschedulable(_) => AfterUnschedulable(s)
    case Stop(reason) => s.(stage := Stopped(reason))
  }

  ghost predicate Next(c: Config, s: State, e: Event, t: State) {
    Enabled(c, s, e) && t == Apply(c, s, e)
  }

  /** states[i + 1] follows from states[i] by events[i]. */
  ghost predicate Linked(c: Config, states: seq<State>, events: seq<Event>, i: nat)
    requires |states| == |events| + 1 && i < |events|
  {
    Next(c, states[i], events[i], states[i + 1])
  }

  /** The states follow from one another, from an initial state on. */
  ghost predicate IsRun(c: Config, states: seq<State>, events: seq<Event>) {
    && |states| == |events| + 1
    && Initial(states[0])
    && forall i :: 0 <= i < |events| ==> Linked(c, states, events, i)
  }

  lemma Step(c: Config, states: seq<State>, events: seq<Event>, i: nat)
    requires IsRun(c, states, events) && i < |events|
    ensures Next(c, states[i], events[i], states[i + 1])
  {
    assert Linked(c, states, events, i);
  }

  lemma ExtendLink(c: Config, states: seq<State>, events: seq<Event>, e: Event, t: State, i: nat)
    requires IsRun(c, states, events) && i < |events|
    ensures Linked(c, states + [t], events + [e], i)
  {
    assert Linked(c, states, events, i);
  }

  lemma Extend(c: Config, states: seq<State>, events: seq<Event>, e: Event, t: State)
    requires IsRun(c, states, events) && Next(c, states[|states| - 1], e, t)
    ensures IsRun(c, states + [t], events + [e])
  {
    assert Linked(c, states + [t], events + [e], |events|);
    forall i | 0 <= i < |events| ensures Linked(c, states + [t], events + [e], i) {
      ExtendLink(c, states, events, e, t, i);
    }
  }
}
