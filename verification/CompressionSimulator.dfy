/** The cluster-compression simulator. Its ghost history is a run of the transition system, so everything proved of
    runs holds of it whenever an event has been handled. */
module CompressionSimulator {
  import opened Kube
  import opened NodeFilters
  import opened Placement
  import opened Compression
  import opened CompressionInvariant
  import opened CompressionSteps
  import opened CompressionTheorems
  import opened CompressionProgress
  import opened CompressionOutcome
  import opened CompressionAdvice
  import opened Cluster
  import opened CompressionFilter
  import opened CompressionLists

  /** What the hook makes of the state in which a pod of the attempt has just been bound. */
  function Reaction(c: Config, s: State): State
    requires s.currentNode in s.nodes
  {
    if c.maxSimulated > 0 && s.simulated >= c.maxSimulated then s.(stage := Stopped(LimitReached))
    else
      var v := s.(bindSuccessPodCount := s.bindSuccessPodCount + 1);
      if v.createPodIndex < |v.createdPods| then
        var next := InitPod(v.createdPods[v.createPodIndex]);
        v.(pods := v.pods[KeyOf(next) := next], createPodIndex := v.createPodIndex + 1)
      else ScaledDown(v)
  }

  /** A bind is the update of the pod followed by the reaction. */
  lemma ReactionToBind(c: Config, s: State, k: Key, target: string)
    requires k in s.pods && s.currentNode in s.nodes && PROVISIONER in s.pods[k].annotations
    requires s.createPodIndex == s.bindSuccessPodCount + 1 <= |s.createdPods|
    ensures AfterBind(c, s, k, target) ==
      Reaction(c, s.(pods := s.pods[k := Bound(s.pods[k], target)], schedulerCount := s.schedulerCount + 1))
  {
  }

  class Simulator {
    const config: Config
    const store: Store
    const framework: Framework<StopReason>
    const nodeFilter: SingleNodeFilter
    var simulated: nat
    var createdPods: seq<Pod>
    var createPodIndex: nat
    var currentNode: string
    var currentNodeUnschedulable: bool
    var bindSuccessPodCount: nat

    ghost var stage: Stage
    ghost var states: seq<State>
    ghost var events: seq<Event>

    /** The abstract state. */
    ghost function View(): State
      reads this, store, framework, nodeFilter
    {
      State(store.nodes, store.pods, createdPods, createPodIndex, bindSuccessPodCount, currentNode,
            currentNodeUnschedulable, simulated, nodeFilter.candidateNode, nodeFilter.candidateIndex,
            nodeFilter.selectedCount, framework.nodesToScaleDown, framework.selectNodeCount,
            framework.schedulerCount, framework.failedSchedulerCount, stage)
    }

    /** The parts belong together, and the framework has stopped exactly when the run has. */
    ghost predicate Wired()
      reads this, store, framework, nodeFilter
    {
      && framework.store == store && framework.saveTo == ""
      && nodeFilter.store == store && nodeFilter.framework == framework && nodeFilter.options == config.options
      && store.Valid()
      && (framework.stopped <==> stage.Stopped?)
      && (stage.Stopped? ==> framework.stopReason == Some(stage.reason))
    }

    /** The run so far ends in s. */
    ghost predicate RanTo(s: State)
      reads this
    {
      IsRun(config, states, events) && states[|states| - 1] == s
    }

    ghost predicate Valid()
      reads this, store, framework, nodeFilter
    {
      Wired() && RanTo(View())
    }

    constructor (config: Config, nodes: map<string, Node>, pods: map<Key, Pod>)
      requires WellFormed(nodes, pods) && NothingPending(pods)
      ensures Valid() && stage == Selecting && events == []
      ensures store.nodes == nodes && store.pods == pods
      ensures fresh(store) && fresh(framework) && fresh(nodeFilter)
    {
      var api := new Store(nodes, pods);
      var fw := new Framework<StopReason>(api, "");
      var nf := new SingleNodeFilter(api, fw, config.options);
      this.config, store, framework, nodeFilter := config, api, fw, nf;
      simulated, createdPods, createPodIndex, bindSuccessPodCount := 0, [], 0, 0;
      currentNode, currentNodeUnschedulable := "", false;
      stage := Selecting;
      new;
      states, events := [View()], [];
    }

    /** Appends the transition that led to the present state. */
    ghost method Record(e: Event)
      requires |states| > 0 && IsRun(config, states, events)
      requires Next(config, states[|states| - 1], e, View())
      modifies this`states, this`events
      ensures RanTo(View())
      ensures states == old(states) + [View()] && events == old(events) + [e]
    {
      Extend(config, states, events, e, View());
      states, events := states + [View()], events + [e];
    }

    // -------------------------------------------------------------- nodes

    method Cordon(nodeName: string) returns (err: Option<Error>)
      requires store.Valid()
      modifies store`nodes
      ensures store.Valid()
      ensures err.None? <==> nodeName in old(store.nodes)
      ensures err.None? ==> store.nodes == old(store.nodes)[nodeName := Cordoned(old(store.nodes)[nodeName])]
      ensures err.None? ==> store.nodes[nodeName] == old(store.nodes)[nodeName].(
        taints := [Taint("node.kubernetes.io/unschedulable", "", NoSchedule)]
                  + OtherTaints(old(store.nodes)[nodeName].taints))
      ensures err.Some? ==> store.nodes == old(store.nodes)
    {
      var node := store.GetNode(nodeName);
      if node.None? {
        return Some(NotFound);
      }
      var ts := node.value.taints;
      var taints := [UNSCHEDULABLE];
      for i := 0 to |ts|
        invariant taints == [UNSCHEDULABLE] + OtherTaints(ts[..i])
      {
        assert ts[..i + 1][..i] == ts[..i];
        if ts[i].key != TAINT_UNSCHEDULABLE {
          taints := taints + [ts[i]];
        }
      }
      assert ts[..|ts|] == ts;
      err := store.UpdateNode(node.value.(taints := taints));
    }

    method UnCordon(nodeName: string) returns (err: Option<Error>)
      requires store.Valid()
      modifies store`nodes
      ensures store.Valid()
      ensures err.None? <==> nodeName in old(store.nodes)
      ensures err.None? ==> store.nodes == old(store.nodes)[nodeName := Uncordoned(old(store.nodes)[nodeName])]
      ensures err.Some? ==> store.nodes == old(store.nodes)
    {
      var node := store.GetNode(nodeName);
      if node.None? {
        return Some(NotFound);
      }
      var ts := node.value.taints;
      var taints: seq<Taint> := [];
      for i := 0 to |ts|
        invariant taints == OtherTaints(ts[..i])
      {
        assert ts[..i + 1][..i] == ts[..i];
        if ts[i].key != TAINT_UNSCHEDULABLE {
          taints := taints + [ts[i]];
        }
      }
      assert ts[..|ts|] == ts;
      err := store.UpdateNode(node.value.(taints := taints));
    }

    method AddLabelToNode(nodeName: string, labelKey: string) returns (err: Option<Error>)
      requires store.Valid()
      modifies store`nodes
      ensures store.Valid()
      ensures err.None? <==> nodeName in old(store.nodes)
      ensures err.None? ==> store.nodes == old(store.nodes)[nodeName := Labelled(old(store.nodes)[nodeName], labelKey)]
      ensures err.None? ==> store.nodes[nodeName] == old(store.nodes)[nodeName].(
        labels := old(store.nodes)[nodeName].labels[labelKey := "true"])
      ensures err.Some? ==> store.nodes == old(store.nodes)
    {
      var node := store.GetNode(nodeName);
      if node.None? {
        return Some(NotFound);
      }
      err := store.UpdateNode(Labelled(node.value, labelKey));
    }

    // -------------------------------------------------------------- pods

    method DeletePodsByNode(nodeName: string) returns (err: Option<Error>)
      requires store.Valid() && framework.store == store
      modifies store`pods, this`createdPods
      ensures store.Valid()
      ensures err.None? <==> exists k :: On(old(store.pods), k, nodeName)
      ensures err.None? ==> ListsMovable(createdPods, old(store.pods), nodeName)
      ensures err.None? ==> store.pods == old(store.pods) - KeysOf(createdPods)
      ensures err.None? ==> forall k :: k in old(store.pods) ==>
        var p := old(store.pods)[k];
        k !in store.pods <==>
          p.nodeName == nodeName && !p.terminating
          && forall j :: 0 <= j < |p.ownerKinds| ==> p.ownerKinds[j] != "DaemonSet"
      ensures err.Some? ==> store.pods == old(store.pods) && createdPods == old(createdPods)
    {
      ghost var before := store.pods;
      var podList, e := framework.GetPodsByNode(nodeName);
      if e.Some? {
        return e;
      }
      assert On(before, KeyOf(podList[0]), nodeName);
      var created: seq<Pod> := [];
      for i := 0 to |podList|
        invariant store.Valid() && createdPods == old(createdPods)
        invariant created == MovableOf(podList[..i])
        invariant store.pods == before - KeysOf(created)
      {
        assert podList[..i + 1][..i] == podList[..i];
        if Movable(podList[i]) {
          MovableOfFresh(podList, i);
          DeleteOne(before, created, podList[i]);
          created := created + [podList[i]];
          var de := store.DeletePod(KeyOf(podList[i]));
          if de.Some? {
            return de;
          }
        }
      }
      assert podList[..|podList|] == podList;
      MovableOfLists(podList, before, nodeName);
      createdPods := created;
      forall k | k in before
        ensures k !in store.pods <==>
          before[k].nodeName == nodeName && !before[k].terminating
          && forall j :: 0 <= j < |before[k].ownerKinds| ==> before[k].ownerKinds[j] != "DaemonSet"
      {
        TakenExactlyWhen(created, before, nodeName, k);
      }
      err := None;
    }

    /** Deletes the pods re-created so far, last one first. */
    method DeleteCreatedPods() returns (err: Option<Error>)
      requires store.Valid() && DistinctKeys(createdPods) && createPodIndex <= |createdPods|
      modifies store`pods
      ensures store.Valid()
      ensures err.None? <==> forall i :: 0 <= i < createPodIndex ==> KeyOf(createdPods[i]) in old(store.pods)
      ensures err.None? ==> store.pods == old(store.pods) - KeysOf(createdPods[..createPodIndex])
    {
      ghost var before := store.pods;
      var index := createPodIndex;
      while index > 0
        invariant 0 <= index <= createPodIndex && store.Valid()
        invariant store.pods == before - KeysOf(createdPods[index..createPodIndex])
        invariant forall i :: index <= i < createPodIndex ==> KeyOf(createdPods[i]) in before
      {
        index := index - 1;
        DeleteBackwards(before, createdPods, index, createPodIndex);
        err := store.DeletePod(KeyOf(createdPods[index]));
        if err.Some? {
          return;
        }
      }
      assert createdPods[0..createPodIndex] == createdPods[..createPodIndex];
      err := None;
    }

    /** Creates the originals, in order; before is the store before the re-created pods were deleted. */
    method RecreateOriginals(ghost before: map<Key, Pod>) returns (err: Option<Error>)
      requires store.Valid() && DistinctKeys(createdPods) && createPodIndex <= |createdPods|
      requires store.pods == before - KeysOf(createdPods[..createPodIndex])
      modifies store`pods
      ensures store.Valid()
      ensures err.None? <==> forall i :: createPodIndex <= i < |createdPods| ==> KeyOf(createdPods[i]) !in before
      ensures err.None? ==> store.pods == old(store.pods) + AsMap(createdPods)
    {
      for i := 0 to |createdPods|
        invariant store.Valid()
        invariant store.pods == (before - KeysOf(createdPods[..createPodIndex])) + AsMap(createdPods[..i])
        invariant forall j :: createPodIndex <= j < i ==> KeyOf(createdPods[j]) !in before
      {
        CreateForwards(before, createdPods, createPodIndex, i);
        err := store.CreatePod(createdPods[i]);
        if err.Some? {
          return;
        }
      }
      assert createdPods[..|createdPods|] == createdPods;
      err := None;
    }

    /** Deletes the pods re-created so far and puts the originals back. */
    method UpdatePodsFromCreatedPods() returns (err: Option<Error>)
      requires store.Valid() && DistinctKeys(createdPods) && createPodIndex <= |createdPods|
      modifies store`pods
      ensures store.Valid()
      ensures err.None? <==>
        && (forall i :: 0 <= i < createPodIndex ==> KeyOf(createdPods[i]) in old(store.pods))
        && (forall i :: createPodIndex <= i < |createdPods| ==> KeyOf(createdPods[i]) !in old(store.pods))
      ensures err.None? ==>
        store.pods == (old(store.pods) - KeysOf(createdPods[..createPodIndex])) + AsMap(createdPods)
    {
      err := DeleteCreatedPods();
      if err.None? {
        err := RecreateOriginals(old(store.pods));
      }
    }

    // -------------------------------------------------------------- the simulation

    /** Nodes that have not been given up or failed. */
    ghost function Left(): nat
      reads this, store, framework, nodeFilter
    {
      if |states| == 0 then 0
      else
        var left := |states[0].nodes| - |framework.nodesToScaleDown| - framework.failedSchedulerCount;
        if left < 0 then 0 else left
    }

    /** Makes the node the current one and cordons it. */
    method Open(node: Node) returns (err: Option<Error>)
      requires Wired() && stage == Selecting && node.name in store.nodes
      modifies this`createdPods, this`bindSuccessPodCount, this`createPodIndex, this`currentNode,
               this`currentNodeUnschedulable, store`nodes
      ensures Wired() && err.None?
      ensures View() == old(View()).(
        nodes := old(store.nodes)[node.name := Cordoned(old(store.nodes)[node.name])],
        createdPods := [],
        bindSuccessPodCount := 0,
        createPodIndex := 0,
        currentNode := node.name,
        currentNodeUnschedulable := node.unschedulable)
    {
      createdPods := [];
      bindSuccessPodCount := 0;
      createPodIndex := 0;
      currentNode := node.name;
      currentNodeUnschedulable := node.unschedulable;
      err := Cordon(node.name);
    }

    /** Cordons the node and deletes its movable pods. */
    method TakeDown(node: Node) returns (err: Option<Error>)
      requires Wired() && stage == Selecting
      requires node.name in store.nodes && exists k :: On(store.pods, k, node.name)
      modifies this`createdPods, this`bindSuccessPodCount, this`createPodIndex, this`currentNode,
               this`currentNodeUnschedulable, store
      ensures Wired() && err.None?
      ensures ListsMovable(createdPods, old(store.pods), node.name)
      ensures View() == old(View()).(
        nodes := old(store.nodes)[node.name := Cordoned(old(store.nodes)[node.name])],
        pods := old(store.pods) - KeysOf(createdPods),
        createdPods := createdPods,
        bindSuccessPodCount := 0,
        createPodIndex := 0,
        currentNode := node.name,
        currentNodeUnschedulable := node.unschedulable)
    {
      err := Open(node);
      if err.Some? {
        return;
      }
      err := DeletePodsByNode(node.name);
    }

    /** Hands the next pod of the attempt to the scheduler. */
    method CreateNextPod() returns (err: Option<Error>)
      requires Wired() && !stage.Stopped? && createPodIndex < |createdPods|
      requires createdPods[createPodIndex].namespace != "" && KeyOf(createdPods[createPodIndex]) !in store.pods
      modifies this`createPodIndex, this`stage, store`pods
      ensures Wired() && err.None?
      ensures var next := InitPod(old(createdPods[createPodIndex]));
        View() == old(View()).(
          pods := old(store.pods)[KeyOf(next) := next], createPodIndex := old(createPodIndex) + 1, stage := Trying)
    {
      PlacingKeepsCore(createdPods[createPodIndex], "");
      err := store.CreatePod(InitPod(createdPods[createPodIndex]));
      if err.Some? {
        return;
      }
      createPodIndex := createPodIndex + 1;
      stage := Trying;
    }

    /** The current node can be scaled down. */
    method RetireCurrentNode()
      requires Wired() && !stage.Stopped? && currentNode in store.nodes
      modifies this`simulated, this`stage, store`nodes, framework, nodeFilter`selectedCount
      ensures Wired() && View() == ScaledDown(old(View()))
    {
      framework.UpdateNodesToScaleDown(currentNode);
      var err := AddLabelToNode(currentNode, SUCCESS_LABEL);
      if err.Some? {
        assert false;
      }
      simulated := simulated + 1;
      nodeFilter.Done();
      stage := Selecting;
    }

    /** What the invariant says of the state the simulator is in. */
    lemma Facts(s: State)
      requires RanTo(s)
      ensures Cache(config, s) && WellFormed(s.nodes, s.pods) && Attempt(s)
      ensures InFlight(s) ==> s.currentNode in s.nodes
    {
      RunInv(config, states, events, |events|);
    }

    /** Asks the filter for a node. */
    method PickNode() returns (status: SelectStatus)
      requires Valid() && stage == Selecting
      modifies this`stage, this`states, this`events, framework`selectNodeCount, nodeFilter
      ensures Wired() && old(states) <= states && old(events) <= events
      ensures status.Rejected? ==> stage == Exhausted && RanTo(View())
      ensures status.Selected? ==>
        && stage == Selecting && states == old(states) && events == old(events)
        && View() == old(View()).(
             selectNodeCount := old(framework.selectNodeCount) + 1,
             candidateNode := nodeFilter.candidateNode,
             candidateIndex := nodeFilter.candidateIndex)
        && Serves(config, old(View()), status.node, nodeFilter.candidateNode, nodeFilter.candidateIndex)
        && status.node.name in store.nodes && exists k :: On(store.pods, k, status.node.name)
      ensures WellFormed(store.nodes, store.pods)
    {
      ghost var s := View();
      Facts(s);
      framework.selectNodeCount := framework.selectNodeCount + 1;
      status := nodeFilter.SelectNode(config, s);
      if status.Rejected? {
        stage := Exhausted;
        Record(Exhaust);
      } else {
        ServedIsCurrent(config, s, status.node, nodeFilter.candidateNode, nodeFilter.candidateIndex);
      }
    }

    /** Starts the trial of the node taken down, or retires it when it has nothing to move. */
    method TryNode() returns (err: Option<Error>)
      requires Wired() && stage == Selecting && createPodIndex == 0 && currentNode in store.nodes
      requires |createdPods| > 0 ==> createdPods[0].namespace != "" && KeyOf(createdPods[0]) !in store.pods
      modifies this`createPodIndex, this`simulated, this`stage, store, framework, nodeFilter`selectedCount
      ensures Wired() && err.None? && createdPods == old(createdPods)
      ensures View() == if createdPods == [] then ScaledDown(old(View())) else old(View()).(
        pods := old(store.pods)[KeyOf(InitPod(createdPods[0])) := InitPod(createdPods[0])],
        createPodIndex := 1,
        stage := Trying)
    {
      if |createdPods| > 0 {
        err := CreateNextPod();
      } else {
        RetireCurrentNode();
        err := None;
      }
    }

    /** What the two halves of a selection amount to. */
    lemma SelectionIs(s: State, node: Node, batch: seq<Node>, index: nat, created: seq<Pod>)
      requires node.name in s.nodes
      ensures var down := Opened(s, node, batch, index, created).(pods := s.pods - KeysOf(created));
        AfterSelect(s, node, batch, index, created) == if created == [] then ScaledDown(down) else down.(
          pods := down.pods[KeyOf(InitPod(created[0])) := InitPod(created[0])], createPodIndex := 1, stage := Trying)
    {
    }

    /** Acts on the node picked. */
    method ActOn(node: Node) returns (err: Option<Error>)
      requires Wired() && stage == Selecting && WellFormed(store.nodes, store.pods) && framework.selectNodeCount > 0
      requires node.name in store.nodes && exists k :: On(store.pods, k, node.name)
      modifies this`createdPods, this`bindSuccessPodCount, this`createPodIndex, this`currentNode,
               this`currentNodeUnschedulable, this`simulated, this`stage, store, framework, nodeFilter`selectedCount
      ensures Wired() && err.None? && ListsMovable(createdPods, old(store.pods), node.name)
      ensures View() == AfterSelect(
        old(View().(selectNodeCount := framework.selectNodeCount - 1)), node,
        old(nodeFilter.candidateNode), old(nodeFilter.candidateIndex), createdPods)
    {
      ghost var s := View().(selectNodeCount := framework.selectNodeCount - 1);
      err := TakeDown(node);
      if |createdPods| > 0 {
        FirstIsFresh(createdPods, s.pods, node.name);
      }
      err := TryNode();
      SelectionIs(s, node, s.candidateNode, s.candidateIndex, createdPods);
    }

    /** Acts on the node served in state s, as a step of the run. */
    method ActOnServed(node: Node, ghost s: State) returns (err: Option<Error>)
      requires Wired() && RanTo(s) && s.stage == stage == Selecting && WellFormed(store.nodes, store.pods)
      requires View() == s.(
        selectNodeCount := s.selectNodeCount + 1,
        candidateNode := nodeFilter.candidateNode,
        candidateIndex := nodeFilter.candidateIndex)
      requires Serves(config, s, node, nodeFilter.candidateNode, nodeFilter.candidateIndex)
      requires node.name in store.nodes && exists k :: On(store.pods, k, node.name)
      modifies this, store, framework, nodeFilter`selectedCount
      ensures Valid() && err.None? && |states| == |old(states)| + 1
      ensures old(states) <= states && old(events) <= events
      ensures View() == AfterSelect(
        s, node, old(nodeFilter.candidateNode), old(nodeFilter.candidateIndex), createdPods)
    {
      ghost var batch, index := nodeFilter.candidateNode, nodeFilter.candidateIndex;
      err := ActOn(node);
      Record(Select(node, batch, index, createdPods));
    }

    /** Selects one node and tries it; err tells that there was none. */
    method SelectOne() returns (err: Option<Error>)
      requires Valid() && stage == Selecting
      modifies this, store, framework, nodeFilter
      ensures Valid() && old(states) <= states && old(events) <= events
      ensures stage == if err.Some? then Exhausted else if |createdPods| > 0 then Trying else Selecting
      ensures err.None? && |createdPods| == 0 ==>
        |framework.nodesToScaleDown| + framework.failedSchedulerCount
          > |old(framework.nodesToScaleDown)| + old(framework.failedSchedulerCount)
    {
      ghost var s := View();
      var status := PickNode();
      if status.Rejected? {
        return Some(NoNodeSelected);
      }
      err := ActOnServed(status.node, s);
    }

    /** Picks nodes until one has pods to move; on success the first of them is pending. */
    method SelectNextNode() returns (err: Option<Error>)
      requires Valid() && stage == Selecting
      modifies this, store, framework, nodeFilter
      ensures Valid() && old(states) <= states && old(events) <= events
      ensures stage == if err.None? then Trying else Exhausted
      decreases Left()
    {
      err := SelectOne();
      if err.None? && |createdPods| == 0 {
        RunBudget(config, states, events, |events|);
        err := SelectNextNode();
      }
    }

    /** Ends the run after selection found no node. */
    method StopExhausted(reason: StopReason)
      requires Valid() && stage == Exhausted && reason in {FailedSelectNode, FailedRunInit}
      modifies this`stage, this`states, this`events, framework
      ensures Valid() && stage == Stopped(reason)
      ensures old(states) <= states && old(events) <= events
    {
      var _ := framework.Stop(reason);
      stage := Stopped(reason);
      Record(Event.Stop(reason));
    }

    /** Selects the next node, or ends the run. */
    method Continue(reason: StopReason)
      requires Valid() && stage == Selecting && reason in {FailedSelectNode, FailedRunInit}
      modifies this, store, framework, nodeFilter
      ensures Valid() && (stage == Trying || stage == Stopped(reason))
      ensures old(states) <= states && old(events) <= events
    {
      var err := SelectNextNode();
      if err.Some? {
        StopExhausted(reason);
      }
    }

    /** Starts the run. */
    method Run()
      requires Valid() && stage == Selecting
      modifies this, store, framework, nodeFilter
      ensures Valid() && (stage == Trying || stage == Stopped(FailedRunInit))
      ensures old(states) <= states && old(events) <= events
    {
      Continue(FailedRunInit);
    }

    // -------------------------------------------------------------- events

    /** GenericBinder.Bind. */
    method BindPod(key: Key, target: string) returns (err: Option<Error>)
      requires Wired()
      modifies store`pods
      ensures Wired() && View() == old(View()).(pods := store.pods)
      ensures err.None? <==> key in old(store.pods)
      ensures store.pods ==
        if err.None? then old(store.pods)[key := Bound(old(store.pods[key]), target)] else old(store.pods)
    {
      var pod := store.GetPod(key);
      if pod.None? {
        return Some(NotFound);
      }
      err := store.UpdatePod(Bound(pod.value, target));
    }

    /** What the simulator does once the pending pod is bound: stop at the limit, create the next pod of the
        attempt, or retire the node. */
    method PostBindHook() returns (retired: bool)
      requires Wired() && stage == Trying && currentNode in store.nodes
      requires createPodIndex < |createdPods| ==>
        createdPods[createPodIndex].namespace != "" && KeyOf(createdPods[createPodIndex]) !in store.pods
      requires createPodIndex >= |createdPods| ==> bindSuccessPodCount + 1 == |createdPods|
      modifies this`createPodIndex, this`bindSuccessPodCount, this`simulated, this`stage, store, framework,
               nodeFilter`selectedCount
      ensures Wired() && (retired <==> stage == Selecting)
      ensures View() == Reaction(config, old(View()))
    {
      retired := false;
      if config.maxSimulated > 0 && simulated >= config.maxSimulated {
        var _ := framework.Stop(LimitReached);
        stage := Stopped(LimitReached);
        return;
      }
      bindSuccessPodCount := bindSuccessPodCount + 1;
      if |createdPods| > 0 && createPodIndex < |createdPods| {
        var _ := CreateNextPod();
      } else if bindSuccessPodCount == |createdPods| {
        RetireCurrentNode();
        retired := true;
      }
    }

    /** GenericBinder.PostBind: counts the bind and calls the hook, unless the pod is not the simulator's own. */
    method PostBind(pod: Pod) returns (retired: bool)
      requires Wired() && stage == Trying && currentNode in store.nodes
      requires createPodIndex < |createdPods| ==>
        createdPods[createPodIndex].namespace != "" && KeyOf(createdPods[createPodIndex]) !in store.pods
      requires createPodIndex >= |createdPods| ==> bindSuccessPodCount + 1 == |createdPods|
      modifies this`createPodIndex, this`bindSuccessPodCount, this`simulated, this`stage, store, framework,
               nodeFilter`selectedCount
      ensures Wired() && (retired <==> stage == Selecting)
      ensures View() ==
        if PROVISIONER in pod.annotations
        then Reaction(config, old(View().(schedulerCount := framework.schedulerCount + 1)))
        else old(View())
    {
      if PROVISIONER !in pod.annotations {
        return false;
      }
      framework.schedulerCount := framework.schedulerCount + 1;
      retired := PostBindHook();
    }

    /** The pending pod is the simulator's own, and the one created next is not in the way of anything. */
    lemma BindIsRegular(s: State, k: Key)
      requires Shape(s) && OnePending(s) && k in s.pods && Unbound(s.pods[k])
      ensures PROVISIONER in s.pods[k].annotations
      ensures s.createPodIndex == s.bindSuccessPodCount + 1 <= |s.createdPods|
      ensures s.createPodIndex < |s.createdPods| ==>
        var next := s.createdPods[s.createPodIndex]; next.namespace != "" && KeyOf(next) !in s.pods && KeyOf(next) != k
    {
    }

    /** The bind plugin stores the pod and the hook reacts. */
    method BindAndReact(key: Key, target: string) returns (retired: bool)
      requires Wired() && Binds(View(), key, target)
      modifies this`createPodIndex, this`bindSuccessPodCount, this`simulated, this`stage, store, framework,
               nodeFilter`selectedCount
      ensures Wired() && (retired <==> stage == Selecting)
      ensures View() == AfterBind(config, old(View()), key, target)
    {
      BindIsRegular(View(), key);
      ReactionToBind(config, View(), key, target);
      var pod := store.pods[key];
      var _ := BindPod(key, target);
      retired := PostBind(pod);
    }

    /** What a bind needs to know of the trial it goes on with. */
    lemma BindFacts(s: State, key: Key, target: string)
      requires RanTo(s) && s.stage == Trying && key in s.pods && Unbound(s.pods[key])
      requires target in s.nodes && Schedulable(s.pods, s.nodes[target], s.pods[key])
      ensures Binds(s, key, target) && Enabled(config, s, Bind(key, target))
    {
      Facts(s);
    }

    /** Binds the pending pod, as a step of the run. */
    method Place(key: Key, target: string) returns (retired: bool)
      requires Valid() && stage == Trying
      requires key in store.pods && Unbound(store.pods[key])
      requires target in store.nodes && Schedulable(store.pods, store.nodes[target], store.pods[key])
      modifies this`createPodIndex, this`bindSuccessPodCount, this`simulated, this`stage, this`states, this`events,
               store, framework, nodeFilter`selectedCount
      ensures Valid() && stage in {Trying, Selecting, Stopped(LimitReached)} && (retired <==> stage == Selecting)
      ensures old(currentNode in store.nodes)
      ensures states == old(states) + [old(AfterBind(config, View(), key, target))]
      ensures events == old(events) + [Bind(key, target)]
    {
      BindFacts(View(), key, target);
      retired := BindAndReact(key, target);
      Record(Bind(key, target));
    }

    /** The scheduler binds the pending pod; when that was the last one of the attempt, selection goes on. */
    method HandleBind(key: Key, target: string)
      requires Valid() && stage == Trying
      requires key in store.pods && Unbound(store.pods[key])
      requires target in store.nodes && Schedulable(store.pods, store.nodes[target], store.pods[key])
      modifies this, store, framework, nodeFilter
      ensures Valid() && (stage == Trying || stage.Stopped?)
      ensures old(currentNode in store.nodes)
      ensures old(states) + [old(AfterBind(config, View(), key, target))] <= states
      ensures old(events) + [Bind(key, target)] <= events
    {
      var retired := Place(key, target);
      if retired {
        Continue(FailedSelectNode);
      }
    }

    /** Uncordons the current node unless it was unschedulable before, and labels it as failed. */
    method GiveUpCurrentNode()
      requires store.Valid() && currentNode in store.nodes
      modifies store`nodes
      ensures store.Valid()
      ensures var n := old(store.nodes[currentNode]);
        store.nodes == old(store.nodes)[
          currentNode := Labelled(if currentNodeUnschedulable then n else Uncordoned(n), FAILED_LABEL)]
    {
      if !currentNodeUnschedulable {
        var err := UnCordon(currentNode);
        if err.Some? {
          assert false;
        }
      }
      var err := AddLabelToNode(currentNode, FAILED_LABEL);
      if err.Some? {
        assert false;
      }
    }

    /** Undoes the attempt and gives the node up. */
    method RollBack()
      requires Wired() && stage == Trying && currentNode in store.nodes
      requires DistinctKeys(createdPods) && createPodIndex <= |createdPods|
      requires forall i :: 0 <= i < createPodIndex ==> KeyOf(createdPods[i]) in store.pods
      requires forall i :: createPodIndex <= i < |createdPods| ==> KeyOf(createdPods[i]) !in store.pods
      modifies this`stage, store, framework
      ensures Wired() && View() == AfterUnschedulable(old(View()))
    {
      framework.failedSchedulerCount := framework.failedSchedulerCount + 1;
      var err := UpdatePodsFromCreatedPods();
      if err.Some? {
        assert false;
      }
      assert store.pods == old(Undo(View()));
      GiveUpCurrentNode();
      stage := Selecting;
    }

    /** What a rollback needs to know of the trial it ends. */
    lemma TrialFacts(s: State, key: Key)
      requires RanTo(s) && s.stage == Trying && key in s.pods && Unbound(s.pods[key])
      ensures PROVISIONER in s.pods[key].annotations && s.currentNode in s.nodes
      ensures DistinctKeys(s.createdPods) && s.createPodIndex <= |s.createdPods|
      ensures forall i :: 0 <= i < s.createPodIndex ==> KeyOf(s.createdPods[i]) in s.pods
      ensures forall i :: s.createPodIndex <= i < |s.createdPods| ==> KeyOf(s.createdPods[i]) !in s.pods
    {
      Facts(s);
      PendingIsLast(s, key);
    }

    /** Undoes the attempt, as a step of the run. */
    method Abandon(ghost key: Key)
      requires Valid() && stage == Trying
      requires key in store.pods && Unbound(store.pods[key])
      modifies this`stage, this`states, this`events, store, framework
      ensures Valid() && stage == Selecting
      ensures old(createPodIndex <= |createdPods| && currentNode in store.nodes)
      ensures states == old(states) + [old(AfterUnschedulable(View()))]
      ensures events == old(events) + [Unschedulable(key)]
    {
      TrialFacts(View(), key);
      RollBack();
      Record(Unschedulable(key));
    }

    /** The scheduler reports the pending pod unschedulable: roll back, give the node up, and select the next one. */
    method HandleUnschedulable(ghost key: Key)
      requires Valid() && stage == Trying
      requires key in store.pods && Unbound(store.pods[key])
      modifies this, store, framework, nodeFilter
      ensures Valid() && (stage == Trying || stage == Stopped(FailedSelectNode))
      ensures old(createPodIndex <= |createdPods| && currentNode in store.nodes)
      ensures old(states) + [old(AfterUnschedulable(View()))] <= states
      ensures old(events) + [Unschedulable(key)] <= events
    {
      Abandon(key);
      Continue(FailedSelectNode);
    }

    lemma ListedNodes()
      requires Valid()
      ensures forall n :: n in framework.nodesToScaleDown ==>
        && n in store.nodes && Taint("node.kubernetes.io/unschedulable", "", NoSchedule) in store.nodes[n].taints
        && forall k :: On(store.pods, k, n) && Movable(store.pods[k]) ==> ToleratesNode(store.pods[k], store.nodes[n])
    {
      forall n | n in framework.nodesToScaleDown
        ensures n in store.nodes && Taint("node.kubernetes.io/unschedulable", "", NoSchedule) in store.nodes[n].taints
        ensures forall k :: On(store.pods, k, n) && Movable(store.pods[k]) ==>
          ToleratesNode(store.pods[k], store.nodes[n])
      {
        RetiredNodesStayDrained(config, states, events, |events|, n);
        assert store.nodes[n].taints[0] == UNSCHEDULABLE;
      }
    }

    lemma NodesAtExit()
      requires Valid() && NoNodeLeft(View())
      ensures forall n :: n in store.nodes ==> !Passes(config.options, store.nodes[n], store.pods)
      ensures forall n :: n in states[0].nodes && Passes(config.options, states[0].nodes[n], states[0].pods) ==>
        n in framework.nodesToScaleDown || n in FailedNodes(states[0], View())
    {
      forall n
        ensures !Accepted(config, View(), n)
        ensures Accepted(config, states[0], n) ==>
          n in framework.nodesToScaleDown || n in FailedNodes(states[0], View())
      {
        NothingLeftToTry(config, states, events, |events|, n);
      }
      assert forall n :: n in store.nodes ==> !Accepted(config, View(), n);
    }

    /** What the report of a stopped simulator means for the cluster it has in its store. The placement is sound, and no
        pod is left out but those of an attempt cut off by the limit; movable pods left on a listed node tolerate the
        taints it keeps. The limit is reached, or else no node of the store passes the filter any more and every node
        that passed it at the start is listed or has got the failed label. */
    lemma WhenStopped()
      requires Valid() && framework.stopped
      ensures forall n :: n in framework.nodesToScaleDown ==>
        && n in store.nodes && Taint("node.kubernetes.io/unschedulable", "", NoSchedule) in store.nodes[n].taints
        && forall k :: On(store.pods, k, n) && Movable(store.pods[k]) ==> ToleratesNode(store.pods[k], store.nodes[n])
      ensures Sound(config, states[0], View(), store.pods)
      ensures
        if framework.stopReason == Some(LimitReached) then
          && 0 < config.maxSimulated <= |framework.nodesToScaleDown|
          && createPodIndex <= |createdPods|
          && store.pods.Keys == states[0].pods.Keys - KeysOf(createdPods[createPodIndex..])
          && KeysOf(createdPods[createPodIndex..]) <= states[0].pods.Keys
        else
          && store.pods.Keys == states[0].pods.Keys
          && (forall n :: n in store.nodes ==> !Passes(config.options, store.nodes[n], store.pods))
          && forall n :: n in states[0].nodes && Passes(config.options, states[0].nodes[n], states[0].pods) ==>
               n in framework.nodesToScaleDown || n in FailedNodes(states[0], View())
    {
      StoreIsSound(config, states, events, |events|);
      ListedNodes();
      if stage == Stopped(LimitReached) {
        StoppedAtTheLimit(config, states, events, |events|);
      } else {
        assert stage.reason == FailedSelectNode || stage.reason == FailedRunInit;
        NodesAtExit();
      }
    }
  }
}
