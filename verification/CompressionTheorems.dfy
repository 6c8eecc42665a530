/** What holds over every run of cluster compression. */
module CompressionTheorems {
  import opened Kube
  import opened NodeFilters
  import opened Placement
  import opened Compression
  import opened CompressionInvariant
  import opened CompressionSteps

  // ---------------------------------------------------------------- the candidate cache

  /** A node served from the cache, however old, is the node of the current cluster and passes the filter now. */
  lemma StaleCacheIsSound(c: Config, states: seq<State>, events: seq<Event>, i: nat)
    requires IsRun(c, states, events) && i < |events| && events[i].Select?
    ensures var s, node := states[i], events[i].node;
      && node.name in s.nodes && s.nodes[node.name] == node
      && Passes(c.options, node, s.pods)
  {
    RunInv(c, states, events, i);
    Step(c, states, events, i);
    ServedIsCurrent(c, states[i], events[i].node, events[i].candidates, events[i].index);
  }

  // ---------------------------------------------------------------- rollback

  /** Since the select at i, the node of that select has been tried. */
  ghost predicate Trial(states: seq<State>, events: seq<Event>, i: nat, j: nat)
    requires |states| == |events| + 1
  {
    && i < j < |states|
    && events[i].Select?
    && forall m :: i < m <= j ==> states[m].stage == Trying
  }

  lemma TrialStarts(c: Config, states: seq<State>, events: seq<Event>, i: nat)
    requires IsRun(c, states, events) && i < |events| && events[i].Select? && states[i + 1].stage == Trying
    ensures var s, t, n := states[i], states[i + 1], events[i].node;
      && Base(t) == s.pods && t.currentNode == n.name && n.name in s.nodes
      && t.nodes == s.nodes[n.name := Cordoned(s.nodes[n.name])]
  {
    RunAttempt(c, states, events, i);
    Step(c, states, events, i);
    SelectConserves(c, states[0], states[i], events[i]);
  }

  lemma TrialStep(c: Config, states: seq<State>, events: seq<Event>, m: nat)
    requires IsRun(c, states, events) && m < |events|
    requires states[m].stage == Trying && states[m + 1].stage == Trying
    ensures var s, t := states[m], states[m + 1];
      Base(t) == Base(s) && t.currentNode == s.currentNode && t.nodes == s.nodes
  {
    var s, e := states[m], events[m];
    RunInv(c, states, events, m);
    Step(c, states, events, m);
    assert e.Bind?;
    BindCases(c, s, e.pod, e.target);
    BindKeepsBase(c, s, e.pod, e.target);
  }

  lemma {:induction false} TrialKeepsBase(c: Config, states: seq<State>, events: seq<Event>, i: nat, j: nat)
    requires IsRun(c, states, events) && Trial(states, events, i, j)
    ensures var s, t, n := states[i], states[j], events[i].node;
      && Base(t) == s.pods && t.currentNode == n.name && n.name in s.nodes
      && t.nodes == s.nodes[n.name := Cordoned(s.nodes[n.name])]
  {
    if j == i + 1 {
      TrialStarts(c, states, events, i);
    } else {
      TrialKeepsBase(c, states, events, i, j - 1);
      TrialStep(c, states, events, j - 1);
    }
  }

  /** A node is selected as the run found it at the start. */
  lemma SelectedIsUntouched(c: Config, states: seq<State>, events: seq<Event>, i: nat)
    requires IsRun(c, states, events) && i < |events| && events[i].Select?
    ensures var s0, s, n := states[0], states[i], events[i].node.name;
      && n in s.nodes && n in s0.nodes && s.nodes[n] == s0.nodes[n] && DefaultFilter(s.nodes[n]).None?
      && n !in s.nodesToScaleDown && n !in FailedNodes(s0, s)
  {
    StaleCacheIsSound(c, states, events, i);
    RunFates(c, states, events, i);
    Step(c, states, events, i);
    Untouched(states[0], states[i], events[i].node.name);
  }

  lemma FailedNode(c: Config, states: seq<State>, events: seq<Event>, i: nat, j: nat)
    requires IsRun(c, states, events) && i < j < |events|
    requires events[i].Select? && states[j].stage == Trying
    requires states[j].currentNode == events[i].node.name && states[j].createPodIndex <= |states[j].createdPods|
    ensures var s, n := states[j], events[i].node.name;
      && n in states[i].nodes && s.currentNode in s.nodes
      && AfterUnschedulable(s).nodes == s.nodes[n := GivenUp(states[i].nodes[n])]
  {
    RunFates(c, states, events, j);
    RollbackFailed(states[0], states[j]);
    SelectedIsUntouched(c, states, events, i);
  }

  /** A failed attempt leaves the pods exactly as they were when the node was selected, and one node changed. */
  lemma RollbackIsExact(c: Config, states: seq<State>, events: seq<Event>, i: nat, j: nat)
    requires IsRun(c, states, events) && Trial(states, events, i, j)
    requires j < |events| && events[j].Unschedulable?
    ensures var s, t, n := states[i], states[j + 1], events[i].node.name;
      && t.pods == s.pods
      && n in s.nodes && t.nodes == s.nodes[n := GivenUp(s.nodes[n])]
  {
    TrialKeepsBase(c, states, events, i, j);
    Step(c, states, events, j);
    FailedNode(c, states, events, i, j);
  }

  /** When the cordon and uncordon around a failed attempt give a node its exact taints back:
      a schedulable node has no unschedulable taint to lose, and a node that is already marked
      unschedulable has its taint first, in the plain form, and only once. */
  predicate TaintsSurvive(n: Node) {
    if n.unschedulable then
      && n.taints != [] && n.taints[0] == UNSCHEDULABLE
      && forall t :: t in n.taints[1..] ==> t.key != TAINT_UNSCHEDULABLE
    else
      forall t :: t in n.taints ==> t.key != TAINT_UNSCHEDULABLE
  }

  /** Putting x in front of rest gives s back exactly when s is x followed by rest. */
  lemma ConsIs<T>(x: T, rest: seq<T>, s: seq<T>)
    ensures [x] + rest == s <==> s != [] && s[0] == x && s[1..] == rest
  {
  }

  lemma GivenUpTaints(ts: seq<Taint>)
    ensures [UNSCHEDULABLE] + OtherTaints(ts) == ts <==>
      && ts != [] && ts[0] == UNSCHEDULABLE
      && forall t :: t in ts[1..] ==> t.key != TAINT_UNSCHEDULABLE
  {
    var others := OtherTaints(ts);
    ConsIs(UNSCHEDULABLE, others, ts);
    if ts != [] && ts[0] == UNSCHEDULABLE {
      OtherTaintsCordoned(ts);
      OtherTaintsKeys(ts[1..]);
    }
  }

  /** The taints with other keys survive a failed attempt in order; all of them do exactly when TaintsSurvive. */
  lemma GivenUpNode(n: Node)
    ensures OtherTaints(GivenUp(n).taints) == OtherTaints(n.taints)
    ensures GivenUp(n).taints == n.taints <==> TaintsSurvive(n)
    ensures GivenUp(n) == n.(taints := GivenUp(n).taints, labels := n.labels[FAILED_LABEL := "true"])
  {
    OtherTaintsTwice(n.taints);
    if n.unschedulable {
      GivenUpTaints(n.taints);
    } else {
      OtherTaintsKeys(n.taints);
    }
  }

  // ---------------------------------------------------------------- conservation

  /** What the attempt leaves of the pods, seen from the pods it would roll back to. */
  lemma InFlightCores(s: State)
    requires Shape(s) && InFlight(s)
    ensures forall k :: k in s.pods ==> k in Base(s) && Core(s.pods[k]) == Core(Base(s)[k])
    ensures forall k :: k in Base(s) && !Movable(Base(s)[k]) ==> k in s.pods && s.pods[k] == Base(s)[k]
  {
    UndoAt(s);
    forall k | k in s.pods && k in KeysOf(s.createdPods) ensures Core(s.pods[k]) == Core(Undo(s)[k]) {
      var p :| p in s.createdPods && KeyOf(p) == k;
      var j :| 0 <= j < |s.createdPods| && s.createdPods[j] == p;
    }
  }

  lemma RestKeys(s: State, k: Key)
    requires Shape(s)
    ensures k in KeysOf(s.createdPods[s.createPodIndex..]) <==> k in KeysOf(s.createdPods) && k !in s.pods
  {
  }

  lemma InFlightKeys(s: State)
    requires Shape(s) && InFlight(s)
    ensures s.pods.Keys + KeysOf(s.createdPods[s.createPodIndex..]) == Base(s).Keys
    ensures s.pods.Keys !! KeysOf(s.createdPods[s.createPodIndex..])
  {
    UndoAt(s);
    forall k ensures k in KeysOf(s.createdPods[s.createPodIndex..]) <==> k in KeysOf(s.createdPods) && k !in s.pods {
      RestKeys(s, k);
    }
  }

  lemma InFlightPods(s0: State, s: State)
    requires Shape(s) && InFlight(s) && Conserved(s0, s)
    ensures forall k :: k in s.pods ==> k in s0.pods && Core(s.pods[k]) == Core(s0.pods[k])
    ensures forall k :: k in s0.pods && !Movable(s0.pods[k]) ==> k in s.pods && s.pods[k] == s0.pods[k]
    ensures s.pods.Keys + KeysOf(s.createdPods[s.createPodIndex..]) == s0.pods.Keys
    ensures s.pods.Keys !! KeysOf(s.createdPods[s.createPodIndex..])
  {
    var base := Base(s);
    InFlightCores(s);
    InFlightKeys(s);
    forall k | k in s.pods ensures k in s0.pods && Core(s.pods[k]) == Core(s0.pods[k]) {
      assert k in base;
    }
    forall k | k in s0.pods && !Movable(s0.pods[k]) ensures k in s.pods && s.pods[k] == s0.pods[k] {
      CoreDecides(base[k], s0.pods[k]);
    }
  }

  /** No pod is lost, duplicated or altered beyond its placement; those the attempt still has to create are known. */
  lemma PodsAreConserved(c: Config, states: seq<State>, events: seq<Event>, i: nat)
    requires IsRun(c, states, events) && i < |states|
    ensures var s0, s := states[0], states[i];
      && (forall k :: k in s.pods ==> k in s0.pods && Core(s.pods[k]) == Core(s0.pods[k]))
      && (forall k :: k in s0.pods && !Movable(s0.pods[k]) ==> k in s.pods && s.pods[k] == s0.pods[k])
      && (if InFlight(s) then
            && s.createPodIndex <= |s.createdPods|
            && s.pods.Keys + KeysOf(s.createdPods[s.createPodIndex..]) == s0.pods.Keys
            && s.pods.Keys !! KeysOf(s.createdPods[s.createPodIndex..])
          else s.pods.Keys == s0.pods.Keys)
  {
    RunInv(c, states, events, i);
    if InFlight(states[i]) {
      InFlightPods(states[0], states[i]);
    }
  }

  // ---------------------------------------------------------------- drained nodes

  /** The pods to move are those of the node that are neither terminating nor DaemonSet pods. */
  lemma TakenExactlyWhen(created: seq<Pod>, pods: map<Key, Pod>, n: string, k: Key)
    requires ListsMovable(created, pods, n)
    ensures k in KeysOf(created) <==>
      && k in pods && pods[k].nodeName == n && !pods[k].terminating
      && forall j :: 0 <= j < |pods[k].ownerKinds| ==> pods[k].ownerKinds[j] != "DaemonSet"
  {
    if k in KeysOf(created) {
      var p :| p in created && KeyOf(p) == k;
      Listed(created, pods, n, p);
    } else {
      assert !On(pods, k, n) || !Movable(pods[k]);
    }
  }

  /** A retired node has its other taints behind the cordon and the success label, and holds only unmovable pods and
      pods that tolerate all those taints. */
  lemma RetiredNodesStayDrained(c: Config, states: seq<State>, events: seq<Event>, i: nat, n: string)
    requires IsRun(c, states, events) && i < |states| && n in states[i].nodesToScaleDown
    ensures var s0, s := states[0], states[i];
      && n in s.nodes && n in s0.nodes
      && s.nodes[n].taints ==
           [Taint("node.kubernetes.io/unschedulable", "", NoSchedule)] + OtherTaints(s0.nodes[n].taints)
      && s.nodes[n].labels == s0.nodes[n].labels["kc.k-cloud-labs.io/node-scale-down-success" := "true"]
      && forall k :: k in s.pods && s.pods[k].nodeName == n ==>
           || "DaemonSet" in s.pods[k].ownerKinds || s.pods[k].terminating
           || ToleratesNode(s.pods[k], s.nodes[n])
  {
    RunInv(c, states, events, i);
    Closed(states[0], states[i], n);
    assert Selectable(states[0], n);
    assert states[i].nodes[n] == Expected(states[0], states[i], n);
    assert forall k :: k in states[i].pods && states[i].pods[k].nodeName == n ==> On(states[i].pods, k, n);
  }

  // ---------------------------------------------------------------- pods that are left alone

  /** Terminating pods and DaemonSet pods are in every state exactly as the run found them. */
  lemma ProtectedPodsNeverChange(c: Config, states: seq<State>, events: seq<Event>, i: nat, k: Key)
    requires IsRun(c, states, events) && i < |states| && k in states[0].pods
    requires var p := states[0].pods[k];
      p.terminating || exists j :: 0 <= j < |p.ownerKinds| && p.ownerKinds[j] == "DaemonSet"
    ensures k in states[i].pods && states[i].pods[k] == states[0].pods[k]
  {
    PodsAreConserved(c, states, events, i);
  }

  /** Selecting a node takes down exactly the pods of the node that are neither. */
  lemma OnlyProtectedPodsRemain(c: Config, states: seq<State>, events: seq<Event>, i: nat, k: Key)
    requires IsRun(c, states, events) && i < |events| && events[i].Select?
    ensures var s, t, n := states[i], states[i + 1], events[i].node.name;
      On(t.pods, k, n) <==>
        && On(s.pods, k, n)
        && (s.pods[k].terminating
            || exists j :: 0 <= j < |s.pods[k].ownerKinds| && s.pods[k].ownerKinds[j] == "DaemonSet")
  {
    var s, e := states[i], events[i];
    Step(c, states, events, i);
    RunAttempt(c, states, events, i);
    if e.created != [] {
      TakenDownAt(s.pods, e.created, e.node.name);
    }
    TakenExactlyWhen(e.created, s.pods, e.node.name, k);
  }

  // ---------------------------------------------------------------- one pod at a time

  lemma PendingExactly(s: State)
    requires Shape(s) && OnePending(s)
    ensures forall k :: k in s.pods && Unbound(s.pods[k]) <==> k == KeyOf(s.createdPods[s.bindSuccessPodCount])
  {
  }

  /** While a node is tried exactly one pod is pending, the last one created; otherwise none is. */
  lemma OnePodInFlight(c: Config, states: seq<State>, events: seq<Event>, i: nat)
    requires IsRun(c, states, events) && i < |states|
    ensures var s := states[i];
      if s.stage == Trying then
        && s.createPodIndex == s.bindSuccessPodCount + 1 <= |s.createdPods|
        && forall k :: k in s.pods && Unbound(s.pods[k]) <==> k == KeyOf(s.createdPods[s.bindSuccessPodCount])
      else forall k :: k in s.pods ==> !Unbound(s.pods[k])
  {
    RunInv(c, states, events, i);
    if states[i].stage == Trying {
      PendingExactly(states[i]);
    }
  }

  /** Every bind moves the run on: to the next pod, to the next node, or to the limit. */
  lemma EveryBindProceeds(c: Config, states: seq<State>, events: seq<Event>, i: nat)
    requires IsRun(c, states, events) && i < |events| && events[i].Bind?
    ensures var s, t := states[i], states[i + 1];
      && t.schedulerCount == s.schedulerCount + 1
      && match t.stage
         case Trying => t.createPodIndex == s.createPodIndex + 1 && t.nodesToScaleDown == s.nodesToScaleDown
         case Selecting =>
           s.createPodIndex == |s.createdPods| && t.nodesToScaleDown == s.nodesToScaleDown + [s.currentNode]
         case Stopped(r) => r == LimitReached && 0 < c.maxSimulated <= |s.nodesToScaleDown|
         case Exhausted => false
  {
    RunInv(c, states, events, i);
    Step(c, states, events, i);
    BindCases(c, states[i], events[i].pod, events[i].target);
  }
}
