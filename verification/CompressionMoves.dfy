/** Where the pods that compression moves come from, and where they may go. */
module CompressionMoves {
  import opened Kube
  import opened NodeFilters
  import opened Placement
  import opened Compression
  import opened CompressionInvariant
  import opened CompressionSteps
  import opened CompressionProgress
  import opened CompressionOutcome
  import opened CompressionCapacity

  // ---------------------------------------------------------------- what the scheduler sees of a node's taints

  /** Neither a cordon nor a failed attempt takes a taint that keeps pods away from the node: the only such taint with
      the unschedulable key is the plain one, on a node that is marked unschedulable. */
  predicate Guards(n: Node) {
    forall t :: t in n.taints && t.key == TAINT_UNSCHEDULABLE && !t.effect.PreferNoSchedule? ==>
      n.unschedulable && t == UNSCHEDULABLE
  }

  /** The pod respects all the taints of the node, or the node is a candidate that may lose one and the pod respects
      those with other keys. */
  ghost predicate Admits(c: Config, s0: State, n: string, p: Pod)
    requires n in s0.nodes
  {
    || ToleratesNode(p, s0.nodes[n])
    || (Candidate(c, s0, n) && !Guards(s0.nodes[n]) && ToleratesAll(p, OtherTaints(s0.nodes[n].taints)))
  }

  /** Every taint of the first list that keeps pods away is in the second. */
  predicate Covered(ts: seq<Taint>, others: seq<Taint>) {
    forall t :: t in ts && !t.effect.PreferNoSchedule? ==> t in others
  }

  lemma CoveredIsTolerated(p: Pod, ts: seq<Taint>, others: seq<Taint>)
    requires Covered(ts, others) && ToleratesAll(p, others)
    ensures ToleratesAll(p, ts)
  {
    forall i | 0 <= i < |ts| && !ts[i].effect.PreferNoSchedule? ensures Tolerated(p, ts[i]) {
      var j :| 0 <= j < |others| && others[j] == ts[i];
    }
  }

  lemma CordonCovers(n: Node)
    ensures Covered(OtherTaints(n.taints), Cordoned(n).taints)
    ensures Guards(n) ==> Covered(n.taints, Cordoned(n).taints)
  {
    OtherTaintsKeys(n.taints);
    assert forall t :: t in Cordoned(n).taints <==> t == UNSCHEDULABLE || t in OtherTaints(n.taints);
  }

  lemma GivenUpCovers(n: Node)
    ensures Covered(OtherTaints(n.taints), GivenUp(n).taints)
    ensures Guards(n) ==> Covered(n.taints, GivenUp(n).taints)
  {
    OtherTaintsKeys(n.taints);
    CordonCovers(n);
  }

  /** Whatever has become of a node, a pod that tolerates it now is admitted by the node of the snapshot. */
  lemma ToleratedIsAdmitted(c: Config, s0: State, s: State, n: string, p: Pod)
    requires Fates(s0, s) && n in s.nodes && ToleratesNode(p, s.nodes[n])
    requires Tried(s0, s, n) ==> Candidate(c, s0, n)
    ensures Admits(c, s0, n, p)
  {
    var n0, ts := s0.nodes[n], s.nodes[n].taints;
    assert s.nodes[n] == Expected(s0, s, n);
    CordonCovers(n0);
    GivenUpCovers(n0);
    if Tried(s0, s, n) {
      CoveredIsTolerated(p, OtherTaints(n0.taints), ts);
      if Guards(n0) { CoveredIsTolerated(p, n0.taints, ts); }
    }
  }

  // ---------------------------------------------------------------- exactly which nodes may let a pod in

  /** Tolerates exactly the taints of the list, when they have keys. */
  function TolerationsFor(ts: seq<Taint>): seq<Toleration> {
    seq(|ts|, i requires 0 <= i < |ts| => Toleration(ts[i].key, Equal, ts[i].value, Some(ts[i].effect)))
  }

  function PodFor(ts: seq<Taint>): Pod {
    Pod("default", "pod", "", "", map[], [], false, NoPhase, [], TolerationsFor(ts), [], [], map[])
  }

  lemma PodForTolerates(ts: seq<Taint>, t: Taint)
    requires forall x :: x in ts ==> x.key != ""
    ensures Tolerated(PodFor(ts), t) <==> t in ts
  {
    var tolerations := TolerationsFor(ts);
    assert forall i :: 0 <= i < |ts| ==> (Tolerates(tolerations[i], t) <==> ts[i] == t);
    if t in ts {
      var i :| 0 <= i < |ts| && ts[i] == t;
      assert Tolerates(PodFor(ts).tolerations[i], t);
    }
  }

  lemma PodForToleratesAll(ts: seq<Taint>)
    requires forall x :: x in ts ==> x.key != ""
    ensures ToleratesAll(PodFor(ts), ts)
  {
    forall i | 0 <= i < |ts| ensures Tolerated(PodFor(ts), ts[i]) {
      PodForTolerates(ts, ts[i]);
    }
  }

  lemma WhatIsLeft(n: Node)
    ensures forall t :: t in GivenUp(n).taints <==>
      (t in n.taints && t.key != TAINT_UNSCHEDULABLE) || (n.unschedulable && t == UNSCHEDULABLE)
  {
    OtherTaintsKeys(n.taints);
  }

  /** A pod that tolerates exactly what is left of the taints gets in where the snapshot keeps it out. */
  lemma UnguardedLetsIn(n: Node) returns (p: Pod)
    requires (forall t :: t in n.taints ==> t.key != "") && !Guards(n)
    ensures ToleratesAll(p, GivenUp(n).taints) && !ToleratesNode(p, n)
  {
    var left := GivenUp(n).taints;
    p := PodFor(left);
    WhatIsLeft(n);
    PodForToleratesAll(left);
    var t :| t in n.taints && t.key == TAINT_UNSCHEDULABLE && !t.effect.PreferNoSchedule?
      && !(n.unschedulable && t == UNSCHEDULABLE);
    PodForTolerates(left, t);
    var j :| 0 <= j < |n.taints| && n.taints[j] == t;
  }

  /** A failed attempt lets no pod onto the node that the snapshot keeps away if and only if the node guards its
      taints. (The API server admits no taint without a key.) */
  lemma GuardsExactlyWhen(n: Node)
    requires forall t :: t in n.taints ==> t.key != ""
    ensures Guards(n) <==> forall p :: ToleratesAll(p, GivenUp(n).taints) ==> ToleratesNode(p, n)
  {
    if Guards(n) {
      GivenUpCovers(n);
      forall p | ToleratesAll(p, GivenUp(n).taints) ensures ToleratesNode(p, n) {
        CoveredIsTolerated(p, n.taints, GivenUp(n).taints);
      }
    } else {
      var p := UnguardedLetsIn(n);
    }
  }

  // ---------------------------------------------------------------- where a pod may be

  /** The pod started on a candidate and was handed to the simulator's scheduler, and now waits or runs on a node that
      admits it. */
  ghost predicate Moved(c: Config, s0: State, p: Pod)
    requires KeyOf(p) in s0.pods
  {
    && Candidate(c, s0, s0.pods[KeyOf(p)].nodeName)
    && p.schedulerName == "simulator-scheduler"
    && PROVISIONER in p.annotations && p.annotations[PROVISIONER] == "simulator-scheduler"
    && (p.nodeName == "" ==> p.phase == NoPhase) && (p.nodeName != "" ==> p.phase == Running)
    && (p.nodeName == "" || (p.nodeName in s0.nodes && Admits(c, s0, p.nodeName, p)))
  }

  /** The pod is as the run found it, or has been moved. */
  ghost predicate Settled(c: Config, s0: State, p: Pod) {
    KeyOf(p) in s0.pods && (s0.pods[KeyOf(p)] == p || Moved(c, s0, p))
  }

  ghost predicate AllSettled(c: Config, s0: State, pods: map<Key, Pod>) {
    forall k :: k in pods ==> Settled(c, s0, pods[k])
  }

  lemma AdmitsOfCore(c: Config, s0: State, n: string, p: Pod, q: Pod)
    requires Core(p) == Core(q) && n in s0.nodes
    ensures Admits(c, s0, n, p) == Admits(c, s0, n, q)
  {
    ToleratesOfCore(p, q, OtherTaints(s0.nodes[n].taints));
    ToleratesOfCore(p, q, s0.nodes[n].taints);
  }

  /** A settled pod on a candidate came from a candidate. */
  lemma OriginIsCandidate(c: Config, s0: State, p: Pod)
    requires Settled(c, s0, p) && Candidate(c, s0, p.nodeName)
    ensures Candidate(c, s0, s0.pods[KeyOf(p)].nodeName)
  {
  }

  lemma PreparedIsSettled(c: Config, s0: State, p: Pod)
    requires Settled(c, s0, p) && Candidate(c, s0, p.nodeName) && p.namespace != ""
    ensures Settled(c, s0, InitPod(p))
  {
    OriginIsCandidate(c, s0, p);
    PlacingKeepsCore(p, "");
  }

  lemma BoundIsSettled(c: Config, s0: State, p: Pod, target: string)
    requires Settled(c, s0, p) && Candidate(c, s0, s0.pods[KeyOf(p)].nodeName)
    requires target in s0.nodes && Admits(c, s0, target, p) && target != ""
    requires p.schedulerName == "simulator-scheduler" && p.annotations == p.annotations[PROVISIONER := SCHEDULER_NAME]
    ensures Settled(c, s0, Bound(p, target))
  {
    PlacingKeepsCore(p, target);
    AdmitsOfCore(c, s0, target, p, Bound(p, target));
  }

  // ---------------------------------------------------------------- steps

  lemma SelectSettles(c: Config, s0: State, s: State, e: Event)
    requires e.Select? && e.node.name in s.nodes && ListsMovable(e.created, s.pods, e.node.name)
    requires WellFormed(s.nodes, s.pods) && AllSettled(c, s0, s.pods) && Candidate(c, s0, e.node.name)
    ensures AllSettled(c, s0, AfterSelect(s, e.node, e.candidates, e.index, e.created).pods)
  {
    if e.created != [] {
      var p := e.created[0];
      assert On(s.pods, KeyOf(p), e.node.name) && s.pods[KeyOf(p)] == p;
      PreparedIsSettled(c, s0, p);
    }
  }

  /** Every node tried so far was a candidate. */
  ghost predicate FromCandidates(c: Config, s0: State, s: State) {
    forall n :: Tried(s0, s, n) ==> Candidate(c, s0, n)
  }

  lemma OriginalsAreSettled(c: Config, s0: State, s: State, p: Pod)
    requires Shape(s) && InFlight(s) && FromCandidates(c, s0, s) && AllSettled(c, s0, Base(s)) && p in s.createdPods
    ensures Settled(c, s0, p) && Candidate(c, s0, s0.pods[KeyOf(p)].nodeName) && Settled(c, s0, InitPod(p))
  {
    UndoAt(s);
    assert Base(s)[KeyOf(p)] == p && Tried(s0, s, s.currentNode);
    OriginIsCandidate(c, s0, p);
    PreparedIsSettled(c, s0, p);
  }

  /** The pod the scheduler has placed is settled on its target. */
  lemma PendingSettles(c: Config, s0: State, s: State, k: Key, target: string)
    requires Binds(s, k, target) && FromCandidates(c, s0, s) && Fates(s0, s) && AllSettled(c, s0, Base(s))
    requires target in s.nodes && ToleratesNode(s.pods[k], s.nodes[target])
    ensures Settled(c, s0, Bound(s.pods[k], target))
  {
    var last := s.createdPods[s.createPodIndex - 1];
    assert last in s.createdPods;
    PendingIsLast(s, k);
    OriginalsAreSettled(c, s0, s, last);
    PlacingKeepsCore(last, "");
    ToleratedIsAdmitted(c, s0, s, target, s.pods[k]);
    BoundIsSettled(c, s0, s.pods[k], target);
  }

  lemma NextSettles(c: Config, s0: State, s: State)
    requires Shape(s) && InFlight(s) && FromCandidates(c, s0, s) && AllSettled(c, s0, Base(s))
    requires s.createPodIndex < |s.createdPods|
    ensures Settled(c, s0, InitPod(s.createdPods[s.createPodIndex]))
  {
    OriginalsAreSettled(c, s0, s, s.createdPods[s.createPodIndex]);
  }

  lemma BindSettles(c: Config, s0: State, s: State, k: Key, target: string)
    requires Binds(s, k, target) && AllSettled(c, s0, s.pods) && Settled(c, s0, Bound(s.pods[k], target))
    requires s.createPodIndex < |s.createdPods| ==> Settled(c, s0, InitPod(s.createdPods[s.createPodIndex]))
    ensures AllSettled(c, s0, AfterBind(c, s, k, target).pods)
  {
    BindPods(c, s, k, target);
  }

  lemma TargetIsTolerated(c: Config, s: State, e: Event)
    requires Enabled(c, s, e) && e.Bind? && WellFormed(s.nodes, s.pods) && Attempt(s)
    ensures Binds(s, e.pod, e.target) && ToleratesNode(s.pods[e.pod], s.nodes[e.target])
  {
  }

  lemma StepSettles(c: Config, s0: State, s: State, e: Event)
    requires Enabled(c, s, e) && WellFormed(s.nodes, s.pods) && Attempt(s) && Fates(s0, s)
    requires FromCandidates(c, s0, s) && (e.Select? ==> Candidate(c, s0, e.node.name))
    requires AllSettled(c, s0, s.pods) && AllSettled(c, s0, Base(s))
    ensures AllSettled(c, s0, Apply(c, s, e).pods)
  {
    match e
    case Select(_, _, _, _) => SelectSettles(c, s0, s, e);
    case Bind(k, target) =>
      TargetIsTolerated(c, s, e);
      PendingSettles(c, s0, s, k, target);
      if s.createPodIndex < |s.createdPods| { NextSettles(c, s0, s); }
      BindSettles(c, s0, s, k, target);
    case _ =>
  }

  // ---------------------------------------------------------------- runs

  lemma BindTriesNothing(c: Config, s0: State, s: State, k: Key, target: string, n: string)
    requires Binds(s, k, target) && Tried(s0, AfterBind(c, s, k, target), n)
    ensures Tried(s0, s, n)
  {
    BindCases(c, s, k, target);
    RetireFailed(s0, s);
  }

  lemma RollbackTriesNothing(s0: State, s: State, n: string)
    requires Fates(s0, s) && s.stage == Trying && s.createPodIndex <= |s.createdPods|
    requires Tried(s0, AfterUnschedulable(s), n)
    ensures Tried(s0, s, n)
  {
    RollbackFailed(s0, s);
  }

  lemma SelectTriesOne(s0: State, s: State, node: Node, batch: seq<Node>, index: nat, created: seq<Pod>, n: string)
    requires node.name in s.nodes && Tried(s0, AfterSelect(s, node, batch, index, created), n) && n != node.name
    ensures Tried(s0, s, n)
  {
  }

  lemma NewlyTriedIsSelected(c: Config, states: seq<State>, events: seq<Event>, i: nat, n: string)
    requires IsRun(c, states, events) && i < |events|
    requires !Tried(states[0], states[i], n) && Tried(states[0], states[i + 1], n)
    ensures events[i].Select? && events[i].node.name == n
  {
    var s0, s, e := states[0], states[i], events[i];
    Step(c, states, events, i);
    if e.Select? {
      if n != e.node.name { SelectTriesOne(s0, s, e.node, e.candidates, e.index, e.created, n); }
    } else if e.Bind? {
      RunAttempt(c, states, events, i);
      TargetIsTolerated(c, s, e);
      BindTriesNothing(c, s0, s, e.pod, e.target, n);
    } else if e.Unschedulable? {
      RunFates(c, states, events, i);
      RollbackTriesNothing(s0, s, n);
    }
  }

  /** A node that has been tried was selected, so it was a candidate. */
  lemma {:induction false} TriedIsCandidate(c: Config, states: seq<State>, events: seq<Event>, i: nat, n: string)
    requires IsRun(c, states, events) && i < |states| && Tried(states[0], states[i], n)
    ensures Candidate(c, states[0], n)
  {
    if i == 0 {
    } else if Tried(states[0], states[i - 1], n) {
      TriedIsCandidate(c, states, events, i - 1, n);
    } else {
      NewlyTriedIsSelected(c, states, events, i - 1, n);
      OnlyCandidatesAreTried(c, states, events, i - 1);
    }
  }

  lemma SettledNext(c: Config, states: seq<State>, events: seq<Event>, i: nat)
    requires IsRun(c, states, events) && i < |events|
    requires AllSettled(c, states[0], states[i].pods) && AllSettled(c, states[0], Base(states[i]))
    ensures AllSettled(c, states[0], states[i + 1].pods) && AllSettled(c, states[0], Base(states[i + 1]))
  {
    var s, e := states[i], events[i];
    Step(c, states, events, i);
    RunAttempt(c, states, events, i);
    RunFates(c, states, events, i);
    forall n | Tried(states[0], s, n) ensures Candidate(c, states[0], n) {
      TriedIsCandidate(c, states, events, i, n);
    }
    if e.Select? { OnlyCandidatesAreTried(c, states, events, i); }
    StepSettles(c, states[0], s, e);
    StepBase(c, s, e);
  }

  /** In every state, and after a rollback from it, every pod is as the run found it, or came from a candidate and is
      pending or on a node of the cluster that admits it. */
  lemma {:induction false} EveryPodIsSettled(c: Config, states: seq<State>, events: seq<Event>, i: nat)
    requires IsRun(c, states, events) && i < |states|
    ensures AllSettled(c, states[0], states[i].pods)
    ensures AllSettled(c, states[0], Base(states[i]))
  {
    if i == 0 {
      RunInv(c, states, events, 0);
    } else {
      EveryPodIsSettled(c, states, events, i - 1);
      SettledNext(c, states, events, i - 1);
    }
  }

  /** A pod that is not as the run found it has been prepared for the simulator's scheduler, and runs if it is
      placed. */
  lemma MovedPodsRun(c: Config, states: seq<State>, events: seq<Event>, i: nat, k: Key)
    requires IsRun(c, states, events) && i < |states| && k in states[i].pods
    ensures k in states[0].pods
    ensures var p := states[i].pods[k]; p != states[0].pods[k] ==>
      && p.schedulerName == "simulator-scheduler"
      && p.phase == (if p.nodeName == "" then NoPhase else Running)
      && (p.nodeName == "" || p.nodeName in states[0].nodes)
  {
    EveryPodIsSettled(c, states, events, i);
    RunAttempt(c, states, events, i);
  }

  // ---------------------------------------------------------------- all taints

  /** No candidate can lose a taint that keeps pods away. */
  ghost predicate CandidatesGuard(c: Config, s: State) {
    forall n :: Candidate(c, s, n) ==> Guards(s.nodes[n])
  }

  /** With tainted nodes excluded, as they are by default, candidates have no taint to lose. */
  lemma UntaintedGuard(c: Config, s: State)
    requires c.options.excludeTaintNode
    ensures CandidatesGuard(c, s)
  {
  }

  /** The pod is as the run found it, or pending, or respects all the taints the snapshot gives its node. */
  predicate RespectsTaints(s0: State, p: Pod) {
    || (KeyOf(p) in s0.pods && s0.pods[KeyOf(p)] == p)
    || Unbound(p)
    || (p.nodeName in s0.nodes && ToleratesNode(p, s0.nodes[p.nodeName]))
  }

  /** If the candidates guard their taints, no pod is ever moved where the snapshot does not let it, nor would be by a
      rollback. */
  lemma TaintsAreRespected(c: Config, states: seq<State>, events: seq<Event>, i: nat)
    requires IsRun(c, states, events) && i < |states|
    requires c.options.excludeTaintNode || CandidatesGuard(c, states[0])
    ensures forall k :: k in states[i].pods ==> RespectsTaints(states[0], states[i].pods[k])
    ensures forall k :: k in Base(states[i]) ==> RespectsTaints(states[0], Base(states[i])[k])
  {
    EveryPodIsSettled(c, states, events, i);
    if c.options.excludeTaintNode {
      UntaintedGuard(c, states[0]);
    }
  }
}
