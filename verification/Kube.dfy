/** The Kubernetes objects the simulators read and write, reduced to the fields they look at. */
module Kube {

  datatype Option<+T> = None | Some(value: T)

  // Names the repository and Kubernetes fix.
  const PROVISIONER := "kc.k-cloud-labs.io/provisioned-by"
  const SCHEDULER_NAME := "simulator-scheduler"
  const NAMESPACE_DEFAULT := "default"
  const TAINT_UNSCHEDULABLE := "node.kubernetes.io/unschedulable"
  const MIRROR_ANNOTATION := "kubernetes.io/config.mirror"
  const SOURCE_ANNOTATION := "kubernetes.io/config.source"

  /** Quantities per resource name; Kubernetes validation admits no negative quantity. */
  type ResourceList = map<string, nat>

  datatype Key = Key(namespace: string, name: string)

  datatype Effect = NoSchedule | PreferNoSchedule | NoExecute
  datatype Taint = Taint(key: string, value: string, effect: Effect)
  datatype Operator = Equal | Exists
  datatype Toleration = Toleration(key: string, operator: Operator, value: string, effect: Option<Effect>)

  datatype Volume = HostPath | EmptyDir | OtherVolume
  datatype Phase = NoPhase | Pending | Running | Succeeded | Failed

  datatype Pod = Pod(
    namespace: string,
    name: string,
    nodeName: string,
    schedulerName: string,
    annotations: map<string, string>,
    ownerKinds: seq<string>,
    terminating: bool,
    phase: Phase,
    volumes: seq<Volume>,
    tolerations: seq<Toleration>,
    containers: seq<ResourceList>,
    initContainers: seq<ResourceList>,
    overhead: ResourceList)

  /** Only the kind "Ready" with the status "True" matters. */
  datatype NodeCondition = NodeCondition(kind: string, status: string)

  datatype Node = Node(
    name: string,
    labels: map<string, string>,
    taints: seq<Taint>,
    unschedulable: bool,
    conditions: seq<NodeCondition>,
    allocatable: ResourceList)

  function KeyOf(p: Pod): Key {
    Key(p.namespace, p.name)
  }

  function KeysOf(ps: seq<Pod>): set<Key> {
    set p | p in ps :: KeyOf(p)
  }

  /** No two pods of the list share a namespace and a name. */
  predicate DistinctKeys(ps: seq<Pod>) {
    forall i, j :: 0 <= i < j < |ps| ==> KeyOf(ps[i]) != KeyOf(ps[j])
  }

  // ---------------------------------------------------------------- pod classification

  predicate IsDaemonsetPod(p: Pod) {
    "DaemonSet" in p.ownerKinds
  }

  predicate IsCloneSetPod(p: Pod) {
    "CloneSet" in p.ownerKinds
  }

  predicate IsMirrorPod(p: Pod) {
    MIRROR_ANNOTATION in p.annotations
  }

  predicate IsStaticPod(p: Pod) {
    SOURCE_ANNOTATION in p.annotations && p.annotations[SOURCE_ANNOTATION] != "api"
  }

  predicate IsPodWithLocalStorage(p: Pod) {
    exists i :: 0 <= i < |p.volumes| && (p.volumes[i] == HostPath || p.volumes[i] == EmptyDir)
  }

  /** The pods that compression takes off a node; the others stay. */
  predicate Movable(p: Pod) {
    !IsDaemonsetPod(p) && !p.terminating
  }

  /** A pod the simulator's scheduler still has to place. */
  predicate Unbound(p: Pod) {
    p.nodeName == "" && p.schedulerName == SCHEDULER_NAME
  }

  // ---------------------------------------------------------------- pod updates

  /** The fresh, unplaced copy of a pod that is handed to the scheduler. */
  function InitPod(p: Pod): Pod {
    p.(nodeName := "",
       schedulerName := SCHEDULER_NAME,
       namespace := if p.namespace == "" then NAMESPACE_DEFAULT else p.namespace,
       phase := NoPhase,
       annotations := p.annotations[PROVISIONER := SCHEDULER_NAME])
  }

  /** What GenericBinder.Bind stores. */
  function Bound(p: Pod, node: string): Pod {
    p.(nodeName := node, phase := Running)
  }

  /** Everything about a pod that placing it may not change. */
  function Core(p: Pod): Pod {
    p.(nodeName := "", schedulerName := "", phase := NoPhase, annotations := p.annotations - {PROVISIONER})
  }

  /** Neither preparing a pod for scheduling nor binding it touches its core; a pod without a namespace is filed under
      the default one when it is prepared. */
  lemma PlacingKeepsCore(p: Pod, node: string)
    ensures InitPod(p).namespace == (if p.namespace == "" then NAMESPACE_DEFAULT else p.namespace)
    ensures Core(InitPod(p)) == Core(p).(namespace := InitPod(p).namespace)
    ensures KeyOf(InitPod(p)) == Key(InitPod(p).namespace, p.name)
    ensures p.namespace != "" ==> Core(InitPod(p)) == Core(p) && KeyOf(InitPod(p)) == KeyOf(p)
    ensures Core(Bound(p, node)) == Core(p) && KeyOf(Bound(p, node)) == KeyOf(p)
    ensures Unbound(InitPod(p)) && PROVISIONER in InitPod(p).annotations
    ensures InitPod(p).nodeName == "" && InitPod(p).phase == NoPhase
    ensures InitPod(p).schedulerName == "simulator-scheduler"
    ensures InitPod(p).annotations == p.annotations["kc.k-cloud-labs.io/provisioned-by" := "simulator-scheduler"]
    ensures Bound(p, node) == p.(nodeName := node, phase := Running)
  {
  }

  // ---------------------------------------------------------------- requests

  function Amount(rl: ResourceList, r: string): nat {
    if r in rl then rl[r] else 0
  }

  function Max(a: nat, b: nat): nat {
    if a < b then b else a
  }

  function TotalOf(rls: seq<ResourceList>, r: string): nat {
    if rls == [] then 0 else TotalOf(rls[..|rls| - 1], r) + Amount(rls[|rls| - 1], r)
  }

  function LargestOf(rls: seq<ResourceList>, r: string): nat {
    if rls == [] then 0 else Max(LargestOf(rls[..|rls| - 1], r), Amount(rls[|rls| - 1], r))
  }

  /** What a pod requests of r: the containers together or one init container, whichever is more, plus overhead. */
  function Request(p: Pod, r: string): nat {
    Max(TotalOf(p.containers, r), LargestOf(p.initContainers, r)) + Amount(p.overhead, r)
  }

  /** What a pod takes up on a node; every pod occupies one of the node's pod slots. */
  function Demand(p: Pod, r: string): nat {
    if r == "pods" then 1 else Request(p, r)
  }

  lemma {:induction false} LargestIsMaximum(rls: seq<ResourceList>, r: string)
    ensures forall i :: 0 <= i < |rls| ==> Amount(rls[i], r) <= LargestOf(rls, r)
    ensures LargestOf(rls, r) == 0 || exists i :: 0 <= i < |rls| && Amount(rls[i], r) == LargestOf(rls, r)
  {
    if rls == [] {
    } else {
      var front, last := rls[..|rls| - 1], rls[|rls| - 1];
      LargestIsMaximum(front, r);
      assert forall i :: 0 <= i < |front| ==> rls[i] == front[i];
      if LargestOf(rls, r) != Amount(last, r) && LargestOf(rls, r) != 0 {
        var i :| 0 <= i < |front| && Amount(front[i], r) == LargestOf(front, r);
        assert Amount(rls[i], r) == LargestOf(rls, r);
      }
    }
  }

  /** What is demanded on top of overhead is the most of all containers together and any single init container. */
  ghost predicate IsMost(p: Pod, r: string, amount: int) {
    && TotalOf(p.containers, r) <= amount
    && (forall i :: 0 <= i < |p.initContainers| ==> Amount(p.initContainers[i], r) <= amount)
    && (amount == TotalOf(p.containers, r)
        || exists i :: 0 <= i < |p.initContainers| && Amount(p.initContainers[i], r) == amount)
  }

  /** Every pod takes one pod slot; of any other resource it demands the most of its containers together and any single
      init container, plus overhead. */
  lemma DemandIs(p: Pod, r: string)
    ensures r == "pods" ==> Demand(p, r) == 1
    ensures r != "pods" ==> IsMost(p, r, Demand(p, r) - Amount(p.overhead, r))
  {
    LargestIsMaximum(p.initContainers, r);
  }

  /** The core decides every classification, the tolerations and the requests. */
  lemma CoreDecides(p: Pod, q: Pod)
    requires Core(p) == Core(q)
    ensures KeyOf(p) == KeyOf(q)
    ensures Movable(p) == Movable(q) && IsCloneSetPod(p) == IsCloneSetPod(q)
    ensures IsMirrorPod(p) == IsMirrorPod(q) && IsStaticPod(p) == IsStaticPod(q)
    ensures IsPodWithLocalStorage(p) == IsPodWithLocalStorage(q)
    ensures p.tolerations == q.tolerations
    ensures forall r :: Demand(p, r) == Demand(q, r)
  {
    assert |PROVISIONER| == 33 && |MIRROR_ANNOTATION| == 27 && |SOURCE_ANNOTATION| == 27;
    var a, b := p.annotations - {PROVISIONER}, q.annotations - {PROVISIONER};
    assert a == Core(p).annotations == Core(q).annotations == b;
    assert forall x :: x != PROVISIONER ==> (x in a <==> x in p.annotations) && (x in b <==> x in q.annotations);
    assert Core(p).namespace == p.namespace && Core(p).name == p.name && Core(p).ownerKinds == p.ownerKinds;
    assert Core(p).volumes == p.volumes && Core(p).terminating == p.terminating;
    assert Core(p).containers == p.containers && Core(p).initContainers == p.initContainers;
    assert Core(p).overhead == p.overhead && Core(p).tolerations == p.tolerations;
  }

  // ---------------------------------------------------------------- taints

  predicate Tolerates(t: Toleration, taint: Taint) {
    && (t.effect.Some? ==> t.effect.value == taint.effect)
    && (t.key != "" ==> t.key == taint.key)
    && (t.operator.Equal? ==> t.value == taint.value)
  }

  predicate Tolerated(p: Pod, taint: Taint) {
    exists i :: 0 <= i < |p.tolerations| && Tolerates(p.tolerations[i], taint)
  }

  const UNSCHEDULABLE := Taint(TAINT_UNSCHEDULABLE, "", NoSchedule)

  /** The taints whose key is not the unschedulable one, in order. */
  function OtherTaints(ts: seq<Taint>): seq<Taint> {
    if ts == [] then []
    else
      var last := ts[|ts| - 1];
      OtherTaints(ts[..|ts| - 1]) + (if last.key != TAINT_UNSCHEDULABLE then [last] else [])
  }

  function Cordoned(n: Node): Node {
    n.(taints := [UNSCHEDULABLE] + OtherTaints(n.taints))
  }

  function Uncordoned(n: Node): Node {
    n.(taints := OtherTaints(n.taints))
  }

  function Labelled(n: Node, key: string): Node {
    n.(labels := n.labels[key := "true"])
  }

  lemma {:induction false} OtherTaintsAppend(a: seq<Taint>, b: seq<Taint>)
    ensures OtherTaints(a + b) == OtherTaints(a) + OtherTaints(b)
  {
    if b == [] {
      assert a + b == a;
    } else {
      OtherTaintsAppend(a, b[..|b| - 1]);
      assert (a + b)[..|a + b| - 1] == a + b[..|b| - 1];
    }
  }

  /** OtherTaints keeps exactly the taints with another key. */
  lemma {:induction false} OtherTaintsKeys(ts: seq<Taint>)
    ensures forall t :: t in OtherTaints(ts) <==> t in ts && t.key != TAINT_UNSCHEDULABLE
    ensures OtherTaints(ts) == ts <==> forall t :: t in ts ==> t.key != TAINT_UNSCHEDULABLE
    ensures |OtherTaints(ts)| <= |ts|
  {
    if ts == [] {
    } else {
      var front := ts[..|ts| - 1];
      assert ts == front + [ts[|ts| - 1]];
      OtherTaintsKeys(front);
    }
  }

  lemma OtherTaintsCordoned(ts: seq<Taint>)
    requires ts != [] && ts[0].key == TAINT_UNSCHEDULABLE
    ensures OtherTaints(ts) == OtherTaints(ts[1..])
  {
    var head := [ts[0]];
    assert head[..0] == [] && OtherTaints(head) == [];
    assert ts == head + ts[1..];
    OtherTaintsAppend(head, ts[1..]);
  }

  lemma OtherTaintsTwice(ts: seq<Taint>)
    ensures OtherTaints(OtherTaints(ts)) == OtherTaints(ts)
    ensures OtherTaints([UNSCHEDULABLE] + OtherTaints(ts)) == OtherTaints(ts)
  {
    OtherTaintsKeys(ts);
    OtherTaintsKeys(OtherTaints(ts));
    OtherTaintsCordoned([UNSCHEDULABLE] + OtherTaints(ts));
    assert ([UNSCHEDULABLE] + OtherTaints(ts))[1..] == OtherTaints(ts);
  }
}
