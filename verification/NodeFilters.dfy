/** Which nodes compression may try, and why it rejects the others. */
module NodeFilters {
  import opened Kube

  const FAILED_LABEL := "kc.k-cloud-labs.io/node-scale-down-failed"
  const SUCCESS_LABEL := "kc.k-cloud-labs.io/node-scale-down-success"
  const MASTER_LABEL := "node-role.kubernetes.io/master"
  const DISABLED_LABEL := "kc.k-cloud-labs.io/scale-down-disabled"

  datatype Options = Options(
    excludeTaintNode: bool,
    excludeNotReadyNode: bool,
    ignoreStaticPod: bool,
    ignoreMirrorPod: bool,
    ignoreVolumePod: bool,
    ignoreCloneSet: bool)

  datatype Reason =
    | MasterNode | FailedScaleDown | SuccessScaleDown | ScaleDownDisabled
    | TaintNode | NotReadyNode | UnknownError
    | StaticPod | MirrorPod | VolumePod | CloneSetPod

  /** The verdict on a node: None is success. */
  type Verdict = Option<Reason>

  function DefaultFilter(n: Node): Verdict {
    if MASTER_LABEL in n.labels then Some(MasterNode)
    else if FAILED_LABEL in n.labels then Some(FailedScaleDown)
    else if SUCCESS_LABEL in n.labels then Some(SuccessScaleDown)
    else if DISABLED_LABEL in n.labels && n.labels[DISABLED_LABEL] == "true" then Some(ScaleDownDisabled)
    else None
  }

  predicate IsNodeNotReady(n: Node) {
    NodeCondition("Ready", "True") !in n.conditions
  }

  function PodVerdict(o: Options, p: Pod): Verdict {
    if o.ignoreStaticPod && IsStaticPod(p) then Some(StaticPod)
    else if o.ignoreMirrorPod && IsMirrorPod(p) then Some(MirrorPod)
    else if o.ignoreVolumePod && IsPodWithLocalStorage(p) then Some(VolumePod)
    else if o.ignoreCloneSet && IsCloneSetPod(p) then Some(CloneSetPod)
    else None
  }

  /** The first objection of the pods, in the order the cache lists them. */
  function FirstPodVerdict(o: Options, ps: seq<Pod>): Verdict {
    if ps == [] then None
    else if PodVerdict(o, ps[0]).Some? then PodVerdict(o, ps[0])
    else FirstPodVerdict(o, ps[1..])
  }

  /** The ordered node filter. A node without pods is refused as an unknown error. */
  function Filter(o: Options, n: Node, podsOnNode: seq<Pod>): Verdict {
    if DefaultFilter(n).Some? then DefaultFilter(n)
    else if o.excludeTaintNode && n.taints != [] then Some(TaintNode)
    else if o.excludeNotReadyNode && IsNodeNotReady(n) then Some(NotReadyNode)
    else if podsOnNode == [] then Some(UnknownError)
    else FirstPodVerdict(o, podsOnNode)
  }

  // ---------------------------------------------------------------- the filter as a property of the cluster

  predicate On(pods: map<Key, Pod>, k: Key, node: string) {
    k in pods && pods[k].nodeName == node
  }

  /** ps lists every pod on the node once, in any order. */
  ghost predicate ListsPodsOn(ps: seq<Pod>, pods: map<Key, Pod>, node: string) {
    && DistinctKeys(ps)
    && (forall i :: 0 <= i < |ps| ==> On(pods, KeyOf(ps[i]), node) && pods[KeyOf(ps[i])] == ps[i])
    && (forall k :: On(pods, k, node) ==> k in KeysOf(ps))
  }

  ghost predicate PodsAccepted(o: Options, pods: map<Key, Pod>, node: string) {
    && (exists k :: On(pods, k, node))
    && (forall k :: On(pods, k, node) ==> PodVerdict(o, pods[k]).None?)
  }

  /** The node itself is acceptable, whatever runs on it. */
  predicate NodeAccepted(o: Options, n: Node) {
    && DefaultFilter(n).None?
    && (o.excludeTaintNode ==> n.taints == [])
    && (o.excludeNotReadyNode ==> !IsNodeNotReady(n))
  }

  /** The filter accepts the node in this cluster. */
  ghost predicate Passes(o: Options, n: Node, pods: map<Key, Pod>) {
    NodeAccepted(o, n) && PodsAccepted(o, pods, n.name)
  }

  lemma {:induction false} FirstPodVerdictMeaning(o: Options, ps: seq<Pod>)
    ensures FirstPodVerdict(o, ps).None? <==> forall i :: 0 <= i < |ps| ==> PodVerdict(o, ps[i]).None?
  {
    if ps == [] {
    } else {
      FirstPodVerdictMeaning(o, ps[1..]);
      assert forall i :: 1 <= i < |ps| ==> ps[i] == ps[1..][i - 1];
      if FirstPodVerdict(o, ps).None? {
        forall i | 0 <= i < |ps| ensures PodVerdict(o, ps[i]).None? {
          if i > 0 { assert ps[i] == ps[1..][i - 1]; }
        }
      } else if PodVerdict(o, ps[0]).None? {
        var i :| 0 <= i < |ps[1..]| && PodVerdict(o, ps[1..][i]).Some?;
        assert ps[1..][i] == ps[i + 1];
      }
    }
  }

  /** The ordered filter over the pods of the node, in any order, decides the order-free property. */
  lemma FilterDecidesPasses(o: Options, n: Node, pods: map<Key, Pod>, ps: seq<Pod>)
    requires ListsPodsOn(ps, pods, n.name)
    ensures Filter(o, n, ps).None? <==> Passes(o, n, pods)
  {
    FirstPodVerdictMeaning(o, ps);
    if ps != [] {
      assert On(pods, KeyOf(ps[0]), n.name);
    }
    forall k | On(pods, k, n.name)
      ensures exists i :: 0 <= i < |ps| && ps[i] == pods[k]
    {
      var p :| p in ps && KeyOf(p) == k;
    }
    if Filter(o, n, ps).None? {
      forall k | On(pods, k, n.name) ensures PodVerdict(o, pods[k]).None? {
        var i :| 0 <= i < |ps| && ps[i] == pods[k];
      }
    }
  }

  /** Gaining acceptable pods and losing none keeps a node acceptable. */
  lemma PassesWithMorePods(o: Options, n: Node, pods: map<Key, Pod>, more: map<Key, Pod>)
    requires Passes(o, n, pods)
    requires forall k :: On(pods, k, n.name) ==> On(more, k, n.name) && more[k] == pods[k]
    requires forall k :: On(more, k, n.name) && !On(pods, k, n.name) ==> PodVerdict(o, more[k]).None?
    ensures Passes(o, n, more)
  {
  }

  /** Placing a pod elsewhere does not change what the filter thinks of it. */
  lemma PodVerdictOfCore(o: Options, p: Pod, q: Pod)
    requires Core(p) == Core(q)
    ensures PodVerdict(o, p) == PodVerdict(o, q)
  {
    CoreDecides(p, q);
  }

  // ---------------------------------------------------------------- the reasons, in the fields of nodes and pods

  /** What the reason says of a pod, if it is one that pods give, and the option for it is set. */
  predicate Objects(o: Options, p: Pod, r: Reason) {
    match r
    case StaticPod =>
      && o.ignoreStaticPod
      && exists x :: x in p.annotations && x == "kubernetes.io/config.source" && p.annotations[x] != "api"
    case MirrorPod => o.ignoreMirrorPod && "kubernetes.io/config.mirror" in p.annotations.Keys
    case VolumePod => o.ignoreVolumePod && exists v :: v in p.volumes && (v == HostPath || v == EmptyDir)
    case CloneSetPod => o.ignoreCloneSet && exists i :: 0 <= i < |p.ownerKinds| && p.ownerKinds[i] == "CloneSet"
    case _ => false
  }

  /** What the reason says is true of the node, and the options ask for it. */
  ghost predicate Justified(o: Options, n: Node, pods: map<Key, Pod>, r: Reason) {
    match r
    case MasterNode => "node-role.kubernetes.io/master" in n.labels.Keys
    case FailedScaleDown => "kc.k-cloud-labs.io/node-scale-down-failed" in n.labels.Keys
    case SuccessScaleDown => "kc.k-cloud-labs.io/node-scale-down-success" in n.labels.Keys
    case ScaleDownDisabled =>
      exists l :: l in n.labels && l == "kc.k-cloud-labs.io/scale-down-disabled" && n.labels[l] == "true"
    case TaintNode => o.excludeTaintNode && |n.taints| > 0
    case NotReadyNode =>
      && o.excludeNotReadyNode
      && !exists i :: 0 <= i < |n.conditions| && n.conditions[i].kind == "Ready" && n.conditions[i].status == "True"
    case UnknownError => forall k :: k in pods ==> pods[k].nodeName != n.name
    case _ => exists k :: k in pods && pods[k].nodeName == n.name && Objects(o, pods[k], r)
  }

  /** The order in which the filter looks for reasons. */
  function Rank(r: Reason): nat {
    match r
    case MasterNode => 0
    case FailedScaleDown => 1
    case SuccessScaleDown => 2
    case ScaleDownDisabled => 3
    case TaintNode => 4
    case NotReadyNode => 5
    case UnknownError => 6
    case StaticPod => 7
    case MirrorPod => 8
    case VolumePod => 9
    case CloneSetPod => 10
  }

  /** A reason that pods give. */
  predicate IsAboutPods(r: Reason) {
    Rank(r) > 6
  }

  /** The verdict on a pod is its first objection, and none if it has no objection. */
  lemma PodVerdictIs(o: Options, p: Pod)
    ensures forall r :: PodVerdict(o, p) == Some(r) <==>
      Objects(o, p, r) && forall q :: Rank(q) < Rank(r) ==> !Objects(o, p, q)
    ensures PodVerdict(o, p).None? <==> forall r :: !Objects(o, p, r)
  {
    if IsPodWithLocalStorage(p) {
      var i :| 0 <= i < |p.volumes| && (p.volumes[i] == HostPath || p.volumes[i] == EmptyDir);
      assert p.volumes[i] in p.volumes;
    }
    assert IsStaticPod(p) && o.ignoreStaticPod <==> Objects(o, p, StaticPod);
    assert IsMirrorPod(p) && o.ignoreMirrorPod <==> Objects(o, p, MirrorPod);
    assert IsPodWithLocalStorage(p) && o.ignoreVolumePod <==> Objects(o, p, VolumePod);
    assert IsCloneSetPod(p) && o.ignoreCloneSet <==> Objects(o, p, CloneSetPod);
  }

  lemma NodeReasons(o: Options, n: Node, pods: map<Key, Pod>)
    ensures NodeAccepted(o, n) <==> forall r :: Rank(r) < 6 ==> !Justified(o, n, pods, r)
  {
    assert IsNodeNotReady(n) && o.excludeNotReadyNode <==> Justified(o, n, pods, NotReadyNode);
    if DefaultFilter(n).Some? {
      assert Rank(DefaultFilter(n).value) < 6 && Justified(o, n, pods, DefaultFilter(n).value);
    } else if o.excludeTaintNode && n.taints != [] {
      assert Rank(TaintNode) < 6 && Justified(o, n, pods, TaintNode);
    } else if !NodeAccepted(o, n) {
      assert Rank(NotReadyNode) < 6 && Justified(o, n, pods, NotReadyNode);
    }
  }

  lemma PodReasons(o: Options, n: Node, pods: map<Key, Pod>)
    ensures PodsAccepted(o, pods, n.name) <==>
      !Justified(o, n, pods, UnknownError) && forall r :: IsAboutPods(r) ==> !Justified(o, n, pods, r)
  {
    forall k | On(pods, k, n.name) ensures PodVerdict(o, pods[k]).None? <==> forall r :: !Objects(o, pods[k], r) {
      PodVerdictIs(o, pods[k]);
    }
    if Justified(o, n, pods, UnknownError) {
      assert forall k :: !On(pods, k, n.name);
    } else {
      var k :| k in pods && pods[k].nodeName == n.name;
      assert On(pods, k, n.name);
      if !PodsAccepted(o, pods, n.name) {
        var j :| On(pods, j, n.name) && PodVerdict(o, pods[j]).Some?;
        var r := PodVerdict(o, pods[j]).value;
        PodVerdictIs(o, pods[j]);
        assert IsAboutPods(r) && Justified(o, n, pods, r);
      }
    }
  }

  /** The filter accepts a node exactly when none of the reasons holds of it. */
  lemma PassesExactlyWhen(o: Options, n: Node, pods: map<Key, Pod>)
    ensures Passes(o, n, pods) <==> forall r :: !Justified(o, n, pods, r)
  {
    NodeReasons(o, n, pods);
    PodReasons(o, n, pods);
    if Passes(o, n, pods) {
      forall r ensures !Justified(o, n, pods, r) {
        assert IsAboutPods(r) || r == UnknownError || Rank(r) < 6;
      }
    } else {
      assert !NodeAccepted(o, n) || !PodsAccepted(o, pods, n.name);
    }
  }

  lemma {:induction false} ObjectionIsSomePods(o: Options, ps: seq<Pod>)
    requires FirstPodVerdict(o, ps).Some?
    ensures exists i :: 0 <= i < |ps| && PodVerdict(o, ps[i]) == FirstPodVerdict(o, ps)
  {
    if PodVerdict(o, ps[0]).None? {
      ObjectionIsSomePods(o, ps[1..]);
      var i :| 0 <= i < |ps[1..]| && PodVerdict(o, ps[1..][i]) == FirstPodVerdict(o, ps[1..]);
      assert ps[i + 1] == ps[1..][i];
    }
  }

  lemma NoPodsListed(ps: seq<Pod>, pods: map<Key, Pod>, node: string)
    requires ListsPodsOn(ps, pods, node)
    ensures ps == [] <==> forall k :: k in pods ==> pods[k].nodeName != node
  {
    if ps != [] { assert On(pods, KeyOf(ps[0]), node); }
    assert forall k :: k in pods && pods[k].nodeName == node ==> On(pods, k, node);
  }

  /** A node is never rejected for a reason that does not hold of it, nor while an earlier reason about the node itself
      holds. */
  lemma RejectionsAreJustified(o: Options, n: Node, pods: map<Key, Pod>, ps: seq<Pod>)
    requires ListsPodsOn(ps, pods, n.name) && Filter(o, n, ps).Some?
    ensures var r := Filter(o, n, ps).value;
      && Justified(o, n, pods, r)
      && forall q :: Rank(q) < Rank(r) && !IsAboutPods(q) ==> !Justified(o, n, pods, q)
  {
    NoPodsListed(ps, pods, n.name);
    if NodeAccepted(o, n) && ps != [] {
      ObjectionIsSomePods(o, ps);
      var i :| 0 <= i < |ps| && PodVerdict(o, ps[i]) == FirstPodVerdict(o, ps);
      assert On(pods, KeyOf(ps[i]), n.name) && pods[KeyOf(ps[i])] == ps[i];
      PodVerdictIs(o, ps[i]);
    }
  }

  // ---------------------------------------------------------------- the summary of rejections

  function Count(rs: seq<Reason>, r: Reason): nat {
    multiset(rs)[r]
  }

  /** How many nodes the summary attributes to a reason; a missing entry reads as none. */
  function Reported(summary: map<Reason, int>, r: Reason): int {
    if r in summary then summary[r] else 0
  }

  method ConvertFilterStatusesToStatus(statuses: seq<Reason>, selectedCount: nat) returns (summary: map<Reason, int>)
    ensures forall r :: r != TaintNode ==> Reported(summary, r) == Count(statuses, r)
    ensures Count(statuses, TaintNode) == 0 ==> TaintNode !in summary
    ensures Count(statuses, TaintNode) > 0 ==>
      Reported(summary, TaintNode) == Count(statuses, TaintNode) - selectedCount
    ensures Reported(summary, TaintNode) == Count(statuses, TaintNode) <==>
      Count(statuses, TaintNode) == 0 || selectedCount == 0
    ensures forall r :: r in summary ==> r in statuses && summary[r] != 0
  {
    summary := map[];
    for i := 0 to |statuses|
      invariant forall r :: r in summary <==> r in statuses[..i]
      invariant forall r :: r in summary ==> summary[r] == Count(statuses[..i], r)
    {
      assert statuses[..i + 1] == statuses[..i] + [statuses[i]];
      summary := summary[statuses[i] := Reported(summary, statuses[i]) + 1];
    }
    assert statuses[..|statuses|] == statuses;
    if TaintNode in summary {
      var realCount := summary[TaintNode] - selectedCount;
      if realCount == 0 {
        summary := summary - {TaintNode};
      } else {
        summary := summary[TaintNode := realCount];
      }
    }
  }
}
