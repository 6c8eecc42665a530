/** Where the scheduler may place a pod, and what a node already carries. */
module Placement {
  import opened Kube

  /** What the pod takes of the node's r. */
  function Share(p: Pod, node: string, r: string): nat {
    if p.nodeName == node then Demand(p, r) else 0
  }

  ghost function Load(pods: map<Key, Pod>, node: string, r: string): nat
    decreases |pods|
  {
    if pods == map[] then 0
    else
      var k :| k in pods;
      Share(pods[k], node, r) + Load(pods - {k}, node, r)
  }

  /** Resources the pod does not ask for are not checked. */
  ghost predicate Fits(pods: map<Key, Pod>, n: Node, p: Pod) {
    forall r :: Demand(p, r) > 0 ==> Load(pods, n.name, r) + Demand(p, r) <= Amount(n.allocatable, r)
  }

  /** The pod tolerates every taint that keeps pods away. */
  predicate ToleratesAll(p: Pod, taints: seq<Taint>) {
    forall i :: 0 <= i < |taints| && !taints[i].effect.PreferNoSchedule? ==> Tolerated(p, taints[i])
  }

  predicate ToleratesNode(p: Pod, n: Node) {
    ToleratesAll(p, n.taints)
  }

  /** A toleration without a key is for every key and one without an effect for every effect; the operator Exists does
      not look at the value. */
  lemma TolerationIs(t: Toleration, taint: Taint)
    ensures Tolerates(t, taint) <==>
      && t.key in {"", taint.key}
      && t.effect in {None, Some(taint.effect)}
      && (t.operator == Exists || t.value == taint.value)
  {
  }

  lemma ToleratesOfCore(p: Pod, q: Pod, taints: seq<Taint>)
    requires Core(p) == Core(q)
    ensures ToleratesAll(p, taints) == ToleratesAll(q, taints)
  {
    CoreDecides(p, q);
  }

  /** A target the scheduler may choose; its other plugins may rule out more. */
  ghost predicate Schedulable(pods: map<Key, Pod>, n: Node, p: Pod) {
    ToleratesNode(p, n) && Fits(pods, n, p)
  }

  // ---------------------------------------------------------------- loads as pods come and go

  /** The load does not depend on the order in which the pods are added up. */
  lemma {:induction false} LoadSplit(pods: map<Key, Pod>, k: Key, n: string, r: string)
    requires k in pods
    ensures Load(pods, n, r) == Share(pods[k], n, r) + Load(pods - {k}, n, r)
    decreases |pods|
  {
    var j :| j in pods && Load(pods, n, r) == Share(pods[j], n, r) + Load(pods - {j}, n, r);
    if j != k {
      LoadSplit(pods - {j}, k, n, r);
      LoadSplit(pods - {k}, j, n, r);
      assert pods - {j} - {k} == pods - {k} - {j};
    }
  }

  lemma LoadWith(pods: map<Key, Pod>, k: Key, p: Pod, n: string, r: string)
    ensures k !in pods ==> Load(pods[k := p], n, r) == Load(pods, n, r) + Share(p, n, r)
    ensures k in pods ==> Load(pods[k := p], n, r) == Load(pods, n, r) - Share(pods[k], n, r) + Share(p, n, r)
  {
    LoadSplit(pods[k := p], k, n, r);
    assert pods[k := p] - {k} == pods - {k};
    if k in pods {
      LoadSplit(pods, k, n, r);
    } else {
      assert pods - {k} == pods;
    }
  }

  lemma {:induction false} LoadOfFewer(fewer: map<Key, Pod>, pods: map<Key, Pod>, n: string, r: string)
    requires forall k :: k in fewer ==> k in pods && pods[k] == fewer[k]
    ensures Load(fewer, n, r) <= Load(pods, n, r)
    decreases |pods|
  {
    if fewer == map[] {
    } else {
      var k :| k in fewer;
      LoadSplit(fewer, k, n, r);
      LoadSplit(pods, k, n, r);
      LoadOfFewer(fewer - {k}, pods - {k}, n, r);
    }
  }

  /** A pod takes one pod slot, if any. */
  lemma {:induction false} SlotsTaken(pods: map<Key, Pod>, n: string)
    ensures Load(pods, n, "pods") <= |pods|
    decreases |pods|
  {
    if pods == map[] {
    } else {
      var k :| k in pods && Load(pods, n, "pods") == Share(pods[k], n, "pods") + Load(pods - {k}, n, "pods");
      assert |pods| == |pods - {k}| + 1;
      SlotsTaken(pods - {k}, n);
      assert Share(pods[k], n, "pods") <= 1;
    }
  }
}
