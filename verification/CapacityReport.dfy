/** The report of capacity estimation: per template, how many copies went to which node. */
module CapacityReport {
  import opened Kube

  datatype ReplicasOnNode = ReplicasOnNode(nodeName: string, replicas: nat)
  datatype Result = Result(podName: string, replicasOnNodes: seq<ReplicasOnNode>)

  /** How many of the pods belong to template j of k and run on the node. */
  function Tally(pods: seq<Pod>, k: nat, j: nat, node: string): nat
    requires k > 0
  {
    if pods == [] then 0
    else
      var m := |pods| - 1;
      Tally(pods[..m], k, j, node) + if m % k == j && pods[m].nodeName == node then 1 else 0
  }

  /** The replicas listed for a node. */
  function Listed(rs: seq<ReplicasOnNode>, node: string): nat {
    if rs == [] then 0
    else Listed(rs[..|rs| - 1], node) + if rs[|rs| - 1].nodeName == node then rs[|rs| - 1].replicas else 0
  }

  predicate DistinctNodes(rs: seq<ReplicasOnNode>) {
    forall a, b :: 0 <= a < b < |rs| ==> rs[a].nodeName != rs[b].nodeName
  }

  /** The list is the node histogram of template j: each node at most once, with its exact count, never with none. */
  ghost predicate IsHistogram(rs: seq<ReplicasOnNode>, pods: seq<Pod>, k: nat, j: nat)
    requires k > 0
  {
    && DistinctNodes(rs)
    && (forall a :: 0 <= a < |rs| ==> rs[a].replicas > 0)
    && (forall n :: Listed(rs, n) == Tally(pods, k, j, n))
  }

  function InstancesOf(rs: seq<ReplicasOnNode>): nat {
    if rs == [] then 0 else InstancesOf(rs[..|rs| - 1]) + rs[|rs| - 1].replicas
  }

  function InstancesOfAll(results: seq<Result>): nat {
    if results == [] then 0
    else InstancesOfAll(results[..|results| - 1]) + InstancesOf(results[|results| - 1].replicasOnNodes)
  }

  method InstancesSum(replicasOnNodes: seq<ReplicasOnNode>) returns (result: nat)
    ensures result == InstancesOf(replicasOnNodes)
  {
    result := 0;
    for i := 0 to |replicasOnNodes|
      invariant result == InstancesOf(replicasOnNodes[..i])
    {
      assert replicasOnNodes[..i + 1][..i] == replicasOnNodes[..i];
      result := result + replicasOnNodes[i].replicas;
    }
    assert replicasOnNodes[..|replicasOnNodes|] == replicasOnNodes;
  }

  // ---------------------------------------------------------------- counting one more

  /** The list with one more replica in entry a. */
  function Bump(rs: seq<ReplicasOnNode>, a: nat): seq<ReplicasOnNode>
    requires a < |rs|
  {
    rs[a := rs[a].(replicas := rs[a].replicas + 1)]
  }

  lemma {:induction false} BumpCounts(rs: seq<ReplicasOnNode>, a: nat, n: string)
    requires a < |rs|
    ensures InstancesOf(Bump(rs, a)) == InstancesOf(rs) + 1
    ensures Listed(Bump(rs, a), n) == Listed(rs, n) + if rs[a].nodeName == n then 1 else 0
  {
    if a == |rs| - 1 {
      assert Bump(rs, a)[..|rs| - 1] == rs[..|rs| - 1];
    } else {
      BumpCounts(rs[..|rs| - 1], a, n);
      assert Bump(rs, a)[..|rs| - 1] == Bump(rs[..|rs| - 1], a);
    }
  }

  lemma {:induction false} InstancesOfAllUpdate(results: seq<Result>, j: nat, rs: seq<ReplicasOnNode>)
    requires j < |results|
    ensures InstancesOfAll(results[j := results[j].(replicasOnNodes := rs)])
      == InstancesOfAll(results) - InstancesOf(results[j].replicasOnNodes) + InstancesOf(rs)
  {
    var changed := results[j := results[j].(replicasOnNodes := rs)];
    if j == |results| - 1 {
      assert changed[..|results| - 1] == results[..|results| - 1];
    } else {
      InstancesOfAllUpdate(results[..|results| - 1], j, rs);
      assert changed[..|results| - 1] == results[..|results| - 1][j := results[j].(replicasOnNodes := rs)];
    }
  }

  /** rs counts one more replica on the node than list, and differs in nothing else. */
  ghost predicate OneMore(list: seq<ReplicasOnNode>, rs: seq<ReplicasOnNode>, node: string) {
    && InstancesOf(rs) == InstancesOf(list) + 1
    && forall n :: Listed(rs, n) == Listed(list, n) + if n == node then 1 else 0
  }

  lemma BumpIsOneMore(list: seq<ReplicasOnNode>, a: nat)
    requires a < |list|
    ensures OneMore(list, Bump(list, a), list[a].nodeName)
  {
    BumpCounts(list, a, "");
    forall n ensures Listed(Bump(list, a), n) == Listed(list, n) + if n == list[a].nodeName then 1 else 0 {
      BumpCounts(list, a, n);
    }
  }

  lemma AppendIsOneMore(list: seq<ReplicasOnNode>, node: string)
    ensures OneMore(list, list + [ReplicasOnNode(node, 1)], node)
  {
  }

  /** Counts the node in: its entry is raised, or a new one is appended. */
  method CountNode(list: seq<ReplicasOnNode>, nodeName: string) returns (rs: seq<ReplicasOnNode>)
    requires DistinctNodes(list) && forall a :: 0 <= a < |list| ==> list[a].replicas > 0
    ensures DistinctNodes(rs) && forall a :: 0 <= a < |rs| ==> rs[a].replicas > 0
    ensures OneMore(list, rs, nodeName)
  {
    rs := list;
    var first := true;
    ghost var at := 0;
    for i := 0 to |list|
      invariant first ==> rs == list && forall a :: 0 <= a < i ==> list[a].nodeName != nodeName
      invariant !first ==> 0 <= at < i && list[at].nodeName == nodeName && rs == Bump(list, at)
    {
      if rs[i].nodeName == nodeName {
        rs := rs[i := rs[i].(replicas := rs[i].replicas + 1)];
        first := false;
        at := i;
      }
    }
    if first {
      AppendIsOneMore(list, nodeName);
      rs := rs + [ReplicasOnNode(nodeName, 1)];
    } else {
      BumpIsOneMore(list, at);
    }
  }

  lemma TallySnoc(pods: seq<Pod>, i: nat, k: nat, j: nat, n: string)
    requires k > 0 && i < |pods|
    ensures Tally(pods[..i + 1], k, j, n)
      == Tally(pods[..i], k, j, n) + if i % k == j && pods[i].nodeName == n then 1 else 0
  {
    assert pods[..i + 1][..i] == pods[..i];
  }

  /** Counting a pod's node in turns the histogram of the pods before it into the histogram with it. */
  lemma HistogramGrows(list: seq<ReplicasOnNode>, rs: seq<ReplicasOnNode>, pods: seq<Pod>, i: nat, k: nat)
    requires k > 0 && i < |pods| && IsHistogram(list, pods[..i], k, i % k)
    requires DistinctNodes(rs) && forall a :: 0 <= a < |rs| ==> rs[a].replicas > 0
    requires OneMore(list, rs, pods[i].nodeName)
    ensures IsHistogram(rs, pods[..i + 1], k, i % k)
  {
    forall n ensures Listed(rs, n) == Tally(pods[..i + 1], k, i % k, n) {
      TallySnoc(pods, i, k, i % k, n);
    }
  }

  lemma HistogramStays(list: seq<ReplicasOnNode>, pods: seq<Pod>, i: nat, k: nat, j: nat)
    requires k > 0 && i < |pods| && IsHistogram(list, pods[..i], k, j) && j != i % k
    ensures IsHistogram(list, pods[..i + 1], k, j)
  {
    forall n ensures Listed(list, n) == Tally(pods[..i + 1], k, j, n) {
      TallySnoc(pods, i, k, j, n);
    }
  }

  // ---------------------------------------------------------------- the report

  lemma {:induction false} NoInstances(results: seq<Result>)
    requires forall j :: 0 <= j < |results| ==> results[j].replicasOnNodes == []
    ensures InstancesOfAll(results) == 0
  {
    if results == [] {
    } else {
      NoInstances(results[..|results| - 1]);
    }
  }

  ghost predicate Histograms(results: seq<Result>, names: seq<string>, pods: seq<Pod>) {
    && |results| == |names|
    && forall j :: 0 <= j < |names| ==>
         results[j].podName == names[j] && IsHistogram(results[j].replicasOnNodes, pods, |names|, j)
  }

  /** One pod more: its template's list counts it, the other lists stay. */
  lemma HistogramsGrow(results: seq<Result>, names: seq<string>, pods: seq<Pod>, i: nat, rs: seq<ReplicasOnNode>)
    requires names != [] && i < |pods| && Histograms(results, names, pods[..i])
    requires DistinctNodes(rs) && forall a :: 0 <= a < |rs| ==> rs[a].replicas > 0
    requires OneMore(results[i % |names|].replicasOnNodes, rs, pods[i].nodeName)
    ensures var t := i % |names|;
      Histograms(results[t := results[t].(replicasOnNodes := rs)], names, pods[..i + 1])
  {
    var k := |names|;
    HistogramGrows(results[i % k].replicasOnNodes, rs, pods, i, k);
    forall j | 0 <= j < k && j != i % k ensures IsHistogram(results[j].replicasOnNodes, pods[..i + 1], k, j) {
      HistogramStays(results[j].replicasOnNodes, pods, i, k, j);
    }
  }

  lemma EmptyHistograms(results: seq<Result>, names: seq<string>)
    requires |results| == |names| && forall j :: 0 <= j < |names| ==> results[j] == Result(names[j], [])
    ensures names != [] ==> Histograms(results, names, [])
    ensures InstancesOfAll(results) == 0
  {
    NoInstances(results);
  }

  /** Pods were created round-robin over the templates, so pod i belongs to template i mod k. Each template gets the
      exact histogram of its pods over the nodes, and all instances together are all pods. */
  method ParsePodsReview(templateNames: seq<string>, pods: seq<Pod>) returns (result: seq<Result>)
    requires templateNames == [] ==> pods == []
    ensures Histograms(result, templateNames, pods)
    ensures InstancesOfAll(result) == |pods|
  {
    var k := |templateNames|;
    result := [];
    for i := 0 to k
      invariant |result| == i
      invariant forall j :: 0 <= j < i ==> result[j] == Result(templateNames[j], [])
    {
      result := result + [Result(templateNames[i], [])];
    }
    EmptyHistograms(result, templateNames);
    if k == 0 {
      return;
    }
    for i := 0 to |pods|
      invariant Histograms(result, templateNames, pods[..i])
      invariant InstancesOfAll(result) == i
    {
      var t := i % k;
      var rs := CountNode(result[t].replicasOnNodes, pods[i].nodeName);
      InstancesOfAllUpdate(result, t, rs);
      HistogramsGrow(result, templateNames, pods, i, rs);
      result := result[t := result[t].(replicasOnNodes := rs)];
    }
    assert pods[..|pods|] == pods;
  }
}
