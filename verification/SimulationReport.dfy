/** The report of scheduler simulation: pods grouped by node, and what each node's pods request. */
module SimulationReport {
  import opened Kube
  import opened Resources

  datatype ScheduleDetail = ScheduleDetail(
    nodeName: string,
    replicas: nat,
    nodeAllocatable: Option<ResourceList>,
    podRequest: Resource,
    onlyDSPod: bool)

  datatype Review = Review(unschedulablePods: seq<Pod>, details: seq<ScheduleDetail>)

  /** The pods placed on a node, in their order; the pods on node "" are those without a node. */
  function PodsOn(pods: seq<Pod>, node: string): seq<Pod> {
    if pods == [] then []
    else
      var last := pods[|pods| - 1];
      PodsOn(pods[..|pods| - 1], node) + (if last.nodeName == node then [last] else [])
  }

  function TotalRequest(pods: seq<Pod>, r: string): nat {
    if pods == [] then 0 else TotalRequest(pods[..|pods| - 1], r) + Request(pods[|pods| - 1], r)
  }

  /** What a detail says is true of the pods on its node. */
  ghost predicate Describes(d: ScheduleDetail, pods: seq<Pod>, nodes: map<string, Node>) {
    && d.nodeName != "" && PodsOn(pods, d.nodeName) != []
    && d.replicas == |PodsOn(pods, d.nodeName)|
    && (forall r :: r != "pods" ==> Of(d.podRequest, r) == TotalRequest(PodsOn(pods, d.nodeName), r))
    && d.podRequest.allowedPodNumber == 0
    && (d.onlyDSPod <==> forall p :: p in PodsOn(pods, d.nodeName) ==> IsDaemonsetPod(p))
    && d.nodeAllocatable == if d.nodeName in nodes then Some(nodes[d.nodeName].allocatable) else None
  }

  ghost predicate DistinctNodes(details: seq<ScheduleDetail>) {
    forall i, j :: 0 <= i < j < |details| ==> details[i].nodeName != details[j].nodeName
  }

  function NodesOf(details: seq<ScheduleDetail>): set<string> {
    set d | d in details :: d.nodeName
  }

  ghost predicate AllDescribe(details: seq<ScheduleDetail>, pods: seq<Pod>, nodes: map<string, Node>) {
    forall i :: 0 <= i < |details| ==> Describes(details[i], pods, nodes)
  }

  /** The report covers every pod: the unplaced ones are listed, each node that runs pods has one detail. */
  ghost predicate Covers(review: Review, pods: seq<Pod>, nodes: map<string, Node>) {
    && review.unschedulablePods == PodsOn(pods, "")
    && DistinctNodes(review.details)
    && AllDescribe(review.details, pods, nodes)
    && forall p :: p in pods && p.nodeName != "" ==> p.nodeName in NodesOf(review.details)
  }

  // ---------------------------------------------------------------- building the report

  /** The map holds the pods of every node that has some. */
  ghost predicate Groups(nodePodMap: map<string, seq<Pod>>, pods: seq<Pod>) {
    && (forall n :: n in nodePodMap <==> PodsOn(pods, n) != [])
    && (forall n :: n in nodePodMap ==> nodePodMap[n] == PodsOn(pods, n))
  }

  /** The pods by node. */
  method GroupByNode(pods: seq<Pod>) returns (nodePodMap: map<string, seq<Pod>>)
    ensures Groups(nodePodMap, pods)
  {
    nodePodMap := map[];
    for i := 0 to |pods|
      invariant forall n :: n in nodePodMap <==> PodsOn(pods[..i], n) != []
      invariant forall n :: n in nodePodMap ==> nodePodMap[n] == PodsOn(pods[..i], n)
    {
      assert pods[..i + 1][..i] == pods[..i];
      var n := pods[i].nodeName;
      nodePodMap := nodePodMap[n := (if n in nodePodMap then nodePodMap[n] else []) + [pods[i]]];
    }
    assert pods[..|pods|] == pods;
  }

  method Detail(node: string, pods: seq<Pod>, ghost all: seq<Pod>, nodes: map<string, Node>)
    returns (detail: ScheduleDetail)
    requires node != "" && pods != [] && pods == PodsOn(all, node)
    ensures detail.nodeName == node && Describes(detail, all, nodes)
  {
    var request := NOTHING;
    var onlyDS := true;
    for i := 0 to |pods|
      invariant forall r :: r != "pods" ==> Of(request, r) == TotalRequest(pods[..i], r)
      invariant request.allowedPodNumber == 0
      invariant onlyDS <==> forall p :: p in pods[..i] ==> IsDaemonsetPod(p)
    {
      assert pods[..i + 1][..i] == pods[..i];
      assert pods[..i + 1] == pods[..i] + [pods[i]];
      var res := ComputePodResourceRequest(pods[i]);
      request := AddResource(request, res);
      onlyDS := onlyDS && IsDaemonsetPod(pods[i]);
    }
    assert pods[..|pods|] == pods;
    detail := ScheduleDetail(
      node, |pods|, if node in nodes then Some(nodes[node].allocatable) else None, request, onlyDS);
  }

  lemma {:induction false} PlacedPodsAreOn(pods: seq<Pod>, p: Pod)
    requires p in pods
    ensures p in PodsOn(pods, p.nodeName)
  {
    var front := pods[..|pods| - 1];
    assert pods == front + [pods[|pods| - 1]];
    if p != pods[|pods| - 1] {
      PlacedPodsAreOn(front, p);
    }
  }

  lemma NodesOfSnoc(details: seq<ScheduleDetail>, d: ScheduleDetail)
    ensures NodesOf(details + [d]) == NodesOf(details) + {d.nodeName}
    ensures DistinctNodes(details) && d.nodeName !in NodesOf(details) ==> DistinctNodes(details + [d])
  {
  }

  /** What the review says once the given nodes have been visited. */
  ghost predicate Visited(review: Review, done: set<string>, pods: seq<Pod>, nodes: map<string, Node>) {
    && review.unschedulablePods == (if "" in done then PodsOn(pods, "") else [])
    && DistinctNodes(review.details)
    && AllDescribe(review.details, pods, nodes)
    && NodesOf(review.details) == done - {""}
  }

  lemma VisitedAll(review: Review, nodePodMap: map<string, seq<Pod>>, pods: seq<Pod>, nodes: map<string, Node>)
    requires Visited(review, nodePodMap.Keys, pods, nodes) && Groups(nodePodMap, pods)
    ensures Covers(review, pods, nodes)
  {
    forall p | p in pods ensures p.nodeName in nodePodMap {
      PlacedPodsAreOn(pods, p);
    }
  }

  /** Adds what is known of one more node. */
  method Visit(review: Review, node: string, podsOfNode: seq<Pod>, ghost done: set<string>, ghost pods: seq<Pod>,
               nodes: map<string, Node>) returns (next: Review)
    requires Visited(review, done, pods, nodes) && node !in done
    requires podsOfNode == PodsOn(pods, node) && podsOfNode != []
    ensures Visited(next, done + {node}, pods, nodes)
  {
    if node == "" {
      next := review.(unschedulablePods := review.unschedulablePods + podsOfNode);
    } else {
      var detail := Detail(node, podsOfNode, pods, nodes);
      NodesOfSnoc(review.details, detail);
      next := review.(details := review.details + [detail]);
    }
  }

  /** The nodes are visited in an order the report cannot rely on. */
  method GenerateReport(pods: seq<Pod>, nodes: map<string, Node>) returns (review: Review)
    ensures Covers(review, pods, nodes)
  {
    review := Review([], []);
    var nodePodMap := GroupByNode(pods);
    var rest := nodePodMap.Keys;
    while rest != {}
      invariant rest <= nodePodMap.Keys
      invariant Visited(review, nodePodMap.Keys - rest, pods, nodes)
      decreases rest
    {
      var node :| node in rest;
      ghost var done := nodePodMap.Keys - rest;
      rest := rest - {node};
      review := Visit(review, node, nodePodMap[node], done, pods, nodes);
      assert nodePodMap.Keys - rest == done + {node};
    }
    assert nodePodMap.Keys - rest == nodePodMap.Keys;
    VisitedAll(review, nodePodMap, pods, nodes);
  }

  // ---------------------------------------------------------------- conservation

  function Replicas(details: seq<ScheduleDetail>): nat {
    if details == [] then 0 else Replicas(details[..|details| - 1]) + details[|details| - 1].replicas
  }

  function Requested(details: seq<ScheduleDetail>, r: string): nat {
    if details == [] then 0
    else Requested(details[..|details| - 1], r) + Of(details[|details| - 1].podRequest, r)
  }

  /** The pods that run on some node. */
  function Placed(pods: seq<Pod>): seq<Pod> {
    if pods == [] then []
    else Placed(pods[..|pods| - 1]) + (if pods[|pods| - 1].nodeName != "" then [pods[|pods| - 1]] else [])
  }

  /** The pods on nodes that are not in the set. */
  function Outside(pods: seq<Pod>, nodes: set<string>): seq<Pod> {
    if pods == [] then []
    else Outside(pods[..|pods| - 1], nodes) + (if pods[|pods| - 1].nodeName !in nodes then [pods[|pods| - 1]] else [])
  }

  lemma TotalOfSnoc(pods: seq<Pod>, p: Pod, r: string)
    ensures TotalRequest(pods + [p], r) == TotalRequest(pods, r) + Request(p, r)
  {
  }

  lemma {:induction false} OutsideCount(pods: seq<Pod>, nodes: set<string>, n: string)
    requires n !in nodes
    ensures |Outside(pods, nodes)| == |PodsOn(pods, n)| + |Outside(pods, nodes + {n})|
  {
    if pods == [] {
    } else {
      OutsideCount(pods[..|pods| - 1], nodes, n);
    }
  }

  /** What the last pod of a list adds to a total that takes it in if it is chosen. */
  lemma TotalWith(pods: seq<Pod>, p: Pod, chosen: bool, r: string)
    ensures TotalRequest(pods + (if chosen then [p] else []), r)
      == TotalRequest(pods, r) + if chosen then Request(p, r) else 0
  {
    if chosen { TotalOfSnoc(pods, p, r); } else { assert pods + [] == pods; }
  }

  lemma {:induction false} OutsideTotal(pods: seq<Pod>, nodes: set<string>, n: string, r: string)
    requires n !in nodes
    ensures TotalRequest(Outside(pods, nodes), r) ==
      TotalRequest(PodsOn(pods, n), r) + TotalRequest(Outside(pods, nodes + {n}), r)
  {
    if pods == [] {
    } else {
      var front, last := pods[..|pods| - 1], pods[|pods| - 1];
      OutsideTotal(front, nodes, n, r);
      TotalWith(Outside(front, nodes), last, last.nodeName !in nodes, r);
      TotalWith(PodsOn(front, n), last, last.nodeName == n, r);
      TotalWith(Outside(front, nodes + {n}), last, last.nodeName !in nodes + {n}, r);
    }
  }

  /** Taking a node out of consideration takes out exactly its pods. */
  lemma OutsideOneMore(pods: seq<Pod>, nodes: set<string>, n: string, r: string)
    requires n !in nodes
    ensures |Outside(pods, nodes)| == |PodsOn(pods, n)| + |Outside(pods, nodes + {n})|
    ensures TotalRequest(Outside(pods, nodes), r) ==
      TotalRequest(PodsOn(pods, n), r) + TotalRequest(Outside(pods, nodes + {n}), r)
  {
    OutsideCount(pods, nodes, n);
    OutsideTotal(pods, nodes, n, r);
  }

  /** The details account for the pods outside the first set that are not outside the second. */
  predicate Accounts(details: seq<ScheduleDetail>, pods: seq<Pod>, r: string) {
    var rest, all := Outside(pods, NodesOf(details) + {""}), Outside(pods, {""});
    && Replicas(details) + |rest| == |all|
    && Requested(details, r) + TotalRequest(rest, r) == TotalRequest(all, r)
  }

  lemma AccountsOneMore(
    front: seq<ScheduleDetail>, last: ScheduleDetail, pods: seq<Pod>, nodes: map<string, Node>, r: string)
    requires r != "pods" && Accounts(front, pods, r) && Describes(last, pods, nodes)
    requires last.nodeName !in NodesOf(front)
    ensures Accounts(front + [last], pods, r)
  {
    var seen := NodesOf(front) + {""};
    NodesOfSnoc(front, last);
    assert NodesOf(front + [last]) + {""} == seen + {last.nodeName};
    OutsideOneMore(pods, seen, last.nodeName, r);
    assert (front + [last])[..|front|] == front;
  }

  lemma LastIsNew(front: seq<ScheduleDetail>, last: ScheduleDetail)
    requires DistinctNodes(front + [last])
    ensures DistinctNodes(front) && last.nodeName !in NodesOf(front)
  {
    var all := front + [last];
    assert forall i :: 0 <= i < |front| ==> front[i] == all[i] && all[i].nodeName != all[|front|].nodeName;
  }

  /** Details account for their nodes' pods, whatever order they come in. */
  lemma {:induction false} DetailsAccount(
    pods: seq<Pod>, nodes: map<string, Node>, details: seq<ScheduleDetail>, r: string)
    requires r != "pods" && DistinctNodes(details) && AllDescribe(details, pods, nodes)
    ensures Accounts(details, pods, r)
  {
    if details == [] {
      assert NodesOf(details) + {""} == {""};
    } else {
      var front, last := details[..|details| - 1], details[|details| - 1];
      assert details == front + [last];
      LastIsNew(front, last);
      DetailsAccount(pods, nodes, front, r);
      AccountsOneMore(front, last, pods, nodes, r);
    }
  }

  lemma {:induction false} OutsideAll(pods: seq<Pod>, nodes: set<string>)
    requires forall p :: p in pods ==> p.nodeName in nodes
    ensures Outside(pods, nodes) == []
  {
    if pods == [] {
    } else {
      assert pods[|pods| - 1] in pods;
      assert forall p :: p in pods[..|pods| - 1] ==> p in pods;
      OutsideAll(pods[..|pods| - 1], nodes);
    }
  }

  lemma {:induction false} OutsideNowhere(pods: seq<Pod>)
    ensures Outside(pods, {""}) == Placed(pods)
    ensures |PodsOn(pods, "")| + |Placed(pods)| == |pods|
  {
    if pods == [] {
    } else {
      OutsideNowhere(pods[..|pods| - 1]);
    }
  }

  lemma {:induction false} NoPodCount(pods: seq<Pod>, nodes: map<string, Node>, details: seq<ScheduleDetail>)
    requires AllDescribe(details, pods, nodes)
    ensures Requested(details, "pods") == 0
  {
    if details == [] {
    } else {
      NoPodCount(pods, nodes, details[..|details| - 1]);
      assert Describes(details[|details| - 1], pods, nodes);
    }
  }

  /** Nothing is lost or counted twice: unschedulable pods and replicas add up to all pods, and for every resource
      the reported requests add up to the requests of all placed pods. The pod count, which a request may list like a
      resource, is never added up. */
  lemma {:induction false} ReportConserves(review: Review, pods: seq<Pod>, nodes: map<string, Node>, r: string)
    requires Covers(review, pods, nodes)
    ensures |review.unschedulablePods| + Replicas(review.details) == |pods|
    ensures Requested(review.details, r) == if r == "pods" then 0 else TotalRequest(Placed(pods), r)
  {
    DetailsAccount(pods, nodes, review.details, "cpu");
    if r == "pods" {
      NoPodCount(pods, nodes, review.details);
    } else {
      DetailsAccount(pods, nodes, review.details, r);
    }
    OutsideNowhere(pods);
    OutsideAll(pods, NodesOf(review.details) + {""});
  }
}
