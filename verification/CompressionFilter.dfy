/** The node filter of cluster compression: candidates are filtered in batches and served from the batch. */
module CompressionFilter {
  import opened Kube
  import opened NodeFilters
  import opened Compression
  import opened Cluster

  /** The filter rejects the node for a taint. */
  predicate IsTainted(o: Options, n: Node) {
    DefaultFilter(n).None? && o.excludeTaintNode && n.taints != []
  }

  /** The nodes rejected for a taint. */
  function Tainted(o: Options, nodes: map<string, Node>): set<string> {
    set n | n in nodes && IsTainted(o, nodes[n])
  }

  /** What the summary says of them: the nodes scaled down are taken off, though none of them is among these. */
  function TaintReport(o: Options, nodes: map<string, Node>, selectedCount: nat): int {
    if Tainted(o, nodes) == {} then 0 else |Tainted(o, nodes)| - selectedCount
  }

  /** The accepted nodes of a list, in its order. */
  ghost function AcceptedOf(c: Config, s: State, items: seq<Node>): seq<Node> {
    if items == [] then []
    else
      var last := items[|items| - 1];
      AcceptedOf(c, s, items[..|items| - 1]) + (if Accepted(c, s, last.name) then [last] else [])
  }

  /** The nodes of a list rejected for a taint, in its order. */
  function TaintedOf(o: Options, items: seq<Node>): seq<Node> {
    if items == [] then []
    else
      var last := items[|items| - 1];
      TaintedOf(o, items[..|items| - 1]) + (if IsTainted(o, last) then [last] else [])
  }

  lemma {:induction false} AcceptedOfMembers(c: Config, s: State, items: seq<Node>)
    requires DistinctNames(items)
    ensures DistinctNames(AcceptedOf(c, s, items))
    ensures forall x :: x in AcceptedOf(c, s, items) <==> x in items && Accepted(c, s, x.name)
  {
    if items == [] {
    } else {
      var front := items[..|items| - 1];
      assert items == front + [items[|items| - 1]];
      AcceptedOfMembers(c, s, front);
    }
  }

  lemma AcceptedOfLists(c: Config, s: State, items: seq<Node>)
    requires ListsNodes(items, s.nodes)
    ensures ListsAccepted(c, s, AcceptedOf(c, s, items))
    ensures AcceptedOf(c, s, items) == [] ==> forall n :: !Accepted(c, s, n)
  {
    AcceptedOfMembers(c, s, items);
    var batch := AcceptedOf(c, s, items);
    forall n | Accepted(c, s, n) ensures exists i :: 0 <= i < |batch| && batch[i].name == n {
      var i :| 0 <= i < |items| && items[i].name == n;
      assert items[i] in batch;
    }
    forall i | 0 <= i < |batch| ensures batch[i].name in s.nodes && s.nodes[batch[i].name] == batch[i] {
      assert batch[i] in items;
    }
  }

  function TaintedNames(o: Options, items: seq<Node>): set<string> {
    set x | x in items && IsTainted(o, x) :: x.name
  }

  lemma TaintedNamesSnoc(o: Options, front: seq<Node>, last: Node)
    requires DistinctNames(front + [last])
    ensures DistinctNames(front) && last.name !in TaintedNames(o, front)
    ensures TaintedNames(o, front + [last]) == TaintedNames(o, front) + if IsTainted(o, last) then {last.name} else {}
  {
    var items := front + [last];
    assert forall i :: 0 <= i < |front| ==> items[i] == front[i] && items[i].name != items[|front|].name;
    assert forall x :: x in items <==> x in front || x == last;
  }

  lemma {:induction false} TaintedOfSize(o: Options, items: seq<Node>)
    requires DistinctNames(items)
    ensures |TaintedOf(o, items)| == |TaintedNames(o, items)|
  {
    if items == [] {
    } else {
      var front, last := items[..|items| - 1], items[|items| - 1];
      assert items == front + [last];
      TaintedNamesSnoc(o, front, last);
      TaintedOfSize(o, front);
    }
  }

  lemma TaintedOfNodes(o: Options, items: seq<Node>, nodes: map<string, Node>)
    requires ListsNodes(items, nodes)
    ensures |TaintedOf(o, items)| == |Tainted(o, nodes)|
  {
    TaintedOfSize(o, items);
    forall n ensures n in TaintedNames(o, items) <==> n in Tainted(o, nodes) {
      if n in Tainted(o, nodes) {
        var i :| 0 <= i < |items| && items[i].name == n;
        assert items[i] in items;
      }
    }
    assert TaintedNames(o, items) == Tainted(o, nodes);
  }

  /** Every reason listed holds of some node. */
  ghost predicate AllJustified(o: Options, nodes: map<string, Node>, pods: map<Key, Pod>, reasons: set<Reason>) {
    forall r :: r in reasons ==> exists n :: n in nodes && Justified(o, nodes[n], pods, r)
  }

  function ReasonsOf(statuses: seq<Reason>): set<Reason> {
    set r | r in statuses
  }

  /** The statuses account for the rejected nodes of a list. */
  ghost predicate Explains(
    o: Options, nodes: map<string, Node>, pods: map<Key, Pod>, items: seq<Node>, statuses: seq<Reason>)
  {
    Count(statuses, TaintNode) == |TaintedOf(o, items)| && AllJustified(o, nodes, pods, ReasonsOf(statuses))
  }

  lemma ExplainOneMore(
    o: Options, nodes: map<string, Node>, pods: map<Key, Pod>, items: seq<Node>, statuses: seq<Reason>, n: Node,
    r: Reason)
    requires Explains(o, nodes, pods, items, statuses)
    requires n.name in nodes && nodes[n.name] == n && Justified(o, n, pods, r)
    requires r == TaintNode <==> IsTainted(o, n)
    ensures Explains(o, nodes, pods, items + [n], statuses + [r])
  {
    assert (items + [n])[..|items|] == items;
    assert ReasonsOf(statuses + [r]) == ReasonsOf(statuses) + {r} by {
      assert forall x :: x in statuses + [r] <==> x in statuses || x == r;
    }
  }

  lemma ExplainAccepted(
    o: Options, nodes: map<string, Node>, pods: map<Key, Pod>, items: seq<Node>, statuses: seq<Reason>, n: Node)
    requires Explains(o, nodes, pods, items, statuses) && !IsTainted(o, n)
    ensures Explains(o, nodes, pods, items + [n], statuses)
  {
  }

  /** The nodes of a list, sorted into the accepted ones and the reasons for the others. */
  ghost predicate Sorted(c: Config, s: State, items: seq<Node>, batch: seq<Node>, statuses: seq<Reason>) {
    && batch == AcceptedOf(c, s, items)
    && Explains(c.options, s.nodes, s.pods, items, statuses)
    && |batch| + |statuses| == |items|
  }

  lemma SortedWithAccepted(c: Config, s: State, items: seq<Node>, i: nat, batch: seq<Node>, statuses: seq<Reason>)
    requires i < |items| && Sorted(c, s, items[..i], batch, statuses)
    requires Accepted(c, s, items[i].name) && !IsTainted(c.options, items[i])
    ensures Sorted(c, s, items[..i + 1], batch + [items[i]], statuses)
  {
    assert items[..i + 1] == items[..i] + [items[i]] && items[..i + 1][..i] == items[..i];
    ExplainAccepted(c.options, s.nodes, s.pods, items[..i], statuses, items[i]);
  }

  lemma SortedWithRejected(
    c: Config, s: State, items: seq<Node>, i: nat, batch: seq<Node>, statuses: seq<Reason>, r: Reason)
    requires i < |items| && Sorted(c, s, items[..i], batch, statuses)
    requires !Accepted(c, s, items[i].name) && (r == TaintNode <==> IsTainted(c.options, items[i]))
    requires items[i].name in s.nodes && s.nodes[items[i].name] == items[i] && Justified(c.options, items[i], s.pods, r)
    ensures Sorted(c, s, items[..i + 1], batch, statuses + [r])
  {
    assert items[..i + 1] == items[..i] + [items[i]] && items[..i + 1][..i] == items[..i];
    ExplainOneMore(c.options, s.nodes, s.pods, items[..i], statuses, items[i], r);
  }

  lemma SortedAll(c: Config, s: State, items: seq<Node>, batch: seq<Node>, statuses: seq<Reason>)
    requires ListsNodes(items, s.nodes) && Sorted(c, s, items, batch, statuses)
    ensures ListsAccepted(c, s, batch)
    ensures batch == [] ==> forall n :: !Accepted(c, s, n)
    ensures Count(statuses, TaintNode) == |Tainted(c.options, s.nodes)|
    ensures |batch| + |statuses| == |s.nodes|
    ensures AllJustified(c.options, s.nodes, s.pods, ReasonsOf(statuses))
  {
    AcceptedOfLists(c, s, items);
    TaintedOfNodes(c.options, items, s.nodes);
  }

  /** What selection returns: a node, or the summary of why there is none. */
  datatype SelectStatus = Selected(node: Node) | Rejected(summary: map<Reason, int>)

  class SingleNodeFilter {
    const store: Store
    const framework: Framework<StopReason>
    const options: Options
    var selectedCount: nat
    var candidateNode: seq<Node>
    var candidateIndex: nat

    constructor (store: Store, framework: Framework<StopReason>, options: Options)
      requires framework.store == store
      ensures this.store == store && this.framework == framework && this.options == options
      ensures selectedCount == 0 && candidateNode == [] && candidateIndex == 0
    {
      this.store, this.framework, this.options := store, framework, options;
      selectedCount, candidateNode, candidateIndex := 0, [], 0;
    }

    method Done()
      modifies this`selectedCount
      ensures selectedCount == old(selectedCount) + 1
    {
      selectedCount := selectedCount + 1;
    }

    lemma NoPodObjectsToTaints(o: Options, ps: seq<Pod>)
      ensures FirstPodVerdict(o, ps) != Some(TaintNode)
    {
    }

    /** The verdict of the filter on a node, with the pods the cache reports for it. */
    method NodeFilter(node: Node) returns (verdict: Verdict)
      requires framework.store == store && store.Valid()
      ensures verdict.None? <==> Passes(options, node, store.pods)
      ensures verdict.None? <==> forall r :: !Justified(options, node, store.pods, r)
      ensures verdict == Some(TaintNode) <==> IsTainted(options, node)
      ensures verdict.Some? ==>
        && Justified(options, node, store.pods, verdict.value)
        && forall q :: Rank(q) < Rank(verdict.value) && !IsAboutPods(q) ==> !Justified(options, node, store.pods, q)
    {
      var pods, _ := framework.GetPodsByNode(node.name);
      verdict := Filter(options, node, pods);
      PassesExactlyWhen(options, node, store.pods);
      if verdict.Some? {
        RejectionsAreJustified(options, node, store.pods, pods);
      }
      FilterDecidesPasses(options, node, store.pods, pods);
      NoPodObjectsToTaints(options, pods);
    }

    /** Filters one more node: it joins the batch, or the reason joins the statuses. */
    method Sort(
      ghost c: Config, ghost s: State, ghost items: seq<Node>, ghost i: nat, node: Node, statuses: seq<Reason>)
      returns (more: seq<Reason>)
      requires framework.store == store && store.Valid()
      requires c.options == options && s.nodes == store.nodes && s.pods == store.pods
      requires ListsNodes(items, s.nodes) && i < |items| && node == items[i]
      requires Sorted(c, s, items[..i], candidateNode, statuses)
      modifies this`candidateNode
      ensures Sorted(c, s, items[..i + 1], candidateNode, more)
    {
      var verdict := NodeFilter(node);
      if verdict.None? {
        SortedWithAccepted(c, s, items, i, candidateNode, statuses);
        candidateNode := candidateNode + [node];
        more := statuses;
      } else {
        SortedWithRejected(c, s, items, i, candidateNode, statuses, verdict.value);
        more := statuses + [verdict.value];
      }
    }

    method SortAll(ghost c: Config, ghost s: State, items: seq<Node>) returns (statuses: seq<Reason>)
      requires framework.store == store && store.Valid()
      requires c.options == options && s.nodes == store.nodes && s.pods == store.pods
      requires ListsNodes(items, s.nodes) && candidateNode == []
      modifies this`candidateNode
      ensures Sorted(c, s, items, candidateNode, statuses)
    {
      statuses := [];
      for i := 0 to |items|
        invariant Sorted(c, s, items[..i], candidateNode, statuses)
      {
        statuses := Sort(c, s, items, i, items[i], statuses);
      }
      assert items[..|items|] == items;
    }

    /** Filters all nodes anew: the accepted ones make up the new batch, the reasons for the others are returned. */
    method NewBatch(ghost c: Config, ghost s: State) returns (statuses: seq<Reason>)
      requires framework.store == store && store.Valid()
      requires c.options == options && s.nodes == store.nodes && s.pods == store.pods
      modifies this`candidateNode
      ensures ListsAccepted(c, s, candidateNode)
      ensures candidateNode == [] ==> forall n :: !Accepted(c, s, n)
      ensures Count(statuses, TaintNode) == |Tainted(options, store.nodes)|
      ensures |candidateNode| + |statuses| == |store.nodes|
      ensures AllJustified(options, store.nodes, store.pods, ReasonsOf(statuses))
    {
      candidateNode := [];
      var items := store.ListNodes();
      statuses := SortAll(c, s, items);
      SortedAll(c, s, items, candidateNode, statuses);
    }

    /** Serves the next candidate of the current batch, or filters all nodes anew.
        s is the state of the simulation, as far as the filter sees it. */
    method SelectNode(ghost c: Config, ghost s: State) returns (status: SelectStatus)
      requires framework.store == store && store.Valid()
      requires c.options == options && s.nodes == store.nodes && s.pods == store.pods
      requires s.candidateNode == candidateNode && s.candidateIndex == candidateIndex
      modifies this`candidateNode, this`candidateIndex
      ensures status.Selected? ==> Serves(c, s, status.node, candidateNode, candidateIndex)
      ensures status.Rejected? ==>
        && s.candidateIndex >= |s.candidateNode| && candidateNode == [] && candidateIndex == 0
        && (forall n :: !Accepted(c, s, n))
        && AllJustified(options, store.nodes, store.pods, status.summary.Keys)
        && Reported(status.summary, TaintNode) == TaintReport(options, store.nodes, selectedCount)
    {
      if |candidateNode| != 0 && candidateIndex <= |candidateNode| - 1 {
        var selectNode := candidateNode[candidateIndex];
        candidateIndex := candidateIndex + 1;
        if candidateIndex == |candidateNode| {
          candidateNode := [];
          candidateIndex := 0;
        }
        return Selected(selectNode);
      }
      candidateNode := [];
      candidateIndex := 0;
      var statuses := NewBatch(c, s);
      if |candidateNode| == 0 {
        var summary := ConvertFilterStatusesToStatus(statuses, selectedCount);
        assert forall r :: r in summary.Keys ==> r in ReasonsOf(statuses);
        return Rejected(summary);
      }
      candidateIndex := candidateIndex + 1;
      status := Selected(candidateNode[0]);
    }
  }
}
