/** What every reachable state of cluster compression satisfies. */
module CompressionInvariant {
  import opened Kube
  import opened NodeFilters
  import opened Placement
  import opened Compression

  /** A node is being tried, or its trial was cut off by the limit. */
  predicate InFlight(s: State) {
    s.stage == Trying || s.stage == Stopped(LimitReached)
  }

  /** The pods as they were when the current node was selected. */
  function Base(s: State): map<Key, Pod> {
    if InFlight(s) && s.createPodIndex <= |s.createdPods| then Undo(s) else s.pods
  }

  ghost predicate Shape(s: State) {
    && DistinctKeys(s.createdPods)
    && 0 < s.createPodIndex <= |s.createdPods|
    && s.createPodIndex == s.bindSuccessPodCount + 1
    && (forall p :: p in s.createdPods ==> p.nodeName == s.currentNode && Movable(p) && p.namespace != "")
    && (forall i :: 0 <= i < s.createPodIndex ==>
          KeyOf(s.createdPods[i]) in s.pods && Core(s.pods[KeyOf(s.createdPods[i])]) == Core(s.createdPods[i]))
    && (forall i :: s.createPodIndex <= i < |s.createdPods| ==> KeyOf(s.createdPods[i]) !in s.pods)
  }

  /** Exactly one pod waits for the scheduler: the last one created. */
  ghost predicate OnePending(s: State) {
    && 0 < s.createPodIndex <= |s.createdPods|
    && var last := s.createdPods[s.createPodIndex - 1];
    && KeyOf(last) in s.pods && s.pods[KeyOf(last)] == InitPod(last)
    && forall k :: k in s.pods && Unbound(s.pods[k]) ==> k == KeyOf(last)
  }

  ghost predicate Attempt(s: State) {
    && (InFlight(s) ==> Shape(s))
    && (if s.stage == Trying then OnePending(s) else NothingPending(s.pods))
  }

  ghost predicate SameCores(a: map<Key, Pod>, b: map<Key, Pod>) {
    && a.Keys == b.Keys
    && forall k :: k in a ==> Core(a[k]) == Core(b[k])
  }

  /** Pods that are not movable never change. */
  ghost predicate SameUnmovable(a: map<Key, Pod>, b: map<Key, Pod>) {
    forall k :: k in a && k in b && !Movable(b[k]) ==> a[k] == b[k]
  }

  ghost predicate Conserved(s0: State, s: State) {
    SameCores(Base(s), s0.pods) && SameUnmovable(Base(s), s0.pods)
  }

  // ---------------------------------------------------------------- the fate of nodes

  function NewlyFailed(before: map<string, Node>, now: map<string, Node>): set<string> {
    set n | n in now && n in before && FAILED_LABEL in now[n].labels && FAILED_LABEL !in before[n].labels
  }

  /** The nodes that got the failed label during the run. */
  function FailedNodes(s0: State, s: State): set<string> {
    NewlyFailed(s0.nodes, s.nodes)
  }

  /** A node after a failed attempt. */
  function GivenUp(n: Node): Node {
    Labelled(if n.unschedulable then Cordoned(n) else Uncordoned(n), FAILED_LABEL)
  }

  function Retired(n: Node): Node {
    Labelled(Cordoned(n), SUCCESS_LABEL)
  }

  /** Where a node stands, from where it started and what became of it. */
  function Expected(s0: State, s: State, n: string): Node
    requires n in s0.nodes
  {
    if n in s.nodesToScaleDown then Retired(s0.nodes[n])
    else if n in FailedNodes(s0, s) then GivenUp(s0.nodes[n])
    else if InFlight(s) && n == s.currentNode then Cordoned(s0.nodes[n])
    else s0.nodes[n]
  }

  ghost predicate Selectable(s0: State, n: string) {
    n in s0.nodes && DefaultFilter(s0.nodes[n]).None?
  }

  ghost predicate FatesOfNodes(s0: State, s: State) {
    && s.nodes.Keys == s0.nodes.Keys
    && (forall n :: n in s0.nodes ==> s.nodes[n] == Expected(s0, s, n))
    && (forall n :: n in FailedNodes(s0, s) ==> Selectable(s0, n))
  }

  ghost predicate FatesOfList(s0: State, list: seq<string>) {
    && (forall n :: n in list ==> Selectable(s0, n))
    && (forall i, j :: 0 <= i < j < |list| ==> list[i] != list[j])
  }

  ghost predicate Fates(s0: State, s: State) {
    && FatesOfNodes(s0, s)
    && FatesOfList(s0, s.nodesToScaleDown)
    && (InFlight(s) ==>
          && Selectable(s0, s.currentNode)
          && s.currentNode !in s.nodesToScaleDown
          && s.currentNode !in FailedNodes(s0, s)
          && s.currentNodeUnschedulable == s0.nodes[s.currentNode].unschedulable)
  }

  ghost predicate Accounts(s0: State, s: State) {
    && s.simulated == s.selectedCount == |s.nodesToScaleDown|
    && s.failedSchedulerCount == |FailedNodes(s0, s)|
    && s.selectNodeCount ==
         |s.nodesToScaleDown| + s.failedSchedulerCount + (if s.stage == Selecting then 0 else 1)
  }

  // ---------------------------------------------------------------- the candidate cache

  /** The node passes the filter now and would pass it after a rollback. */
  ghost predicate Eligible(c: Config, s: State, n: string) {
    && n in s.nodes
    && Passes(c.options, s.nodes[n], s.pods)
    && Passes(c.options, s.nodes[n], Base(s))
  }

  ghost predicate Cache(c: Config, s: State) {
    && s.candidateIndex <= |s.candidateNode|
    && (forall i :: s.candidateIndex <= i < |s.candidateNode| ==>
          && Eligible(c, s, s.candidateNode[i].name)
          && s.nodes[s.candidateNode[i].name] == s.candidateNode[i]
          && (InFlight(s) ==> s.candidateNode[i].name != s.currentNode))
    && (forall i, j :: s.candidateIndex <= i < j < |s.candidateNode| ==>
          s.candidateNode[i].name != s.candidateNode[j].name)
    && (InFlight(s) ==> forall p :: p in s.createdPods ==> PodVerdict(c.options, p).None?)
  }

  // ---------------------------------------------------------------- drained nodes

  /** The taints of the node once it is cordoned. */
  function Bars(s0: State, n: string): seq<Taint> {
    if n in s0.nodes then Cordoned(s0.nodes[n]).taints else [UNSCHEDULABLE]
  }

  /** Every pod left on the node is unmovable or tolerates all its taints. */
  ghost predicate Drained(pods: map<Key, Pod>, n: string, bars: seq<Taint>) {
    forall k :: On(pods, k, n) && Movable(pods[k]) ==> ToleratesAll(pods[k], bars)
  }

  ghost predicate Drains(s0: State, s: State) {
    && (forall n :: n in s.nodesToScaleDown ==> Drained(s.pods, n, Bars(s0, n)) && Drained(Base(s), n, Bars(s0, n)))
    && (InFlight(s) ==> Drained(s.pods, s.currentNode, Bars(s0, s.currentNode)))
  }

  ghost predicate Inv(c: Config, s0: State, s: State) {
    && WellFormed(s.nodes, s.pods)
    && Attempt(s)
    && Conserved(s0, s)
    && Fates(s0, s)
    && Accounts(s0, s)
    && Cache(c, s)
    && Drains(s0, s)
  }

  // ---------------------------------------------------------------- the rollback map

  lemma {:induction false} AsMapOf(ps: seq<Pod>)
    requires DistinctKeys(ps)
    ensures AsMap(ps).Keys == KeysOf(ps)
    ensures forall p :: p in ps ==> AsMap(ps)[KeyOf(p)] == p
  {
    if ps == [] {
    } else {
      var front, last := ps[..|ps| - 1], ps[|ps| - 1];
      assert ps == front + [last];
      AsMapOf(front);
      forall p | p in ps ensures KeyOf(p) in AsMap(ps) && AsMap(ps)[KeyOf(p)] == p {
        if p != last {
          var i :| 0 <= i < |front| && front[i] == p;
          assert ps[i] == p && i < |ps| - 1;
        }
      }
    }
  }

  /** Undo puts the originals back and keeps every other pod. */
  lemma UndoAt(s: State)
    requires Shape(s)
    ensures forall p :: p in s.createdPods ==> KeyOf(p) in Undo(s) && Undo(s)[KeyOf(p)] == p
    ensures forall k :: k !in KeysOf(s.createdPods) ==> (k in Undo(s) <==> k in s.pods)
    ensures forall k :: k !in KeysOf(s.createdPods) && k in s.pods ==> Undo(s)[k] == s.pods[k]
    ensures Undo(s).Keys == s.pods.Keys + KeysOf(s.createdPods)
  {
    AsMapOf(s.createdPods);
    assert forall k :: k in KeysOf(s.createdPods[..s.createPodIndex]) ==> k in KeysOf(s.createdPods);
    var u := Undo(s);
    forall k ensures k in u <==> k in s.pods || k in KeysOf(s.createdPods) {
    }
  }

  /** The pods that agree with the state outside the attempt and hold the originals inside it are the rollback. */
  lemma UndoIs(s: State, pods: map<Key, Pod>)
    requires Shape(s)
    requires forall p :: p in s.createdPods ==> KeyOf(p) in pods && pods[KeyOf(p)] == p
    requires forall k :: k !in KeysOf(s.createdPods) ==> (k in pods <==> k in s.pods)
    requires forall k :: k !in KeysOf(s.createdPods) && k in pods ==> pods[k] == s.pods[k]
    ensures Undo(s) == pods
  {
    UndoAt(s);
    var u := Undo(s);
    forall k ensures k in u <==> k in pods {
    }
    forall k | k in u ensures u[k] == pods[k] {
      if k in KeysOf(s.createdPods) {
        var p :| p in s.createdPods && KeyOf(p) == k;
      }
    }
  }
}
