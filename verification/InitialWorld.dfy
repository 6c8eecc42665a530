/** The world a simulation starts from: what of a snapshot goes into the store, and in which form. */
module InitialWorld {
  import opened Kube
  import opened Cluster
  import Compression

  datatype Settings = Settings(
    excludeNodes: set<string>,
    withScheduledPods: bool,
    withTerminatingPods: bool,
    ignorePodsOnExcludesNode: bool)

  datatype Object = PodObject(pod: Pod) | NodeObject(node: Node)

  /** Nothing, the object as it is, or a pod reset to be scheduled again. */
  function PreAdd(w: Settings, obj: Object): Option<Object> {
    match obj
    case PodObject(p) =>
      if p.nodeName in w.excludeNodes && (w.ignorePodsOnExcludesNode || IsDaemonsetPod(p)) then None
      else if p.phase == Succeeded || p.phase == Failed then None
      else if p.terminating && !w.withTerminatingPods then None
      else if !w.withScheduledPods && !IsDaemonsetPod(p) then Some(PodObject(InitPod(p).(phase := Pending)))
      else Some(obj)
    case NodeObject(n) =>
      if n.name in w.excludeNodes then None else Some(obj)
  }

  /** The pods a snapshot contributes, in its order. */
  function PodsOf(w: Settings, objs: seq<Object>): seq<Pod> {
    if objs == [] then []
    else
      var last := PreAdd(w, objs[|objs| - 1]);
      PodsOf(w, objs[..|objs| - 1]) + (if last.Some? && last.value.PodObject? then [last.value.pod] else [])
  }

  /** The nodes a snapshot contributes, in its order. */
  function NodesOf(w: Settings, objs: seq<Object>): seq<Node> {
    if objs == [] then []
    else
      var last := PreAdd(w, objs[|objs| - 1]);
      NodesOf(w, objs[..|objs| - 1]) + (if last.Some? && last.value.NodeObject? then [last.value.node] else [])
  }

  /** The map files exactly the pods of the list. */
  ghost predicate FilesPods(ps: seq<Pod>, pods: map<Key, Pod>) {
    && (forall p :: p in ps ==> KeyOf(p) in pods && pods[KeyOf(p)] == p)
    && (forall k :: k in pods ==> pods[k] in ps && KeyOf(pods[k]) == k)
  }

  /** The map files exactly the nodes of the list. */
  ghost predicate FilesNodes(ns: seq<Node>, nodes: map<string, Node>) {
    && (forall n :: n in ns ==> n.name in nodes && nodes[n.name] == n)
    && (forall x :: x in nodes ==> nodes[x] in ns && nodes[x].name == x)
  }

  ghost predicate Loaded(w: Settings, objs: seq<Object>, nodes: map<string, Node>, pods: map<Key, Pod>) {
    FilesPods(PodsOf(w, objs), pods) && FilesNodes(NodesOf(w, objs), nodes)
  }

  // ---------------------------------------------------------------- loading

  lemma FileOnePod(ps: seq<Pod>, pods: map<Key, Pod>, p: Pod)
    requires FilesPods(ps, pods) && DistinctKeys(ps)
    ensures KeyOf(p) in pods <==> !DistinctKeys(ps + [p])
    ensures KeyOf(p) !in pods ==> FilesPods(ps + [p], pods[KeyOf(p) := p])
  {
    var all := ps + [p];
    if KeyOf(p) in pods {
      var i :| 0 <= i < |ps| && ps[i] == pods[KeyOf(p)];
      assert KeyOf(all[i]) == KeyOf(all[|ps|]);
    }
    assert forall q :: q in all <==> q in ps || q == p;
  }

  lemma FileOneNode(ns: seq<Node>, nodes: map<string, Node>, n: Node)
    requires FilesNodes(ns, nodes) && DistinctNames(ns)
    ensures n.name in nodes <==> !DistinctNames(ns + [n])
    ensures n.name !in nodes ==> FilesNodes(ns + [n], nodes[n.name := n])
  {
    var all := ns + [n];
    if n.name in nodes {
      var i :| 0 <= i < |ns| && ns[i] == nodes[n.name];
      assert all[i].name == all[|ns|].name;
    }
    assert forall m :: m in all <==> m in ns || m == n;
  }

  /** Longer snapshots only contribute more. */
  lemma {:induction false} PrefixContributes(w: Settings, objs: seq<Object>, i: nat)
    requires i <= |objs|
    ensures PodsOf(w, objs[..i]) <= PodsOf(w, objs) && NodesOf(w, objs[..i]) <= NodesOf(w, objs)
  {
    if i == |objs| {
      assert objs[..i] == objs;
    } else {
      PrefixContributes(w, objs[..|objs| - 1], i);
      assert objs[..|objs| - 1][..i] == objs[..i];
    }
  }

  /** A clash among the first objects is a clash among all. */
  lemma ClashStays(w: Settings, objs: seq<Object>, i: nat)
    requires i <= |objs|
    requires !DistinctKeys(PodsOf(w, objs[..i])) || !DistinctNames(NodesOf(w, objs[..i]))
    ensures !DistinctKeys(PodsOf(w, objs)) || !DistinctNames(NodesOf(w, objs))
  {
    PrefixContributes(w, objs, i);
    var ps, ns, qs, ms := PodsOf(w, objs[..i]), NodesOf(w, objs[..i]), PodsOf(w, objs), NodesOf(w, objs);
    assert forall j :: 0 <= j < |ps| ==> ps[j] == qs[j];
    assert forall j :: 0 <= j < |ns| ==> ns[j] == ms[j];
  }

  // ---------------------------------------------------------------- what the store then holds

  lemma {:induction false} Contributed(w: Settings, objs: seq<Object>)
    ensures forall p :: p in PodsOf(w, objs) <==> exists o :: o in objs && PreAdd(w, o) == Some(PodObject(p))
    ensures forall n :: n in NodesOf(w, objs) <==> exists o :: o in objs && PreAdd(w, o) == Some(NodeObject(n))
  {
    if objs == [] {
    } else {
      var front, last := objs[..|objs| - 1], objs[|objs| - 1];
      Contributed(w, front);
      assert forall o :: o in objs <==> o in front || o == last;
    }
  }

  predicate OwnedByDaemonSet(p: Pod) {
    exists j :: 0 <= j < |p.ownerKinds| && p.ownerKinds[j] == "DaemonSet"
  }

  /** A pod of the snapshot that the simulation leaves out. */
  predicate LeftOut(w: Settings, p: Pod) {
    || (p.nodeName in w.excludeNodes && (w.ignorePodsOnExcludesNode || OwnedByDaemonSet(p)))
    || p.phase == Succeeded || p.phase == Failed
    || (p.terminating && !w.withTerminatingPods)
  }

  /** The form in which a pod is taken over: as it is, or unplaced and pending. */
  ghost predicate TakenOver(w: Settings, p: Pod, q: Pod) {
    if w.withScheduledPods || OwnedByDaemonSet(p) then q == p
    else
      q == p.(
        nodeName := "", phase := Pending, schedulerName := "simulator-scheduler",
        namespace := if p.namespace == "" then "default" else p.namespace,
        annotations := p.annotations["kc.k-cloud-labs.io/provisioned-by" := "simulator-scheduler"])
  }

  lemma PreAddIs(w: Settings, p: Pod, q: Pod)
    ensures PreAdd(w, PodObject(p)) == Some(PodObject(q)) <==> !LeftOut(w, p) && TakenOver(w, p, q)
    ensures PreAdd(w, PodObject(p)).None? || PreAdd(w, PodObject(p)).value.PodObject?
  {
    assert OwnedByDaemonSet(p) <==> IsDaemonsetPod(p);
  }

  lemma PodsAreExactly(w: Settings, objs: seq<Object>, p: Pod)
    ensures p in PodsOf(w, objs) <==>
      exists o :: o in objs && o.PodObject? && !LeftOut(w, o.pod) && TakenOver(w, o.pod, p)
  {
    Contributed(w, objs);
    if p in PodsOf(w, objs) {
      var o :| o in objs && PreAdd(w, o) == Some(PodObject(p));
      PreAddIs(w, o.pod, p);
    }
    if o :| o in objs && o.PodObject? && !LeftOut(w, o.pod) && TakenOver(w, o.pod, p) {
      PreAddIs(w, o.pod, p);
      assert PreAdd(w, o) == Some(PodObject(p));
    }
  }

  /** The store holds exactly the pods of the snapshot that are not left out, each in the form it is taken over, and
      exactly the nodes that are not excluded, as they are. */
  ghost predicate HoldsExactly(w: Settings, objs: seq<Object>, nodes: map<string, Node>, pods: map<Key, Pod>) {
    && (forall p :: (KeyOf(p) in pods && pods[KeyOf(p)] == p) <==>
          exists o :: o in objs && o.PodObject? && !LeftOut(w, o.pod) && TakenOver(w, o.pod, p))
    && (forall n: Node :: (n.name in nodes && nodes[n.name] == n) <==>
          NodeObject(n) in objs && n.name !in w.excludeNodes)
  }

  lemma NodesAreExactly(w: Settings, objs: seq<Object>, n: Node)
    ensures n in NodesOf(w, objs) <==> NodeObject(n) in objs && n.name !in w.excludeNodes
  {
    Contributed(w, objs);
    if NodeObject(n) in objs && n.name !in w.excludeNodes {
      assert PreAdd(w, NodeObject(n)) == Some(NodeObject(n));
    }
  }

  lemma LoadedIsExact(w: Settings, objs: seq<Object>, nodes: map<string, Node>, pods: map<Key, Pod>)
    requires Loaded(w, objs, nodes, pods)
    ensures HoldsExactly(w, objs, nodes, pods)
  {
    forall p ensures (KeyOf(p) in pods && pods[KeyOf(p)] == p) <==>
      exists o :: o in objs && o.PodObject? && !LeftOut(w, o.pod) && TakenOver(w, o.pod, p)
    {
      PodsAreExactly(w, objs, p);
    }
    forall n: Node
      ensures (n.name in nodes && nodes[n.name] == n) <==> NodeObject(n) in objs && n.name !in w.excludeNodes
    {
      NodesAreExactly(w, objs, n);
    }
  }

  /** Loads a snapshot into an empty store. It fails exactly when two of the objects it keeps share a name. */
  method Initialize(w: Settings, objs: seq<Object>, store: Store) returns (err: Option<Error>)
    requires store.nodes == map[] && store.pods == map[]
    modifies store
    ensures store.Valid()
    ensures err.None? <==> DistinctKeys(PodsOf(w, objs)) && DistinctNames(NodesOf(w, objs))
    ensures err.None? ==> Loaded(w, objs, store.nodes, store.pods)
    ensures err.None? ==> HoldsExactly(w, objs, store.nodes, store.pods)
  {
    for i := 0 to |objs|
      invariant store.Valid()
      invariant DistinctKeys(PodsOf(w, objs[..i])) && DistinctNames(NodesOf(w, objs[..i]))
      invariant Loaded(w, objs[..i], store.nodes, store.pods)
    {
      assert objs[..i + 1][..i] == objs[..i];
      err := None;
      var kept := PreAdd(w, objs[i]);
      if kept.Some? {
        if kept.value.PodObject? {
          FileOnePod(PodsOf(w, objs[..i]), store.pods, kept.value.pod);
          err := store.CreatePod(kept.value.pod);
        } else {
          FileOneNode(NodesOf(w, objs[..i]), store.nodes, kept.value.node);
          err := store.CreateNode(kept.value.node);
        }
      }
      if err.Some? {
        ClashStays(w, objs, i + 1);
        return;
      }
    }
    assert objs[..|objs|] == objs;
    LoadedIsExact(w, objs, store.nodes, store.pods);
    err := None;
  }

  /** Excluded nodes are gone with their DaemonSet pods. What else is placed on them stays only in simulations that
      keep scheduled pods and do not ignore those. */
  lemma ExcludedNodesAreGone(w: Settings, objs: seq<Object>, nodes: map<string, Node>, pods: map<Key, Pod>)
    requires Loaded(w, objs, nodes, pods) && "" !in w.excludeNodes
    ensures forall n :: n in w.excludeNodes ==> n !in nodes
    ensures forall k :: k in pods && pods[k].nodeName in w.excludeNodes ==>
      w.withScheduledPods && !w.ignorePodsOnExcludesNode && !IsDaemonsetPod(pods[k])
  {
    Contributed(w, objs);
  }

  /** With scheduled pods dropped every pod that is left waits for the scheduler, or is a DaemonSet pod as it was in
      the snapshot; and no pod of the snapshot is lost that is not meant to be left out. */
  lemma EverythingIsRescheduled(w: Settings, objs: seq<Object>, nodes: map<string, Node>, pods: map<Key, Pod>)
    requires Loaded(w, objs, nodes, pods) && !w.withScheduledPods
    ensures forall k :: k in pods ==>
      || (Unbound(pods[k]) && PROVISIONER in pods[k].annotations)
      || (IsDaemonsetPod(pods[k]) && PodObject(pods[k]) in objs)
    ensures forall o :: o in objs && o.PodObject? && o.pod.namespace != "" && !LeftOut(w, o.pod) ==>
      KeyOf(o.pod) in pods && Core(pods[KeyOf(o.pod)]) == Core(o.pod)
  {
    Contributed(w, objs);
    forall o | o in objs && o.PodObject? && o.pod.namespace != "" && !LeftOut(w, o.pod)
      ensures KeyOf(o.pod) in pods && Core(pods[KeyOf(o.pod)]) == Core(o.pod)
    {
      PlacingKeepsCore(o.pod, "");
      var kept := PreAdd(w, o).value.pod;
      assert kept in PodsOf(w, objs);
      assert KeyOf(kept) == KeyOf(o.pod);
    }
  }

  /** The settings of cluster compression. */
  predicate ForCompression(w: Settings) {
    w.withScheduledPods && w.withTerminatingPods && !w.ignorePodsOnExcludesNode
  }

  /** Compression starts from an initial state exactly when the snapshot names its objects properly and none of the
      pods it keeps already waits for the simulator's own scheduler. */
  lemma CompressionStarts(w: Settings, objs: seq<Object>, nodes: map<string, Node>, pods: map<Key, Pod>)
    requires Loaded(w, objs, nodes, pods) && ForCompression(w)
    ensures Compression.Initial(Compression.Start(nodes, pods)) <==>
      && (forall o :: o in objs && o.NodeObject? && o.node.name !in w.excludeNodes ==> o.node.name != "")
      && (forall o :: o in objs && o.PodObject? && !LeftOut(w, o.pod) ==>
            && o.pod.namespace != "" && !(o.pod.nodeName == "" && o.pod.schedulerName == "simulator-scheduler"))
  {
    Contributed(w, objs);
    forall o | o in objs && o.PodObject? && !LeftOut(w, o.pod)
      ensures KeyOf(o.pod) in pods && pods[KeyOf(o.pod)] == o.pod
    {
      assert o.pod in PodsOf(w, objs);
    }
    forall o | o in objs && o.NodeObject? && o.node.name !in w.excludeNodes
      ensures o.node.name in nodes && nodes[o.node.name] == o.node
    {
      assert o.node in NodesOf(w, objs);
    }
  }
}
