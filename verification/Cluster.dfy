/** The in-memory cluster the simulators run against, and the framework around it. */
module Cluster {
  import opened Kube
  import opened NodeFilters

  datatype Error = NotFound | AlreadyExists | NoPodsOnNode | SaveFailed | NoNodeSelected

  predicate DistinctNames(items: seq<Node>) {
    forall i, j :: 0 <= i < j < |items| ==> items[i].name != items[j].name
  }

  /** items lists every node once, in any order. */
  ghost predicate ListsNodes(items: seq<Node>, nodes: map<string, Node>) {
    && DistinctNames(items) && |items| == |nodes|
    && (forall i :: 0 <= i < |items| ==> items[i].name in nodes && nodes[items[i].name] == items[i])
    && (forall n :: n in nodes ==> exists i :: 0 <= i < |items| && items[i].name == n)
  }

  /** The API objects. The scheduler's cache is taken to agree with them whenever an event is handled. */
  class Store {
    var nodes: map<string, Node>
    var pods: map<Key, Pod>

    /** Objects are filed under their own names. */
    ghost predicate Valid()
      reads this
    {
      && (forall n :: n in nodes ==> nodes[n].name == n)
      && (forall k :: k in pods ==> KeyOf(pods[k]) == k)
    }

    constructor (nodes: map<string, Node>, pods: map<Key, Pod>)
      requires forall n :: n in nodes ==> nodes[n].name == n
      requires forall k :: k in pods ==> KeyOf(pods[k]) == k
      ensures Valid() && this.nodes == nodes && this.pods == pods
    {
      this.nodes, this.pods := nodes, pods;
    }

    method GetNode(name: string) returns (node: Option<Node>)
      ensures node == if name in nodes then Some(nodes[name]) else None
    {
      node := if name in nodes then Some(nodes[name]) else None;
    }

    method UpdateNode(node: Node) returns (err: Option<Error>)
      requires Valid()
      modifies this`nodes
      ensures Valid()
      ensures err.None? <==> node.name in old(nodes)
      ensures nodes == if err.None? then old(nodes)[node.name := node] else old(nodes)
    {
      if node.name !in nodes {
        return Some(NotFound);
      }
      nodes := nodes[node.name := node];
      err := None;
    }

    method CreateNode(node: Node) returns (err: Option<Error>)
      requires Valid()
      modifies this`nodes
      ensures Valid()
      ensures err.None? <==> node.name !in old(nodes)
      ensures nodes == if err.None? then old(nodes)[node.name := node] else old(nodes)
    {
      if node.name in nodes {
        return Some(AlreadyExists);
      }
      nodes := nodes[node.name := node];
      err := None;
    }

    method GetPod(key: Key) returns (pod: Option<Pod>)
      ensures pod == if key in pods then Some(pods[key]) else None
    {
      pod := if key in pods then Some(pods[key]) else None;
    }

    method CreatePod(pod: Pod) returns (err: Option<Error>)
      requires Valid()
      modifies this`pods
      ensures Valid()
      ensures err.None? <==> KeyOf(pod) !in old(pods)
      ensures pods == if err.None? then old(pods)[KeyOf(pod) := pod] else old(pods)
    {
      if KeyOf(pod) in pods {
        return Some(AlreadyExists);
      }
      pods := pods[KeyOf(pod) := pod];
      err := None;
    }

    method UpdatePod(pod: Pod) returns (err: Option<Error>)
      requires Valid()
      modifies this`pods
      ensures Valid()
      ensures err.None? <==> KeyOf(pod) in old(pods)
      ensures pods == if err.None? then old(pods)[KeyOf(pod) := pod] else old(pods)
    {
      if KeyOf(pod) !in pods {
        return Some(NotFound);
      }
      pods := pods[KeyOf(pod) := pod];
      err := None;
    }

    method DeletePod(key: Key) returns (err: Option<Error>)
      requires Valid()
      modifies this`pods
      ensures Valid()
      ensures err.None? <==> key in old(pods)
      ensures pods == old(pods) - {key}
    {
      err := if key in pods then None else Some(NotFound);
      pods := pods - {key};
    }

    /** Lists the nodes in an order the caller cannot rely on. */
    method ListNodes() returns (items: seq<Node>)
      requires Valid()
      ensures ListsNodes(items, nodes)
    {
      items := [];
      var rest := nodes.Keys;
      while rest != {}
        invariant rest <= nodes.Keys && |items| + |rest| == |nodes.Keys|
        invariant forall i :: 0 <= i < |items| ==>
          items[i].name in nodes && nodes[items[i].name] == items[i] && items[i].name !in rest
        invariant forall i, j :: 0 <= i < j < |items| ==> items[i].name != items[j].name
        invariant forall n :: n in nodes && n !in rest ==> exists i :: 0 <= i < |items| && items[i].name == n
        decreases rest
      {
        var n :| n in rest;
        ghost var before := items;
        items := items + [nodes[n]];
        rest := rest - {n};
        forall m | m in nodes && m !in rest ensures exists i :: 0 <= i < |items| && items[i].name == m {
          if m == n {
            assert items[|before|].name == m;
          } else {
            var i :| 0 <= i < |before| && before[i].name == m;
            assert items[i].name == m;
          }
        }
      }
    }

    /** Lists the pods of a node in an order the caller cannot rely on. */
    method PodsOnNode(node: string) returns (items: seq<Pod>)
      requires Valid()
      ensures ListsPodsOn(items, pods, node)
    {
      items := [];
      var rest := pods.Keys;
      while rest != {}
        invariant rest <= pods.Keys
        invariant forall i :: 0 <= i < |items| ==>
          On(pods, KeyOf(items[i]), node) && pods[KeyOf(items[i])] == items[i] && KeyOf(items[i]) !in rest
        invariant DistinctKeys(items)
        invariant forall k :: On(pods, k, node) && k !in rest ==> k in KeysOf(items)
        decreases rest
      {
        var k :| k in rest;
        if pods[k].nodeName == node {
          ghost var before := items;
          items := items + [pods[k]];
          assert items[|before|] == pods[k];
          assert KeysOf(items) == KeysOf(before) + {k};
        }
        rest := rest - {k};
      }
    }
  }

  /** The scheduler framework: status, and the one-shot stop. R is the type of the stop reasons. */
  class Framework<R> {
    const store: Store
    const saveTo: string
    var podsForEstimation: seq<Pod>
    var nodesToScaleDown: seq<string>
    var selectNodeCount: nat
    var schedulerCount: nat
    var failedSchedulerCount: nat
    var statusNodes: map<string, Node>
    var statusPods: map<Key, Pod>
    var stopReason: Option<R>
    var stopped: bool
    /** How many times the three stop channels have been closed. */
    var closed: nat

    constructor (store: Store, saveTo: string)
      ensures this.store == store && this.saveTo == saveTo
      ensures podsForEstimation == [] && nodesToScaleDown == []
      ensures selectNodeCount == schedulerCount == failedSchedulerCount == 0
      ensures !stopped && closed == 0 && stopReason == None
    {
      this.store, this.saveTo := store, saveTo;
      podsForEstimation, nodesToScaleDown := [], [];
      selectNodeCount, schedulerCount, failedSchedulerCount := 0, 0, 0;
      statusNodes, statusPods, stopReason, stopped, closed := map[], map[], None, false, 0;
    }

    /** The pods of a node; an empty node is reported as an error. */
    method GetPodsByNode(node: string) returns (pods: seq<Pod>, err: Option<Error>)
      requires store.Valid()
      ensures ListsPodsOn(pods, store.pods, node)
      ensures err.Some? <==> pods == []
    {
      pods := store.PodsOnNode(node);
      err := if pods == [] then Some(NoPodsOnNode) else None;
    }

    method UpdateEstimationPods(pod: Pod)
      modifies this`podsForEstimation
      ensures podsForEstimation == old(podsForEstimation) + [pod]
    {
      podsForEstimation := podsForEstimation + [pod];
    }

    method UpdateNodesToScaleDown(nodeName: string)
      modifies this`nodesToScaleDown
      ensures nodesToScaleDown == old(nodesToScaleDown) + [nodeName]
    {
      nodesToScaleDown := nodesToScaleDown + [nodeName];
    }

    /** Only the first successful stop takes effect; a stop that fails to save leaves the framework running, with
        the status it recorded. */
    method Stop(reason: R) returns (err: Option<Error>)
      modifies this`statusNodes, this`statusPods, this`stopReason, this`stopped, this`closed
      ensures old(stopped) ==> unchanged(this) && err.None?
      ensures !old(stopped) ==>
        && statusNodes == store.nodes && statusPods == store.pods && stopReason == Some(reason)
        && (stopped <==> err.None?)
        && closed == old(closed) + (if stopped then 1 else 0)
      ensures saveTo == "" ==> err.None? && stopped
    {
      if stopped {
        return None;
      }
      statusNodes := store.nodes;
      statusPods := store.pods;
      stopReason := Some(reason);
      if |saveTo| > 0 {
        var failed: bool := *;
        if failed {
          return Some(SaveFailed);
        }
      }
      stopped := true;
      closed := closed + 1;
      err := None;
    }
  }
}
