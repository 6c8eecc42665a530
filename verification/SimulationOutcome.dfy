/** From the stop of scheduler simulation to its report: what the exit conditions say about the pods reported. */
module SimulationOutcome {
  import opened Kube
  import opened Simulation
  import opened SimulationReport

  function Name(p: Pod): string {
    p.namespace + "/" + p.name
  }

  /** The last event about the pod shows it where it is. */
  ghost predicate LastSeen(log: seq<Event>, p: Pod, i: int) {
    && 0 <= i < |log| && KeyFunc(log[i].pod) == Name(p) && log[i].pod.nodeName == p.nodeName
    && forall j :: i < j < |log| ==> KeyFunc(log[j].pod) != Name(p)
  }

  /** The handlers have seen every pod of the store where it is. */
  ghost predicate StoreAgrees(log: seq<Event>, pods: seq<Pod>) {
    forall p :: p in pods ==> exists i :: LastSeen(log, p, i)
  }

  /** Every pod added is in the store. */
  ghost predicate StoreIsComplete(log: seq<Event>, pods: seq<Pod>) {
    forall k :: IsAdded(log, k) ==> exists p :: p in pods && Name(p) == k
  }

  lemma EventIsAdded(log: seq<Event>, i: int)
    requires WellBehaved(log) && 0 <= i < |log|
    ensures IsAdded(log, KeyFunc(log[i].pod))
  {
    if log[i].Update? {
      var k := KeyFunc(log[i].pod);
      var j :| 0 <= j < |log[..i]| && log[..i][j].Add? && KeyFunc(log[..i][j].pod) == k;
      assert log[j] == log[..i][j];
    }
  }

  /** A pod of the store has been added, and has been seen on a node exactly if it is on one. */
  lemma SeenWhereItIs(log: seq<Event>, p: Pod, i: int)
    requires WellBehaved(log) && LastSeen(log, p, i)
    ensures IsAdded(log, Name(p)) && (WasBound(log, Name(p)) <==> p.nodeName != "")
  {
    EventIsAdded(log, i);
    if WasBound(log, Name(p)) {
      var j :| 0 <= j < |log| && KeyFunc(log[j].pod) == Name(p) && IsBound(log[j].pod);
      assert j <= i;
    } else {
      assert !IsBound(log[i].pod);
    }
  }

  lemma {:induction false} Unplaced(pods: seq<Pod>)
    ensures forall p :: p in PodsOn(pods, "") <==> p in pods && p.nodeName == ""
  {
    if pods == [] {
    } else {
      assert pods == pods[..|pods| - 1] + [pods[|pods| - 1]];
      Unplaced(pods[..|pods| - 1]);
    }
  }

  lemma NoneOrSome(pods: seq<Pod>)
    ensures pods == [] || exists p :: p in pods
  {
    if pods != [] { assert pods[0] in pods; }
  }

  /** A run that stops because all pods were placed reports no unschedulable pod, and all pods as replicas. */
  lemma AllSucceedLeavesNone(log: seq<Event>, pods: seq<Pod>, nodes: map<string, Node>, review: Review)
    requires WellBehaved(log) && StoreAgrees(log, pods) && Covers(review, pods, nodes)
    requires Done(ExitWhenAllSucceed, log)
    ensures review.unschedulablePods == [] && Replicas(review.details) == |pods|
  {
    forall p | p in pods ensures p.nodeName != "" {
      var i :| LastSeen(log, p, i);
      SeenWhereItIs(log, p, i);
    }
    Unplaced(pods);
    NoneOrSome(PodsOn(pods, ""));
    ReportConserves(review, pods, nodes, "cpu");
  }

  /** With every pod added still in the store, the report is free of unschedulable pods if and only if the exit
      condition for success holds. */
  lemma NoneLeftExactlyWhen(log: seq<Event>, pods: seq<Pod>, nodes: map<string, Node>, review: Review)
    requires WellBehaved(log) && StoreAgrees(log, pods) && StoreIsComplete(log, pods) && Covers(review, pods, nodes)
    ensures review.unschedulablePods == [] <==> Done(ExitWhenAllSucceed, log)
  {
    if Done(ExitWhenAllSucceed, log) {
      AllSucceedLeavesNone(log, pods, nodes, review);
    } else {
      var k :| IsAdded(log, k) && !WasBound(log, k);
      var p :| p in pods && Name(p) == k;
      var i :| LastSeen(log, p, i);
      SeenWhereItIs(log, p, i);
      Unplaced(pods);
      assert p in review.unschedulablePods;
    }
  }

  /** A run that stops because all pods were looked at reports as unschedulable only pods that were refused. */
  lemma AllScheduledLeavesRefused(log: seq<Event>, pods: seq<Pod>, nodes: map<string, Node>, review: Review, p: Pod)
    requires WellBehaved(log) && StoreAgrees(log, pods) && Covers(review, pods, nodes)
    requires Done(ExitWhenAllScheduled, log) && p in review.unschedulablePods
    ensures WasRefused(log, Name(p)) && !WasBound(log, Name(p))
  {
    Unplaced(pods);
    var i :| LastSeen(log, p, i);
    SeenWhereItIs(log, p, i);
  }
}
