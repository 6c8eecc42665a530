/** Scheduler simulation: when the run may stop. */
module Simulation {
  import opened Kube
  import opened Cluster

  datatype ExitCondition = ExitWhenAllScheduled | ExitWhenAllSucceed | NoExit

  datatype StopReason = AllScheduled(count: nat) | AllSucceed(count: nat)

  datatype PodCondition = PodCondition(kind: string, status: string)

  /** What the handlers look at of a pod. */
  datatype PodView = PodView(namespace: string, name: string, nodeName: string, conditions: seq<PodCondition>)

  datatype Event = Add(pod: PodView) | Update(pod: PodView)

  function KeyFunc(p: PodView): string {
    p.namespace + "/" + p.name
  }

  predicate IsBound(p: PodView) {
    |p.nodeName| > 0
  }

  /** Names separated by a slash are the same exactly when their parts are; namespaces contain none. */
  lemma KeysTellPodsApart(p: PodView, q: PodView)
    requires '/' !in p.namespace && '/' !in q.namespace
    ensures KeyFunc(p) == KeyFunc(q) <==> p.namespace == q.namespace && p.name == q.name
  {
    if KeyFunc(p) == KeyFunc(q) {
      var a, b := |p.namespace|, |q.namespace|;
      assert KeyFunc(p)[a] == '/' && KeyFunc(q)[b] == '/';
      assert p.namespace == KeyFunc(p)[..a] && q.namespace == KeyFunc(q)[..b];
      assert p.name == KeyFunc(p)[a + 1..] && q.name == KeyFunc(q)[b + 1..];
    }
  }

  const UNSCHEDULED := PodCondition("PodScheduled", "False")

  predicate HasFailed(p: PodView) {
    !IsBound(p) && UNSCHEDULED in p.conditions
  }

  // ---------------------------------------------------------------- the log of events

  ghost predicate IsAdded(log: seq<Event>, k: string) {
    exists i :: 0 <= i < |log| && log[i].Add? && KeyFunc(log[i].pod) == k
  }

  /** Pods are added once and before they are updated, and a bound pod stays bound. */
  ghost predicate WellBehaved(log: seq<Event>) {
    && (forall j :: 0 <= j < |log| && log[j].Update? ==> IsAdded(log[..j], KeyFunc(log[j].pod)))
    && (forall j :: 0 <= j < |log| && log[j].Add? ==> !IsAdded(log[..j], KeyFunc(log[j].pod)))
    && (forall i, j :: 0 <= i < j < |log| && KeyFunc(log[i].pod) == KeyFunc(log[j].pod) && IsBound(log[i].pod) ==>
          IsBound(log[j].pod))
  }

  /** The pod has been seen on a node. */
  ghost predicate WasBound(log: seq<Event>, k: string) {
    exists i :: 0 <= i < |log| && KeyFunc(log[i].pod) == k && log[i].pod.nodeName != ""
  }

  /** The pod has a condition that says it could not be scheduled. */
  predicate ReportsRefusal(p: PodView) {
    exists j :: 0 <= j < |p.conditions| && p.conditions[j].kind == "PodScheduled" && p.conditions[j].status == "False"
  }

  /** An update has reported that the pod could not be scheduled. */
  ghost predicate WasRefused(log: seq<Event>, k: string) {
    exists i ::
      && 0 <= i < |log| && log[i].Update? && KeyFunc(log[i].pod) == k
      && log[i].pod.nodeName == "" && ReportsRefusal(log[i].pod)
  }

  /** What each exit condition asks for: every pod added is on a node, or has at least been looked at. */
  ghost predicate Done(exit: ExitCondition, log: seq<Event>) {
    match exit
    case ExitWhenAllSucceed => forall k :: IsAdded(log, k) ==> WasBound(log, k)
    case ExitWhenAllScheduled => forall k :: IsAdded(log, k) ==> WasBound(log, k) || WasRefused(log, k)
    case NoExit => false
  }

  // ---------------------------------------------------------------- the detector

  datatype Detector = Detector(succeeded: set<string>, failed: set<string>, count: nat)

  function After(d: Detector, e: Event): Detector {
    match e
    case Add(p) =>
      d.(succeeded := if IsBound(p) then d.succeeded + {KeyFunc(p)} else d.succeeded, count := d.count + 1)
    case Update(p) =>
      if IsBound(p) then d.(succeeded := d.succeeded + {KeyFunc(p)}, failed := d.failed - {KeyFunc(p)})
      else if HasFailed(p) then d.(failed := d.failed + {KeyFunc(p)})
      else d
  }

  function Detect(log: seq<Event>): Detector {
    if log == [] then Detector({}, {}, 0) else After(Detect(log[..|log| - 1]), log[|log| - 1])
  }

  /** The counting test of the update handler. */
  predicate Fires(exit: ExitCondition, d: Detector) {
    match exit
    case ExitWhenAllScheduled => |d.succeeded| + |d.failed| == d.count
    case ExitWhenAllSucceed => |d.succeeded| == d.count
    case NoExit => false
  }

  lemma FailureIsRefusal(p: PodView)
    ensures HasFailed(p) <==> p.nodeName == "" && ReportsRefusal(p)
    ensures IsBound(p) <==> p.nodeName != ""
  {
    if UNSCHEDULED in p.conditions {
      var j :| 0 <= j < |p.conditions| && p.conditions[j] == UNSCHEDULED;
    }
  }

  // ---------------------------------------------------------------- counting is enough

  lemma FrontBehaves(log: seq<Event>)
    requires WellBehaved(log) && log != []
    ensures WellBehaved(log[..|log| - 1])
  {
    var front := log[..|log| - 1];
    forall j | 0 <= j < |front| ensures front[..j] == log[..j] && front[j] == log[j] {
    }
  }

  lemma LogGrows(log: seq<Event>, k: string)
    requires log != []
    ensures var front, e := log[..|log| - 1], log[|log| - 1];
      && (IsAdded(log, k) <==> IsAdded(front, k) || (e.Add? && KeyFunc(e.pod) == k))
      && (WasBound(log, k) <==> WasBound(front, k) || (KeyFunc(e.pod) == k && IsBound(e.pod)))
      && (WasRefused(log, k) <==> WasRefused(front, k) || (e.Update? && KeyFunc(e.pod) == k && HasFailed(e.pod)))
  {
    FailureIsRefusal(log[|log| - 1].pod);
  }

  /** The sets are what their names say. */
  ghost predicate Agrees(log: seq<Event>, d: Detector) {
    && (forall k :: k in d.succeeded <==> WasBound(log, k))
    && (forall k :: k in d.failed <==> WasRefused(log, k) && !WasBound(log, k))
  }

  lemma SeenIsAdded(log: seq<Event>, k: string)
    requires WellBehaved(log) && (WasBound(log, k) || WasRefused(log, k))
    ensures IsAdded(log, k)
  {
  }

  /** An added pod is new to the log, and an unbound pod has never been bound. */
  lemma LastEvent(log: seq<Event>)
    requires WellBehaved(log) && log != []
    ensures var front, e := log[..|log| - 1], log[|log| - 1];
      && (e.Add? ==> !WasRefused(front, KeyFunc(e.pod)))
      && (!IsBound(e.pod) ==> !WasBound(front, KeyFunc(e.pod)))
  {
    var front, e := log[..|log| - 1], log[|log| - 1];
    FrontBehaves(log);
    if e.Add? && WasRefused(front, KeyFunc(e.pod)) {
      SeenIsAdded(front, KeyFunc(e.pod));
    }
  }

  lemma {:induction false} DetectorAgrees(log: seq<Event>)
    requires WellBehaved(log)
    ensures Agrees(log, Detect(log))
  {
    if log == [] {
    } else {
      var front, e := log[..|log| - 1], log[|log| - 1];
      FrontBehaves(log);
      DetectorAgrees(front);
      var d := Detect(log);
      forall k ensures k in d.succeeded <==> WasBound(log, k) {
        LogGrows(log, k);
      }
      forall k ensures k in d.failed <==> WasRefused(log, k) && !WasBound(log, k) {
        LogGrows(log, k);
        if k == KeyFunc(e.pod) { LastEvent(log); }
      }
    }
  }

  ghost function AddedKeys(log: seq<Event>): set<string> {
    if log == [] then {}
    else AddedKeys(log[..|log| - 1]) + (if log[|log| - 1].Add? then {KeyFunc(log[|log| - 1].pod)} else {})
  }

  lemma {:induction false} AddedKeysAre(log: seq<Event>)
    requires WellBehaved(log)
    ensures forall k :: k in AddedKeys(log) <==> IsAdded(log, k)
    ensures Detect(log).count == |AddedKeys(log)|
  {
    if log == [] {
    } else {
      FrontBehaves(log);
      AddedKeysAre(log[..|log| - 1]);
      forall k ensures k in AddedKeys(log) <==> IsAdded(log, k) {
        LogGrows(log, k);
      }
    }
  }

  lemma FullSubset<T>(a: set<T>, b: set<T>)
    requires a <= b
    ensures |a| == |b| <==> a == b
  {
    assert b == a + (b - a);
  }

  /** The two sets are disjoint parts of the added pods. */
  lemma SetsPartitionAdded(log: seq<Event>)
    requires WellBehaved(log)
    ensures var d := Detect(log);
      d.succeeded !! d.failed && d.succeeded + d.failed <= AddedKeys(log) && d.count == |AddedKeys(log)|
  {
    DetectorAgrees(log);
    AddedKeysAre(log);
    forall k | k in Detect(log).succeeded + Detect(log).failed ensures k in AddedKeys(log) {
      SeenIsAdded(log, k);
    }
  }

  lemma SucceedIffDone(log: seq<Event>)
    requires WellBehaved(log)
    ensures Fires(ExitWhenAllSucceed, Detect(log)) <==> Done(ExitWhenAllSucceed, log)
  {
    var d, added := Detect(log), AddedKeys(log);
    SetsPartitionAdded(log);
    FullSubset(d.succeeded, added);
    DetectorAgrees(log);
    AddedKeysAre(log);
    if Done(ExitWhenAllSucceed, log) {
      assert forall k :: k in added ==> k in d.succeeded;
    }
  }

  lemma SeenIff(log: seq<Event>, k: string)
    requires WellBehaved(log)
    ensures k in Detect(log).succeeded + Detect(log).failed <==> WasBound(log, k) || WasRefused(log, k)
  {
    DetectorAgrees(log);
  }

  lemma AllSeenIff(log: seq<Event>)
    requires WellBehaved(log)
    ensures AddedKeys(log) <= Detect(log).succeeded + Detect(log).failed <==> Done(ExitWhenAllScheduled, log)
  {
    AddedKeysAre(log);
    forall k ensures k in Detect(log).succeeded + Detect(log).failed <==> WasBound(log, k) || WasRefused(log, k) {
      SeenIff(log, k);
    }
  }

  lemma ScheduledIffDone(log: seq<Event>)
    requires WellBehaved(log)
    ensures Fires(ExitWhenAllScheduled, Detect(log)) <==> Done(ExitWhenAllScheduled, log)
  {
    var d, added := Detect(log), AddedKeys(log);
    SetsPartitionAdded(log);
    FullSubset(d.succeeded + d.failed, added);
    AllSeenIff(log);
    assert |d.succeeded + d.failed| == |d.succeeded| + |d.failed|;
  }

  /** The counting test fires exactly when the exit condition holds of the pods themselves. */
  lemma FiresIffDone(exit: ExitCondition, log: seq<Event>)
    requires WellBehaved(log)
    ensures Fires(exit, Detect(log)) <==> Done(exit, log)
  {
    match exit
    case ExitWhenAllSucceed => SucceedIffDone(log);
    case ExitWhenAllScheduled => ScheduledIffDone(log);
    case NoExit =>
  }

  // ---------------------------------------------------------------- when the run stops

  /** The event is an update that finds its exit condition met; additions are not tested. */
  predicate FiresAt(exit: ExitCondition, log: seq<Event>, i: nat)
    requires i < |log|
  {
    log[i].Update? && Fires(exit, Detect(log[..i + 1]))
  }

  /** Some update fires and can save the status. saves holds the positions in the log at which saving works. */
  predicate Stops(exit: ExitCondition, log: seq<Event>, saves: set<nat>) {
    exists i :: i in saves && i < |log| && FiresAt(exit, log, i)
  }

  /** Some update at which saving works leaves every pod added done. */
  ghost predicate DoneAtUpdate(exit: ExitCondition, log: seq<Event>, saves: set<nat>) {
    exists i :: i in saves && 0 <= i < |log| && log[i].Update? && Done(exit, log[..i + 1])
  }

  lemma PrefixBehaves(log: seq<Event>, n: nat)
    requires WellBehaved(log) && n <= |log|
    ensures WellBehaved(log[..n])
  {
    forall j | 0 <= j < n ensures log[..n][..j] == log[..j] && log[..n][j] == log[j] {
    }
  }

  /** A run that stops was done at an update that could save; conversely such an update stops it. */
  lemma StopsIffDoneAtUpdate(exit: ExitCondition, log: seq<Event>, saves: set<nat>)
    requires WellBehaved(log)
    ensures Stops(exit, log, saves) <==> DoneAtUpdate(exit, log, saves)
  {
    forall i | 0 <= i < |log| && log[i].Update?
      ensures FiresAt(exit, log, i) <==> Done(exit, log[..i + 1])
    {
      PrefixBehaves(log, i + 1);
      FiresIffDone(exit, log[..i + 1]);
    }
  }

  /** n pods are added, and then pods are updated. */
  predicate AddsThenUpdates(log: seq<Event>, n: nat) {
    n <= |log| && forall i :: 0 <= i < |log| ==> (log[i].Add? <==> i < n)
  }

  lemma DoneRunsStopOnUpdate(exit: ExitCondition, log: seq<Event>, n: nat, saves: set<nat>)
    requires WellBehaved(log) && AddsThenUpdates(log, n) && Done(exit, log)
    requires forall i :: n <= i < |log| ==> i in saves
    ensures Stops(exit, log, saves) <==> n < |log|
  {
    StopsIffDoneAtUpdate(exit, log, saves);
    if n < |log| {
      var last: nat := |log| - 1;
      assert log[..last + 1] == log;
      assert last in saves && log[last].Update? && Done(exit, log[..last + 1]);
    }
  }

  /** The pod is not on a node when it is added. */
  predicate AddedUnbound(log: seq<Event>, n: nat, i: int)
    requires n <= |log|
  {
    0 <= i < n && !IsBound(log[i].pod)
  }

  /** Only pods that still had to be scheduled when they were added are updated. */
  ghost predicate UpdatesAreOfUnbound(log: seq<Event>, n: nat)
    requires n <= |log|
  {
    forall j :: n <= j < |log| ==> exists i :: AddedUnbound(log, n, i) && KeyFunc(log[i].pod) == KeyFunc(log[j].pod)
  }

  lemma AddedOnce(log: seq<Event>, i: nat, j: nat)
    requires WellBehaved(log) && i < j < |log| && log[i].Add? && log[j].Add?
    ensures KeyFunc(log[i].pod) != KeyFunc(log[j].pod)
  {
    assert log[..j][i] == log[i];
    assert KeyFunc(log[i].pod) == KeyFunc(log[j].pod) ==> IsAdded(log[..j], KeyFunc(log[j].pod));
  }

  /** A pod that was not on a node when it was added can only be done once it has been updated. */
  lemma UnboundGetsUpdated(exit: ExitCondition, log: seq<Event>, n: nat, i: int)
    requires WellBehaved(log) && AddsThenUpdates(log, n) && Done(exit, log) && AddedUnbound(log, n, i)
    ensures n < |log|
  {
    var k := KeyFunc(log[i].pod);
    assert IsAdded(log, k);
    assert WasBound(log, k) || WasRefused(log, k);
    if WasBound(log, k) {
      var j :| 0 <= j < |log| && KeyFunc(log[j].pod) == k && IsBound(log[j].pod);
      if i < j < n { AddedOnce(log, i, j); }
    }
  }

  /** When only pods that still have to be scheduled are updated, a run whose pods are done stops if and only if there
      was such a pod to begin with: the handler for added pods does not test. */
  lemma DoneRunsStopExactlyWhen(exit: ExitCondition, log: seq<Event>, n: nat, saves: set<nat>)
    requires WellBehaved(log) && AddsThenUpdates(log, n) && Done(exit, log) && UpdatesAreOfUnbound(log, n)
    requires forall i :: n <= i < |log| ==> i in saves
    ensures Stops(exit, log, saves) <==> exists i :: AddedUnbound(log, n, i)
  {
    DoneRunsStopOnUpdate(exit, log, n, saves);
    if i :| AddedUnbound(log, n, i) {
      UnboundGetsUpdated(exit, log, n, i);
    }
    if n < |log| {
      assert exists i :: AddedUnbound(log, n, i) && KeyFunc(log[i].pod) == KeyFunc(log[n].pod);
    }
  }

  lemma TwoEventsBehave(p: PodView, q: PodView)
    requires KeyFunc(p) == KeyFunc(q) && (IsBound(p) ==> IsBound(q))
    ensures WellBehaved([Add(p), Update(q)]) && AddsThenUpdates([Add(p), Update(q)], 1)
  {
    var log := [Add(p), Update(q)];
    assert log[..1] == [Add(p)] && log[..0] == [];
    assert log[..1][0].Add? && KeyFunc(log[..1][0].pod) == KeyFunc(p);
    assert IsAdded(log[..1], KeyFunc(p));
  }

  /** For instance a single pod that is refused at its first update has been scheduled once. */
  lemma RefusedPodStops(p: PodView, q: PodView)
    requires KeyFunc(p) == KeyFunc(q) && p.nodeName == "" && q.nodeName == ""
    requires q.conditions == [PodCondition("PodScheduled", "False")]
    ensures Stops(ExitWhenAllScheduled, [Add(p), Update(q)], {1})
    ensures !Stops(ExitWhenAllSucceed, [Add(p), Update(q)], {1})
  {
    var log := [Add(p), Update(q)];
    TwoEventsBehave(p, q);
    assert q.conditions[0].kind == "PodScheduled" && q.conditions[0].status == "False";
    assert log[1].pod == q && WasRefused(log, KeyFunc(p));
    assert forall k :: IsAdded(log, k) ==> k == KeyFunc(p);
    DoneRunsStopOnUpdate(ExitWhenAllScheduled, log, 1, {1});
    StopsIffDoneAtUpdate(ExitWhenAllSucceed, log, {1});
    assert log[..2] == log && IsAdded(log, KeyFunc(p)) by { assert log[0].pod == p; }
  }

  /** An update of a pod that was on a node all along also stops the run. */
  lemma IdleUpdateStops() returns (log: seq<Event>)
    ensures WellBehaved(log) && AddsThenUpdates(log, 1) && !AddedUnbound(log, 1, 0)
    ensures Stops(ExitWhenAllSucceed, log, {1})
  {
    var p := PodView("default", "agent", "node", []);
    log := [Add(p), Update(p)];
    TwoEventsBehave(p, p);
    assert forall k :: IsAdded(log, k) ==> k == KeyFunc(p);
    assert log[0].pod == p;
    assert WasBound(log, KeyFunc(p));
    DoneRunsStopOnUpdate(ExitWhenAllSucceed, log, 1, {1});
  }

  /** For instance a cluster with a single pod that is on a node from the start. */
  lemma AlreadyDoneNeverStops() returns (log: seq<Event>)
    ensures WellBehaved(log) && Done(ExitWhenAllSucceed, log) && Done(ExitWhenAllScheduled, log)
    ensures IsAdded(log, "default/agent")
    ensures forall exit, saves :: !Stops(exit, log, saves)
  {
    var p := PodView("default", "agent", "node", []);
    log := [Add(p)];
    assert KeyFunc(p) == "default/agent";
    assert log[0].Add? && KeyFunc(log[0].pod) == "default/agent" && IsBound(log[0].pod);
    assert WasBound(log, "default/agent") && IsAdded(log, "default/agent");
    assert forall k :: IsAdded(log, k) ==> k == "default/agent";
  }

  lemma FiresAtGrows(exit: ExitCondition, log: seq<Event>, e: Event, i: nat)
    requires i <= |log|
    ensures FiresAt(exit, log + [e], i) <==>
      if i < |log| then FiresAt(exit, log, i) else e.Update? && Fires(exit, Detect(log + [e]))
  {
    var all := log + [e];
    if i < |log| {
      assert all[..i + 1] == log[..i + 1];
    } else {
      assert all[..i + 1] == all;
    }
  }

  lemma StopsAt(exit: ExitCondition, log: seq<Event>, saves: set<nat>, i: nat)
    requires i < |log| && i in saves && FiresAt(exit, log, i)
    ensures Stops(exit, log, saves)
  {
  }

  lemma StopsLater(exit: ExitCondition, log: seq<Event>, e: Event, saves: set<nat>, more: set<nat>)
    requires saves <= more && Stops(exit, log, saves)
    ensures Stops(exit, log + [e], more)
  {
    var i :| i in saves && i < |log| && FiresAt(exit, log, i);
    FiresAtGrows(exit, log, e, i);
    StopsAt(exit, log + [e], more, i);
  }

  lemma FiredAt(exit: ExitCondition, log: seq<Event>, e: Event, saves: set<nat>, i: nat)
    requires i <= |log| && FiresAt(exit, log + [e], i) && (i < |log| ==> i in saves)
    ensures Stops(exit, log, saves) || (i == |log| && e.Update? && Fires(exit, Detect(log + [e])))
  {
    FiresAtGrows(exit, log, e, i);
    if i < |log| {
      StopsAt(exit, log, saves, i);
    }
  }

  lemma StoppedBefore(exit: ExitCondition, log: seq<Event>, e: Event, all: seq<Event>, saves: set<nat>, more: set<nat>)
    requires all == log + [e] && Stops(exit, all, more)
    requires forall i :: i in more && i < |log| ==> i in saves
    ensures Stops(exit, log, saves) || (|log| in more && e.Update? && Fires(exit, Detect(all)))
  {
    var i :| i in more && i < |all| && FiresAt(exit, all, i);
    FiredAt(exit, log, e, saves, i);
  }

  lemma StopsNow(exit: ExitCondition, log: seq<Event>, e: Event, more: set<nat>)
    requires |log| in more && e.Update? && Fires(exit, Detect(log + [e]))
    ensures Stops(exit, log + [e], more)
  {
    FiresAtGrows(exit, log, e, |log|);
    StopsAt(exit, log + [e], more, |log|);
  }

  /** One more event stops the run if it has stopped before, or if the event fires and can save. */
  lemma StopsGrows(exit: ExitCondition, log: seq<Event>, e: Event, saves: set<nat>, more: set<nat>)
    requires saves <= more && forall i :: i in more && i < |log| ==> i in saves
    ensures Stops(exit, log + [e], more) <==>
      Stops(exit, log, saves) || (|log| in more && e.Update? && Fires(exit, Detect(log + [e])))
  {
    if Stops(exit, log + [e], more) {
      StoppedBefore(exit, log, e, log + [e], saves, more);
    } else if Stops(exit, log, saves) {
      StopsLater(exit, log, e, saves, more);
    } else {
      assert !(|log| in more && e.Update? && Fires(exit, Detect(log + [e]))) by {
        if |log| in more && e.Update? && Fires(exit, Detect(log + [e])) { StopsNow(exit, log, e, more); }
      }
    }
  }

  // ---------------------------------------------------------------- the handlers

  method CountEntries(entries: set<string>) returns (n: nat)
    ensures n == |entries|
  {
    n := 0;
    var rest := entries;
    while rest != {}
      invariant rest <= entries && n == |entries| - |rest|
      decreases rest
    {
      var k :| k in rest;
      rest := rest - {k};
      n := n + 1;
    }
  }

  class Simulator {
    const exitCondition: ExitCondition
    const framework: Framework<StopReason>
    var succeedPodMap: set<string>
    var failedPodMap: set<string>
    var count: nat
    ghost var log: seq<Event>
    /** The positions in the log at which saving the status worked, or was not needed. */
    ghost var saves: set<nat>

    /** The sets and the counter are those of the log. */
    ghost predicate Counted()
      reads this
    {
      Detector(succeedPodMap, failedPodMap, count) == Detect(log)
    }

    /** The handlers have seen the log, and the framework has stopped exactly when the run has. */
    ghost predicate Valid()
      reads this, framework
    {
      && Counted()
      && (framework.stopped <==> Stops(exitCondition, log, saves))
      && (forall i :: i in saves ==> i < |log|)
      && (framework.saveTo == "" ==> forall i :: 0 <= i < |log| && log[i].Update? ==> i in saves)
    }

    constructor (exitCondition: ExitCondition, framework: Framework<StopReason>)
      requires !framework.stopped
      ensures Valid() && log == [] && this.exitCondition == exitCondition && this.framework == framework
    {
      this.exitCondition, this.framework := exitCondition, framework;
      succeedPodMap, failedPodMap, count, log, saves := {}, {}, 0, [], {};
    }

    method AddFunc(pod: PodView)
      requires Valid()
      modifies this
      ensures Valid() && log == old(log) + [Add(pod)] && saves == old(saves)
    {
      if |pod.nodeName| > 0 {
        succeedPodMap := succeedPodMap + {KeyFunc(pod)};
      }
      count := count + 1;
      StopsGrows(exitCondition, log, Add(pod), saves, saves);
      ghost var before := log;
      log := log + [Add(pod)];
      assert log[..|log| - 1] == before;
    }

    /** Moves the pod of an update to the set it belongs to. */
    method Record(pod: PodView)
      requires Counted()
      modifies this`succeedPodMap, this`failedPodMap, this`log
      ensures Counted() && log == old(log) + [Update(pod)]
    {
      var key := KeyFunc(pod);
      if |pod.nodeName| > 0 {
        succeedPodMap := succeedPodMap + {key};
        if key in failedPodMap {
          failedPodMap := failedPodMap - {key};
        }
      } else {
        for i := 0 to |pod.conditions|
          modifies this`failedPodMap
          invariant failedPodMap == old(failedPodMap) + (if UNSCHEDULED in pod.conditions[..i] then {key} else {})
        {
          assert pod.conditions[..i + 1] == pod.conditions[..i] + [pod.conditions[i]];
          if pod.conditions[i].kind == "PodScheduled" && pod.conditions[i].status == "False" {
            failedPodMap := failedPodMap + {key};
          }
        }
        assert pod.conditions[..|pod.conditions|] == pod.conditions;
      }
      ghost var before := log;
      log := log + [Update(pod)];
      assert log[..|log| - 1] == before;
    }

    /** Stops the run when the counts say so; a stop that cannot save leaves the run going. */
    method CheckExit() returns (err: Option<Error>)
      modifies framework
      ensures framework.saveTo == "" ==> err.None?
      ensures var d := Detector(succeedPodMap, failedPodMap, count);
        if Fires(exitCondition, d) && !old(framework.stopped) then
          && framework.stopReason == Some(
               if exitCondition == ExitWhenAllScheduled then AllScheduled(count) else AllSucceed(count))
          && (framework.stopped <==> err.None?)
        else
          framework.stopped == old(framework.stopped) && framework.stopReason == old(framework.stopReason)
    {
      var succeedCount := CountEntries(succeedPodMap);
      var failedCount := CountEntries(failedPodMap);
      err := None;
      if exitCondition == ExitWhenAllScheduled && succeedCount + failedCount == count {
        err := framework.Stop(AllScheduled(count));
      } else if exitCondition == ExitWhenAllSucceed && succeedCount == count {
        err := framework.Stop(AllSucceed(count));
      }
    }

    /** Records the update and stops the run exactly when every pod added is done and the status can be saved. */
    method UpdateFunc(pod: PodView) returns (err: Option<Error>)
      requires Valid() && WellBehaved(log + [Update(pod)])
      modifies this, framework
      ensures Valid() && log == old(log) + [Update(pod)]
      ensures framework.saveTo == "" ==> err.None?
      ensures
        if Done(exitCondition, log) && !old(framework.stopped) then
          && framework.stopReason == Some(
               if exitCondition == ExitWhenAllScheduled then AllScheduled(count) else AllSucceed(count))
          && (framework.stopped <==> err.None?)
        else
          framework.stopped == old(framework.stopped) && framework.stopReason == old(framework.stopReason)
    {
      Record(pod);
      FiresIffDone(exitCondition, log);
      err := CheckExit();
      ghost var more := saves + (if err.None? then {|old(log)|} else {});
      StopsGrows(exitCondition, old(log), Update(pod), saves, more);
      saves := more;
    }

    /** So a simulator that need not save has stopped if and only if some update left every pod added done. */
    lemma StoppedExactlyWhen()
      requires Valid() && WellBehaved(log) && framework.saveTo == ""
      ensures framework.stopped <==>
        exists i :: 0 <= i < |log| && log[i].Update? && Done(exitCondition, log[..i + 1])
    {
      StopsIffDoneAtUpdate(exitCondition, log, saves);
      if i :| 0 <= i < |log| && log[i].Update? && Done(exitCondition, log[..i + 1]) {
        assert i in saves;
      }
    }
  }
}
