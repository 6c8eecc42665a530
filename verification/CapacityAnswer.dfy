/** From the runs of capacity estimation to the report: what is listed for each node. */
module CapacityAnswer {
  import opened Kube
  import opened Capacity
  import opened CapacityRuns
  import opened CapacityReport

  lemma TakenOnlyOnNodes(c: Config, s: State, e: Event, n: string)
    requires Enabled(c, s, e) && n !in c.nodes
    ensures OnNode(Apply(c, s, e).podsForEstimation, n) == OnNode(s.podsForEstimation, n)
  {
  }

  /** No pod is counted on anything but a node of the cluster. */
  lemma {:induction false} CountedOnNodes(c: Config, states: seq<State>, events: seq<Event>, i: nat, n: string)
    requires IsRun(c, states, events) && i < |states| && n !in c.nodes
    ensures OnNode(states[i].podsForEstimation, n) == 0
  {
    if i == 0 {
    } else {
      CountedOnNodes(c, states, events, i - 1, n);
      assert Next(c, states[i - 1], events[i - 1], states[i]);
      TakenOnlyOnNodes(c, states[i - 1], events[i - 1], n);
    }
  }

  lemma {:induction false} TallyOfOneTemplate(pods: seq<Pod>, n: string)
    ensures Tally(pods, 1, 0, n) == OnNode(pods, n)
  {
    if pods == [] {
    } else {
      TallyOfOneTemplate(pods[..|pods| - 1], n);
    }
  }

  ghost function SlotsAt(c: Config, pods: map<Key, Pod>, n: string): nat {
    if n in c.nodes then Slots(c, pods, n) else 0
  }

  lemma {:induction false} NoSlotLeft(c: Config, pods: map<Key, Pod>, ns: set<string>, n: string)
    requires ns <= c.nodes.Keys && n in ns && SlotsOf(c, pods, ns) == 0
    ensures Slots(c, pods, n) == 0
  {
    SlotsWithout(c, pods, ns, n);
  }

  /** A node is never listed with more replicas than it had slots, and when the run ends because the next copy fits
      nowhere, every node is listed with exactly the slots it had, whatever order the scheduler filled them in. */
  lemma ReviewIsTheSlots(c: Config, states: seq<State>, events: seq<Event>, i: nat, name: string, review: seq<Result>,
                         n: string)
    requires IsRun(c, states, events) && i < |states|
    requires Histograms(review, [name], states[i].podsForEstimation)
    ensures Listed(review[0].replicasOnNodes, n) <= SlotsAt(c, states[0].pods, n)
    ensures states[i].stage == Stopped(Unschedulable) ==>
      Listed(review[0].replicasOnNodes, n) == SlotsAt(c, states[0].pods, n)
  {
    var pods := states[i].podsForEstimation;
    assert IsHistogram(review[0].replicasOnNodes, pods, 1, 0);
    TallyOfOneTemplate(pods, n);
    if n !in c.nodes {
      CountedOnNodes(c, states, events, i, n);
    } else {
      SlotsAreUsedUp(c, states, events, i, n);
      if states[i].stage == Stopped(Unschedulable) {
        RunInv(c, states, events, i);
        NoSlotLeft(c, states[i].pods, c.nodes.Keys, n);
      }
    }
  }
}
