/** The capacity-estimation simulator. Its ghost history is a run of the transition system. */
module CapacitySimulator {
  import opened Kube
  import opened Capacity
  import opened CapacityRuns
  import opened CapacityReport
  import opened CapacityAnswer
  import opened Cluster

  class SinglePodGenerator {
    const podTemplate: Pod
    var counter: nat

    constructor (podTemplate: Pod)
      ensures this.podTemplate == podTemplate && counter == 0
    {
      this.podTemplate := podTemplate;
      counter := 0;
    }

    method Generate() returns (pod: Pod)
      modifies this`counter
      ensures pod == Copy(podTemplate, old(counter)) && counter == old(counter) + 1
    {
      pod := InitPod(podTemplate);
      pod := pod.(name := podTemplate.name + "-" + Decimal(counter));
      counter := counter + 1;
    }
  }

  class Simulator {
    ghost const config: Config
    const maxSimulated: int
    const store: Store
    const framework: Framework<StopReason>
    const podGenerator: SinglePodGenerator
    var simulated: nat

    ghost var stage: Stage
    ghost var states: seq<State>
    ghost var events: seq<Event>

    ghost function View(): State
      reads this, store, framework, podGenerator
    {
      State(store.pods, podGenerator.counter, simulated, framework.podsForEstimation, stage)
    }

    ghost predicate Wired()
      reads this, store, framework, podGenerator
    {
      && framework.store == store && framework.saveTo == "" && store.Valid()
      && podGenerator.podTemplate == config.template && maxSimulated == config.maxSimulated
      && (framework.stopped <==> stage.Stopped?)
      && (stage.Stopped? ==> framework.stopReason == Some(stage.reason))
    }

    ghost predicate RanTo(s: State)
      reads this
    {
      IsRun(config, states, events) && states[|states| - 1] == s
    }

    ghost predicate Valid()
      reads this, store, framework, podGenerator
    {
      Wired() && RanTo(View())
    }

    constructor (ghost config: Config, template: Pod, maxSimulated: int, nodes: map<string, Node>, pods: map<Key, Pod>)
      requires WellFormed(config) && config.nodes == nodes
      requires config.template == template && config.maxSimulated == maxSimulated
      requires forall k :: k in pods ==> KeyOf(pods[k]) == k
      ensures Valid() && stage == Starting && states == [View()] && store.pods == pods
    {
      var api := new Store(nodes, pods);
      var fw := new Framework<StopReason>(api, "");
      var pg := new SinglePodGenerator(template);
      this.config, this.maxSimulated, store, framework, podGenerator := config, maxSimulated, api, fw, pg;
      simulated := 0;
      stage := Starting;
      new;
      states, events := [View()], [];
    }

    ghost method Record(e: Event)
      requires |states| > 0 && IsRun(config, states, events)
      requires Next(config, states[|states| - 1], e, View())
      modifies this`states, this`events
      ensures RanTo(View())
      ensures states == old(states) + [View()] && events == old(events) + [e]
    {
      var all, es := states + [View()], events + [e];
      forall i | 0 <= i < |es| ensures Next(config, all[i], es[i], all[i + 1]) {
        if i < |events| {
          assert all[i] == states[i] && all[i + 1] == states[i + 1];
        }
      }
      states, events := all, es;
    }

    /** Creates the next copy; failed is where the run stands if that does not work. */
    method CreateNextPod(ghost failed: Stage) returns (err: Option<Error>)
      requires store.Valid() && podGenerator.podTemplate == config.template
      modifies this`simulated, this`stage, store`pods, podGenerator
      ensures store.Valid()
      ensures View() == CreateNext(config, old(View()), failed)
      ensures err.None? <==> KeyOf(Copy(config.template, old(podGenerator.counter))) !in old(store.pods)
    {
      var pod := podGenerator.Generate();
      simulated := simulated + 1;
      err := store.CreatePod(pod);
      stage := if err.None? then Waiting else failed;
    }

    /** Framework.Run with createNextPod as its start. */
    method Run()
      requires Valid() && stage == Starting
      modifies this, store, framework, podGenerator
      ensures Valid() && (stage == Waiting || stage == Stopped(FailedRunInit))
      ensures states == old(states) + [View()] && events == old(events) + [Start]
    {
      var err := CreateNextPod(Stopped(FailedRunInit));
      if err.Some? {
        var _ := framework.Stop(FailedRunInit);
      }
      Record(Start);
    }

    method PostBindHook(bindPod: Pod) returns (err: Option<Error>)
      requires Wired() && stage == Waiting
      modifies this`simulated, this`stage, store`pods, framework, podGenerator
      ensures Wired()
      ensures var t := old(View()).(podsForEstimation := old(framework.podsForEstimation) + [bindPod]);
        View() == if config.maxSimulated > 0 && t.simulated >= config.maxSimulated
                  then t.(stage := Stopped(LimitReached))
                  else CreateNext(config, t, Stuck)
    {
      framework.UpdateEstimationPods(bindPod);
      if maxSimulated > 0 && simulated >= maxSimulated {
        err := framework.Stop(LimitReached);
        stage := Stopped(LimitReached);
        return;
      }
      err := CreateNextPod(Stuck);
    }

    /** The scheduler binds the pending copy to a node that takes it. */
    method HandleBind(target: string)
      requires Valid() && stage == Waiting
      requires podGenerator.counter > 0 && PendingKey(config, View()) in store.pods
      requires Takes(config, store.pods, target)
      modifies this, store, framework, podGenerator
      ensures Valid()
      ensures states == old(states) + [View()] && events == old(events) + [Bind(target)]
      ensures View() == old(AfterBind(config, View(), target))
    {
      var key := KeyOf(Copy(podGenerator.podTemplate, podGenerator.counter - 1));
      var pod := store.GetPod(key);
      if pod.Some? {
        var _ := store.UpdatePod(Bound(pod.value, target));
        var _ := PostBindHook(pod.value.(nodeName := target));
      }
      Record(Bind(target));
    }

    /** The scheduler reports the pending copy unschedulable. */
    method HandleUnschedulable()
      requires Valid() && stage == Waiting && forall n :: !Takes(config, store.pods, n)
      modifies this, framework
      ensures Valid() && stage == Stopped(Unschedulable)
      ensures states == old(states) + [View()] && events == old(events) + [Unschedule]
    {
      var _ := framework.Stop(Unschedulable);
      stage := Stopped(Unschedulable);
      Record(Unschedule);
    }

    /** The review status of a stopped simulator. With an answer, the replicas are exactly the closed form of the
        initial cluster; no node is listed beyond its slots, and each one is listed with all of them when the run ended
        because the next copy fits nowhere. If not even the first copy could be created, nothing is listed. */
    method Report() returns (replicas: nat, review: seq<Result>)
      requires Valid() && framework.stopped
      ensures replicas == if framework.stopReason == Some(FailedRunInit) then 0 else Answer(config, states[0].pods)
      ensures |review| == 1 && InstancesOf(review[0].replicasOnNodes) == replicas
      ensures forall n :: Listed(review[0].replicasOnNodes, n) <= SlotsAt(config, states[0].pods, n)
      ensures framework.stopReason == Some(Unschedulable) ==>
        forall n :: Listed(review[0].replicasOnNodes, n) == SlotsAt(config, states[0].pods, n)
    {
      replicas := |framework.podsForEstimation|;
      review := ParsePodsReview([podGenerator.podTemplate.name], framework.podsForEstimation);
      assert review[..0] == [];
      assert stage == Stopped(stage.reason);
      RunInv(config, states, events, |events|);
      if stage.reason != FailedRunInit {
        AnswerIsOrderIndependent(config, states, events, |events|);
      }
      forall n
        ensures Listed(review[0].replicasOnNodes, n) <= SlotsAt(config, states[0].pods, n)
        ensures framework.stopReason == Some(Unschedulable) ==>
          Listed(review[0].replicasOnNodes, n) == SlotsAt(config, states[0].pods, n)
      {
        ReviewIsTheSlots(config, states, events, |events|, podGenerator.podTemplate.name, review, n);
      }
    }
  }
}
