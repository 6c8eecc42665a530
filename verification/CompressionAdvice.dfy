/** What cluster compression promises: take the listed nodes away, and every pod still has its place. */
module CompressionAdvice {
  import opened Kube
  import opened Compression
  import opened CompressionInvariant
  import opened CompressionSteps
  import opened CompressionTheorems
  import opened CompressionCapacity
  import opened CompressionMoves
  import opened CompressionDrain

  /** The pod is placed: as the run found it, or moved from a candidate to a node of the cluster that admits it, by all
      the taints of the snapshot unless that node is a candidate that does not guard them. */
  ghost predicate IsPlaced(c: Config, s0: State, k: Key, p: Pod) {
    k in s0.pods && KeyOf(p) == k && Core(p) == Core(s0.pods[k]) && !Unbound(p) && Settled(c, s0, p)
  }

  /** No movable pod is on a listed node. */
  ghost predicate OffTheList(s: State, pods: map<Key, Pod>) {
    forall k :: k in pods && Movable(pods[k]) ==> pods[k].nodeName !in s.nodesToScaleDown
  }

  /** The pods are placed. The nodes carry no more than they can if they did so at the start; when the cordon binds, no
      movable pod is on a listed node; and when the candidates guard their taints, which they do if tainted nodes are
      excluded, pods are moved only where the snapshot lets them. */
  ghost predicate Sound(c: Config, s0: State, s: State, pods: map<Key, Pod>) {
    && (forall k :: k in pods ==> IsPlaced(c, s0, k, pods[k]))
    && (WithinCapacity(s0.nodes, s0.pods) ==> WithinCapacity(s.nodes, pods))
    && (CordonBinds(c, s0) ==> OffTheList(s, pods))
    && (c.options.excludeTaintNode || CandidatesGuard(c, s0) ==> forall k :: k in pods ==> RespectsTaints(s0, pods[k]))
  }

  lemma RolledBackIsPlaced(s: State)
    requires InFlight(s) && Attempt(s) && s.currentNode != ""
    ensures NothingPending(Base(s))
  {
    UndoAt(s);
    forall k | k in Undo(s) ensures !Unbound(Undo(s)[k]) {
      if k in KeysOf(s.createdPods) {
        var p :| p in s.createdPods && KeyOf(p) == k;
      } else if s.stage == Trying {
        assert s.createdPods[s.createPodIndex - 1] in s.createdPods;
      }
    }
  }

  lemma NothingPendingInBase(c: Config, states: seq<State>, events: seq<Event>, i: nat)
    requires IsRun(c, states, events) && i < |states|
    ensures NothingPending(Base(states[i]))
  {
    RunAttempt(c, states, events, i);
    RunFates(c, states, events, i);
    if InFlight(states[i]) {
      RolledBackIsPlaced(states[i]);
    }
  }

  lemma EmptyMeansOff(c: Config, states: seq<State>, events: seq<Event>, i: nat)
    requires IsRun(c, states, events) && i < |states| && CordonBinds(c, states[0])
    ensures OffTheList(states[i], Base(states[i])) && OffTheList(states[i], states[i].pods)
  {
    var s, base := states[i], Base(states[i]);
    forall k | k in base && Movable(base[k]) ensures base[k].nodeName !in s.nodesToScaleDown {
      if base[k].nodeName in s.nodesToScaleDown {
        RetiredNodesAreEmpty(c, states, events, i, base[k].nodeName, k);
      }
    }
    forall k | k in s.pods && Movable(s.pods[k]) ensures s.pods[k].nodeName !in s.nodesToScaleDown {
      if s.pods[k].nodeName in s.nodesToScaleDown {
        RetiredNodesAreEmpty(c, states, events, i, s.pods[k].nodeName, k);
      }
    }
  }

  /** In every state of every run, a stop at the limit included, the attempt under way put back if there is one, the
      advice is sound, and every pod of the snapshot is there. */
  lemma AdviceIsSound(c: Config, states: seq<State>, events: seq<Event>, i: nat)
    requires IsRun(c, states, events) && i < |states|
    ensures Base(states[i]).Keys == states[0].pods.Keys
    ensures Sound(c, states[0], states[i], Base(states[i]))
  {
    RunCores(c, states, events, i);
    NothingPendingInBase(c, states, events, i);
    EveryPodIsSettled(c, states, events, i);
    if WithinCapacity(states[0].nodes, states[0].pods) {
      EveryStateFits(c, states, events, i);
    }
    if CordonBinds(c, states[0]) {
      EmptyMeansOff(c, states, events, i);
    }
    if c.options.excludeTaintNode || CandidatesGuard(c, states[0]) {
      TaintsAreRespected(c, states, events, i);
    }
  }

  /** The same of the store itself whenever no pod is pending. Only a stop in the middle of an attempt leaves pods out:
      exactly those that the attempt still had to create. */
  lemma StoreIsSound(c: Config, states: seq<State>, events: seq<Event>, i: nat)
    requires IsRun(c, states, events) && i < |states| && states[i].stage != Trying
    ensures Sound(c, states[0], states[i], states[i].pods)
    ensures var s0, s := states[0], states[i];
      if s.stage != Stopped(LimitReached) then s.pods.Keys == s0.pods.Keys
      else
        && s.createPodIndex <= |s.createdPods|
        && s.pods.Keys == s0.pods.Keys - KeysOf(s.createdPods[s.createPodIndex..])
        && KeysOf(s.createdPods[s.createPodIndex..]) <= s0.pods.Keys
  {
    RunCores(c, states, events, i);
    PodsAreConserved(c, states, events, i);
    OnePodInFlight(c, states, events, i);
    EveryPodIsSettled(c, states, events, i);
    if WithinCapacity(states[0].nodes, states[0].pods) {
      EveryStateFits(c, states, events, i);
    }
    if CordonBinds(c, states[0]) {
      EmptyMeansOff(c, states, events, i);
    }
    if c.options.excludeTaintNode || CandidatesGuard(c, states[0]) {
      TaintsAreRespected(c, states, events, i);
    }
  }
}
