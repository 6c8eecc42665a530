/** When the nodes that compression lists are really empty. */
module CompressionDrain {
  import opened Kube
  import opened NodeFilters
  import opened Placement
  import opened Compression
  import opened CompressionInvariant
  import opened CompressionSteps
  import opened CompressionTheorems
  import opened CompressionOutcome
  import opened CompressionMoves

  // ---------------------------------------------------------------- run by run: exactly when

  /** The node is listed, or its pods are being moved. */
  predicate Shut(s: State, n: string) {
    n in s.nodesToScaleDown || (InFlight(s) && n == s.currentNode)
  }

  /** No movable pod is on a shut node, nor would be on a listed one after a rollback. */
  ghost predicate Clean(s: State) {
    && (forall k :: k in s.pods && Movable(s.pods[k]) ==> !Shut(s, s.pods[k].nodeName))
    && (forall k :: k in Base(s) && Movable(Base(s)[k]) ==> Base(s)[k].nodeName !in s.nodesToScaleDown)
  }

  /** The scheduler puts the pending pod on a shut node. */
  predicate ComesBack(s: State, e: Event) {
    e.Bind? && Shut(s, e.target)
  }

  lemma NothingToMove(pods: map<Key, Pod>, n: string)
    requires ListsMovable([], pods, n)
    ensures forall k :: k in pods && Movable(pods[k]) ==> pods[k].nodeName != n
  {
    assert forall k :: k in pods && pods[k].nodeName == n ==> On(pods, k, n);
  }

  lemma SelectedPods(c: Config, s: State, e: Event, k: Key)
    requires e.Select? && Enabled(c, s, e) && WellFormed(s.nodes, s.pods)
    requires k in Apply(c, s, e).pods && Movable(Apply(c, s, e).pods[k])
    ensures var p := Apply(c, s, e).pods[k];
      p.nodeName == "" || (p.nodeName != e.node.name && k in s.pods && s.pods[k] == p)
  {
    if e.created != [] {
      TakenDownAt(s.pods, e.created, e.node.name);
    }
    assert On(s.pods, k, e.node.name) && Movable(s.pods[k]) ==> k in KeysOf(e.created);
  }

  lemma SelectStaysClean(c: Config, s: State, e: Event)
    requires e.Select? && Enabled(c, s, e) && WellFormed(s.nodes, s.pods) && NothingPending(s.pods) && Clean(s)
    requires e.node.name !in s.nodesToScaleDown && "" !in s.nodesToScaleDown
    ensures Clean(Apply(c, s, e))
  {
    var t, n := Apply(c, s, e), e.node.name;
    SelectConserves(c, s, s, e);
    forall k | k in t.pods && Movable(t.pods[k]) ensures !Shut(t, t.pods[k].nodeName) {
      SelectedPods(c, s, e, k);
    }
    if e.created == [] {
      NothingToMove(s.pods, n);
    }
  }

  lemma BindShuts(c: Config, s: State, k: Key, target: string)
    requires Binds(s, k, target)
    ensures forall n :: Shut(AfterBind(c, s, k, target), n) <==> Shut(s, n)
    ensures forall n :: n in AfterBind(c, s, k, target).nodesToScaleDown ==> Shut(s, n)
  {
    BindCases(c, s, k, target);
  }

  lemma PendingIsMovable(s: State, k: Key, target: string)
    requires Binds(s, k, target)
    ensures Movable(s.pods[k]) && Movable(Bound(s.pods[k], target))
  {
    var last := s.createdPods[s.createPodIndex - 1];
    assert last in s.createdPods;
    PendingIsLast(s, k);
  }

  lemma BackIsNotClean(c: Config, s: State, k: Key, target: string)
    requires Binds(s, k, target) && Shut(s, target)
    ensures !Clean(AfterBind(c, s, k, target))
  {
    BindPlaces(c, s, k, target);
    BindShuts(c, s, k, target);
    PendingIsMovable(s, k, target);
  }

  lemma BindBaseList(c: Config, s: State, k: Key, target: string)
    requires Binds(s, k, target)
    ensures var t := AfterBind(c, s, k, target);
      || (t.stage == Selecting && Base(t) == t.pods)
      || (Base(t) == Base(s) && t.nodesToScaleDown == s.nodesToScaleDown)
  {
    BindCases(c, s, k, target);
    if Finishes(c, s) { BindFinishes(c, s, k, target); } else { BindKeepsBase(c, s, k, target); }
  }

  lemma ElsewhereStaysClean(c: Config, s: State, k: Key, target: string)
    requires Binds(s, k, target) && !Shut(s, target) && Clean(s) && !Shut(s, "")
    ensures Clean(AfterBind(c, s, k, target))
  {
    var t := AfterBind(c, s, k, target);
    BindShuts(c, s, k, target);
    forall j | j in t.pods && Movable(t.pods[j]) ensures !Shut(t, t.pods[j].nodeName) {
      BindPods(c, s, k, target);
    }
    BindBaseList(c, s, k, target);
  }

  lemma NamelessIsOpen(c: Config, states: seq<State>, events: seq<Event>, i: nat)
    requires IsRun(c, states, events) && i < |states|
    ensures !Shut(states[i], "")
  {
    RunFates(c, states, events, i);
    RunAttempt(c, states, events, i);
    assert forall n :: n in states[i].nodesToScaleDown ==> n in states[i].nodes;
  }

  /** A transition keeps things clean unless it brings a pod back. */
  lemma CleanStep(c: Config, states: seq<State>, events: seq<Event>, i: nat)
    requires IsRun(c, states, events) && i < |events| && Clean(states[i])
    ensures Clean(states[i + 1]) <==> !ComesBack(states[i], events[i])
  {
    var s, e := states[i], events[i];
    Step(c, states, events, i);
    RunAttempt(c, states, events, i);
    NamelessIsOpen(c, states, events, i);
    match e
    case Select(_, _, _, _) =>
      SelectedIsUntouched(c, states, events, i);
      SelectStaysClean(c, s, e);
    case Bind(k, target) =>
      TargetIsTolerated(c, s, e);
      if Shut(s, target) { BackIsNotClean(c, s, k, target); } else { ElsewhereStaysClean(c, s, k, target); }
    case Unschedulable(_) => assert AfterUnschedulable(s).pods == Base(s);
    case _ =>
  }

  /** No movable pod has ever been on a listed node, or on one being drained, if and only if the scheduler has never
      put a pod on a node that was listed or being drained at that moment. */
  lemma {:induction false} CleanExactlyWhen(c: Config, states: seq<State>, events: seq<Event>, i: nat)
    requires IsRun(c, states, events) && i < |states|
    ensures (forall j :: 0 <= j <= i ==> Clean(states[j])) <==>
      forall j :: 0 <= j < i ==> !ComesBack(states[j], events[j])
  {
    if i == 0 {
    } else {
      CleanExactlyWhen(c, states, events, i - 1);
      if Clean(states[i - 1]) {
        CleanStep(c, states, events, i - 1);
      }
    }
  }

  // ---------------------------------------------------------------- before the run: a condition on the snapshot

  /** No movable pod of a candidate tolerates all the taints a candidate has once it is cordoned. */
  ghost predicate CordonBinds(c: Config, s: State) {
    forall k, n :: k in s.pods && Movable(s.pods[k]) && Candidate(c, s, s.pods[k].nodeName) && Candidate(c, s, n) ==>
      !ToleratesAll(s.pods[k], Cordoned(s.nodes[n]).taints)
  }

  /** A settled pod on a candidate that it tolerates when cordoned is unmovable, if the cordon binds. */
  lemma NothingMovableLeft(c: Config, s0: State, p: Pod, n: string)
    requires CordonBinds(c, s0) && Candidate(c, s0, n) && Settled(c, s0, p) && p.nodeName == n
    requires Core(p) == Core(s0.pods[KeyOf(p)])
    requires Movable(p) ==> ToleratesAll(p, Cordoned(s0.nodes[n]).taints)
    ensures !Movable(p)
  {
    var q := s0.pods[KeyOf(p)];
    OriginIsCandidate(c, s0, p);
    CoreDecides(p, q);
    ToleratesOfCore(p, q, Cordoned(s0.nodes[n]).taints);
  }

  lemma ListedIsBarred(c: Config, states: seq<State>, events: seq<Event>, i: nat, n: string)
    requires IsRun(c, states, events) && i < |states| && n in states[i].nodesToScaleDown
    ensures Candidate(c, states[0], n)
    ensures Drained(states[i].pods, n, Cordoned(states[0].nodes[n]).taints)
    ensures Drained(Base(states[i]), n, Cordoned(states[0].nodes[n]).taints)
  {
    TriedIsCandidate(c, states, events, i, n);
    RunInv(c, states, events, i);
  }

  lemma RunCores(c: Config, states: seq<State>, events: seq<Event>, i: nat)
    requires IsRun(c, states, events) && i < |states|
    ensures var s0, s, base := states[0], states[i], Base(states[i]);
      && (forall k :: k in s.pods ==> k in s0.pods && KeyOf(s.pods[k]) == k && Core(s.pods[k]) == Core(s0.pods[k]))
      && base.Keys == s0.pods.Keys
      && forall k :: k in base ==> KeyOf(base[k]) == k && Core(base[k]) == Core(s0.pods[k])
  {
    RunInv(c, states, events, i);
    PodsAreConserved(c, states, events, i);
    RunAttempt(c, states, events, 0);
    forall k | k in Base(states[i]) ensures KeyOf(Base(states[i])[k]) == k {
      CoreDecides(Base(states[i])[k], states[0].pods[k]);
    }
  }

  /** So when the cordon binds, a listed node holds only unmovable pods, now and after a rollback, and as they were. */
  lemma RetiredNodesAreEmpty(c: Config, states: seq<State>, events: seq<Event>, i: nat, n: string, k: Key)
    requires IsRun(c, states, events) && i < |states| && n in states[i].nodesToScaleDown && CordonBinds(c, states[0])
    ensures On(Base(states[i]), k, n) ==> !Movable(Base(states[i])[k])
    ensures On(states[i].pods, k, n) ==>
      !Movable(states[i].pods[k]) && k in states[0].pods && states[i].pods[k] == states[0].pods[k]
  {
    var s0, s, base := states[0], states[i], Base(states[i]);
    ListedIsBarred(c, states, events, i, n);
    EveryPodIsSettled(c, states, events, i);
    RunCores(c, states, events, i);
    if On(base, k, n) {
      NothingMovableLeft(c, s0, base[k], n);
    }
    if On(s.pods, k, n) {
      NothingMovableLeft(c, s0, s.pods[k], n);
      CoreDecides(s.pods[k], s0.pods[k]);
      PodsAreConserved(c, states, events, i);
    }
  }
}
