/** Every transition keeps the invariant. */
module CompressionSteps {
  import opened Kube
  import opened NodeFilters
  import opened Placement
  import opened Compression
  import opened CompressionInvariant

  // ---------------------------------------------------------------- the start

  lemma InitialInv(c: Config, s: State)
    requires Initial(s)
    ensures Inv(c, s, s)
  {
  }

  // ---------------------------------------------------------------- node labels

  lemma FailedUnchanged(before: map<string, Node>, now: map<string, Node>, n: string, node: Node)
    requires n in now && (FAILED_LABEL in node.labels <==> FAILED_LABEL in now[n].labels)
    ensures NewlyFailed(before, now[n := node]) == NewlyFailed(before, now)
  {
  }

  lemma FailedAdded(before: map<string, Node>, now: map<string, Node>, n: string, node: Node)
    requires n in now && n in before
    requires FAILED_LABEL in node.labels && FAILED_LABEL !in before[n].labels && FAILED_LABEL !in now[n].labels
    ensures NewlyFailed(before, now[n := node]) == NewlyFailed(before, now) + {n}
    ensures n !in NewlyFailed(before, now)
  {
  }

  /** A node the run has not touched looks as it did at the start. */
  lemma Untouched(s0: State, s: State, n: string)
    requires Fates(s0, s) && n in s.nodes && DefaultFilter(s.nodes[n]).None?
    requires InFlight(s) ==> n != s.currentNode
    ensures s.nodes[n] == s0.nodes[n] && n !in s.nodesToScaleDown && n !in FailedNodes(s0, s)
  {
  }

  // ---------------------------------------------------------------- selecting

  /** The node served passes the filter now, its cached copy is current, and so are the candidates left. */
  lemma ServedIsCurrent(c: Config, s: State, node: Node, batch: seq<Node>, index: nat)
    requires Cache(c, s) && s.stage == Selecting
    requires Serves(c, s, node, batch, index)
    ensures Accepted(c, s, node.name) && s.nodes[node.name] == node
    ensures index <= |batch|
    ensures forall i :: index <= i < |batch| ==>
      Accepted(c, s, batch[i].name) && s.nodes[batch[i].name] == batch[i] && batch[i].name != node.name
    ensures forall i, j :: index <= i < j < |batch| ==> batch[i].name != batch[j].name
  {
  }

  lemma Listed(created: seq<Pod>, pods: map<Key, Pod>, n: string, p: Pod)
    requires ListsMovable(created, pods, n) && p in created
    ensures On(pods, KeyOf(p), n) && pods[KeyOf(p)] == p && Movable(p)
  {
  }

  lemma ListedAll(created: seq<Pod>, pods: map<Key, Pod>, n: string)
    requires ListsMovable(created, pods, n) && n != ""
    requires forall k :: k in pods ==> KeyOf(pods[k]) == k && k.namespace != ""
    ensures forall p :: p in created ==>
      p.nodeName == n && Movable(p) && p.namespace != "" && KeyOf(p) in pods && pods[KeyOf(p)] == p
  {
  }

  lemma TakenDownAt(pods: map<Key, Pod>, created: seq<Pod>, n: string)
    requires ListsMovable(created, pods, n) && n != "" && created != []
    requires forall k :: k in pods ==> KeyOf(pods[k]) == k && k.namespace != ""
    ensures var q, first := TakenDown(pods, created), KeyOf(created[0]);
      && first in q && q[first] == InitPod(created[0])
      && (forall k :: k != first ==> (k in q <==> k in pods && k !in KeysOf(created)))
      && (forall k :: k != first && k in q ==> q[k] == pods[k])
      && (forall k :: k in q ==> KeyOf(q[k]) == k && k.namespace != "")
  {
  }

  lemma SelectShape(s: State, node: Node, batch: seq<Node>, index: nat, created: seq<Pod>)
    requires WellFormed(s.nodes, s.pods)
    requires node.name in s.nodes && ListsMovable(created, s.pods, node.name) && created != []
    ensures Shape(AfterSelect(s, node, batch, index, created))
  {
    var t := AfterSelect(s, node, batch, index, created);
    TakenDownAt(s.pods, created, node.name);
    ListedAll(created, s.pods, node.name);
    PlacingKeepsCore(created[0], "");
    forall i | 1 <= i < |created| ensures KeyOf(created[i]) !in t.pods {
      assert KeyOf(created[i]) in KeysOf(created);
    }
  }

  lemma SelectAttempt(s: State, node: Node, batch: seq<Node>, index: nat, created: seq<Pod>)
    requires WellFormed(s.nodes, s.pods) && NothingPending(s.pods)
    requires node.name in s.nodes && ListsMovable(created, s.pods, node.name) && created != []
    ensures var t := AfterSelect(s, node, batch, index, created);
      WellFormed(t.nodes, t.pods) && Shape(t) && OnePending(t) && Undo(t) == s.pods
  {
    var t := AfterSelect(s, node, batch, index, created);
    TakenDownAt(s.pods, created, node.name);
    SelectShape(s, node, batch, index, created);
    ListedAll(created, s.pods, node.name);
    UndoIs(t, s.pods);
  }

  /** Cordoning an untouched node starts its trial. */
  lemma CordonFates(s0: State, s: State, t: State)
    requires Fates(s0, s) && Accounts(s0, s) && s.stage == Selecting && t.stage == Trying
    requires t.currentNode in s.nodes && DefaultFilter(s.nodes[t.currentNode]).None?
    requires t.nodes == s.nodes[t.currentNode := Cordoned(s.nodes[t.currentNode])]
    requires t.currentNodeUnschedulable == s.nodes[t.currentNode].unschedulable
    requires t.nodesToScaleDown == s.nodesToScaleDown && t.selectNodeCount == s.selectNodeCount + 1
    requires t.simulated == s.simulated && t.selectedCount == s.selectedCount
    requires t.failedSchedulerCount == s.failedSchedulerCount
    ensures Fates(s0, t) && Accounts(s0, t)
  {
    Untouched(s0, s, t.currentNode);
    FailedUnchanged(s0.nodes, s.nodes, t.currentNode, Cordoned(s.nodes[t.currentNode]));
  }

  lemma RetireExpected(s0: State, s: State, m: string)
    requires Fates(s0, s) && s.stage == Trying && m in s0.nodes
    requires FailedNodes(s0, ScaledDown(s)) == FailedNodes(s0, s)
    ensures ScaledDown(s).nodes[m] == Expected(s0, ScaledDown(s), m)
  {
  }

  lemma RetireFailed(s0: State, s: State)
    requires s.currentNode in s.nodes
    ensures FailedNodes(s0, ScaledDown(s)) == FailedNodes(s0, s)
  {
  }

  lemma RetireList(s0: State, s: State)
    requires Fates(s0, s) && s.stage == Trying
    ensures FatesOfList(s0, ScaledDown(s).nodesToScaleDown)
  {
  }

  lemma RetireNodes(s0: State, s: State)
    requires Fates(s0, s) && s.stage == Trying
    ensures FatesOfNodes(s0, ScaledDown(s))
  {
    RetireFailed(s0, s);
    forall m | m in s0.nodes ensures ScaledDown(s).nodes[m] == Expected(s0, ScaledDown(s), m) {
      RetireExpected(s0, s, m);
    }
  }

  /** Labelling the tried node as scaled down ends its trial. */
  lemma RetireFates(s0: State, s: State)
    requires Fates(s0, s) && s.stage == Trying
    ensures Fates(s0, ScaledDown(s))
  {
    RetireList(s0, s);
    RetireNodes(s0, s);
  }

  lemma RetireAccounts(s0: State, s: State)
    requires s.currentNode in s.nodes && Accounts(s0, s) && s.stage == Trying
    ensures Accounts(s0, ScaledDown(s))
  {
    RetireFailed(s0, s);
  }

  lemma SelectFates(s0: State, s: State, node: Node, batch: seq<Node>, index: nat, created: seq<Pod>)
    requires Fates(s0, s) && Accounts(s0, s) && s.stage == Selecting
    requires node.name in s.nodes && DefaultFilter(s.nodes[node.name]).None? && s.nodes[node.name] == node
    ensures var t := AfterSelect(s, node, batch, index, created); Fates(s0, t) && Accounts(s0, t)
  {
    if created == [] {
      var u := Opened(s, node, batch, index, created).(stage := Trying);
      CordonFates(s0, s, u);
      RetireFates(s0, u);
      RetireAccounts(s0, u);
      assert AfterSelect(s, node, batch, index, created) == ScaledDown(u);
    } else {
      CordonFates(s0, s, AfterSelect(s, node, batch, index, created));
    }
  }

  /** The pods on other nodes are not touched. */
  lemma SelectElsewhere(c: Config, s: State, e: Event, n: string)
    requires e.Select? && Enabled(c, s, e) && WellFormed(s.nodes, s.pods) && n != "" && n != e.node.name
    ensures var t := Apply(c, s, e);
      forall k :: (On(t.pods, k, n) <==> On(s.pods, k, n)) && (On(t.pods, k, n) ==> t.pods[k] == s.pods[k])
  {
    if e.created != [] {
      TakenDownAt(s.pods, e.created, e.node.name);
      ListedAll(e.created, s.pods, e.node.name);
    }
  }

  lemma SelectFields(s: State, node: Node, batch: seq<Node>, index: nat, created: seq<Pod>)
    requires node.name in s.nodes
    ensures var t := AfterSelect(s, node, batch, index, created);
      && t.candidateNode == batch && t.candidateIndex == index && t.createdPods == created
      && t.currentNode == node.name
      && forall n :: n in s.nodes && n != node.name ==> n in t.nodes && t.nodes[n] == s.nodes[n]
  {
  }

  lemma SelectConserves(c: Config, s0: State, s: State, e: Event)
    requires e.Select? && Enabled(c, s, e) && WellFormed(s.nodes, s.pods) && NothingPending(s.pods)
    ensures var t := Apply(c, s, e); WellFormed(t.nodes, t.pods) && Attempt(t) && Base(t) == s.pods
  {
    if e.created != [] {
      SelectAttempt(s, e.node, e.candidates, e.index, e.created);
    }
  }

  lemma SelectEligible(c: Config, s: State, e: Event, n: string)
    requires e.Select? && Enabled(c, s, e) && WellFormed(s.nodes, s.pods) && NothingPending(s.pods)
    requires n in s.nodes && Passes(c.options, s.nodes[n], s.pods) && n != e.node.name
    ensures Eligible(c, Apply(c, s, e), n)
  {
    var t := Apply(c, s, e);
    SelectFields(s, e.node, e.candidates, e.index, e.created);
    SelectElsewhere(c, s, e, n);
    PassesWithMorePods(c.options, s.nodes[n], s.pods, t.pods);
    SelectConserves(c, s, s, e);
  }

  lemma SelectCandidates(c: Config, s: State, e: Event)
    requires e.Select? && Enabled(c, s, e) && WellFormed(s.nodes, s.pods) && NothingPending(s.pods)
    requires forall i :: e.index <= i < |e.candidates| ==>
      Accepted(c, s, e.candidates[i].name) && e.candidates[i].name != e.node.name
    ensures forall i :: e.index <= i < |e.candidates| ==> Eligible(c, Apply(c, s, e), e.candidates[i].name)
  {
    forall i | e.index <= i < |e.candidates| ensures Eligible(c, Apply(c, s, e), e.candidates[i].name) {
      SelectEligible(c, s, e, e.candidates[i].name);
    }
  }

  lemma CreatedAccepted(o: Options, pods: map<Key, Pod>, n: string, created: seq<Pod>)
    requires ListsMovable(created, pods, n) && PodsAccepted(o, pods, n)
    ensures forall p :: p in created ==> PodVerdict(o, p).None?
  {
  }

  /** The candidates left after serving a node are current. */
  ghost predicate LeftCurrent(c: Config, s: State, node: Node, batch: seq<Node>, index: nat) {
    && index <= |batch|
    && (forall i :: index <= i < |batch| ==>
          Accepted(c, s, batch[i].name) && s.nodes[batch[i].name] == batch[i] && batch[i].name != node.name)
    && (forall i, j :: index <= i < j < |batch| ==> batch[i].name != batch[j].name)
  }

  lemma CacheAfter(c: Config, s: State, t: State, node: Node, batch: seq<Node>, index: nat)
    requires LeftCurrent(c, s, node, batch, index)
    requires t.candidateNode == batch && t.candidateIndex == index && t.currentNode == node.name
    requires forall n :: n in s.nodes && n != node.name ==> n in t.nodes && t.nodes[n] == s.nodes[n]
    requires forall i :: index <= i < |batch| ==> Eligible(c, t, batch[i].name)
    requires forall p :: p in t.createdPods ==> PodVerdict(c.options, p).None?
    ensures Cache(c, t)
  {
  }

  lemma SelectCache(c: Config, s: State, e: Event)
    requires e.Select? && Enabled(c, s, e) && WellFormed(s.nodes, s.pods) && NothingPending(s.pods)
    requires LeftCurrent(c, s, e.node, e.candidates, e.index)
    requires PodsAccepted(c.options, s.pods, e.node.name)
    ensures Cache(c, Apply(c, s, e))
  {
    SelectCandidates(c, s, e);
    CreatedAccepted(c.options, s.pods, e.node.name, e.created);
    SelectFields(s, e.node, e.candidates, e.index, e.created);
    CacheAfter(c, s, Apply(c, s, e), e.node, e.candidates, e.index);
  }

  /** A node is drained once its movable pods are listed for removal. */
  lemma TakenDownIsDrained(s: State, node: Node, batch: seq<Node>, index: nat, created: seq<Pod>)
    requires node.name in s.nodes && WellFormed(s.nodes, s.pods) && ListsMovable(created, s.pods, node.name)
    ensures forall bars :: Drained(AfterSelect(s, node, batch, index, created).pods, node.name, bars)
  {
  }

  lemma SelectDrainedElsewhere(c: Config, s: State, e: Event, m: string, bars: seq<Taint>)
    requires e.Select? && Enabled(c, s, e) && WellFormed(s.nodes, s.pods) && m in s.nodes && m != e.node.name
    requires Drained(s.pods, m, bars)
    ensures Drained(Apply(c, s, e).pods, m, bars)
  {
  }

  /** The node selected is being tried, or has joined the list at once. */
  ghost predicate TriedOrListed(s: State, t: State, n: string) {
    if InFlight(t) then t.currentNode == n && t.nodesToScaleDown == s.nodesToScaleDown
    else t.pods == s.pods && t.nodesToScaleDown == s.nodesToScaleDown + [n]
  }

  lemma SelectedLists(s: State, node: Node, batch: seq<Node>, index: nat, created: seq<Pod>)
    requires node.name in s.nodes && s.stage == Selecting
    ensures TriedOrListed(s, AfterSelect(s, node, batch, index, created), node.name)
  {
  }

  lemma DrainsAfterSelect(s0: State, s: State, t: State, n: string)
    requires Drains(s0, s) && s.stage == Selecting && Base(t) == s.pods && TriedOrListed(s, t, n)
    requires forall m :: m in s.nodesToScaleDown ==> Drained(t.pods, m, Bars(s0, m))
    requires Drained(t.pods, n, Bars(s0, n))
    ensures Drains(s0, t)
  {
  }

  lemma SelectDrains(c: Config, s0: State, s: State, e: Event)
    requires e.Select? && Enabled(c, s, e) && WellFormed(s.nodes, s.pods) && Attempt(s) && Drains(s0, s)
    requires e.node.name !in s.nodesToScaleDown
    requires forall n :: n in s.nodesToScaleDown ==> n in s.nodes
    ensures Drains(s0, Apply(c, s, e))
  {
    var t := Apply(c, s, e);
    forall m | m in s.nodesToScaleDown ensures Drained(t.pods, m, Bars(s0, m)) {
      SelectDrainedElsewhere(c, s, e, m, Bars(s0, m));
    }
    TakenDownIsDrained(s, e.node, e.candidates, e.index, e.created);
    SelectConserves(c, s, s, e);
    SelectedLists(s, e.node, e.candidates, e.index, e.created);
    DrainsAfterSelect(s0, s, t, e.node.name);
  }

  lemma SelectServed(c: Config, s0: State, s: State, e: Event)
    requires e.Select? && Enabled(c, s, e) && Cache(c, s) && Fates(s0, s)
    ensures Accepted(c, s, e.node.name) && s.nodes[e.node.name] == e.node
    ensures PodsAccepted(c.options, s.pods, e.node.name)
    ensures e.node.name !in s.nodesToScaleDown
    ensures LeftCurrent(c, s, e.node, e.candidates, e.index)
  {
    ServedIsCurrent(c, s, e.node, e.candidates, e.index);
    Untouched(s0, s, e.node.name);
  }

  lemma SelectKeepsInv(c: Config, s0: State, s: State, e: Event)
    requires Inv(c, s0, s) && e.Select? && Enabled(c, s, e)
    ensures Inv(c, s0, Apply(c, s, e))
  {
    SelectServed(c, s0, s, e);
    SelectFates(s0, s, e.node, e.candidates, e.index, e.created);
    SelectConserves(c, s0, s, e);
    SelectCache(c, s, e);
    SelectDrains(c, s0, s, e);
  }

  // ---------------------------------------------------------------- binding

  /** The state once the pending pod is bound, before the simulator reacts. */
  function Placed(s: State, k: Key, target: string): State
    requires k in s.pods
  {
    s.(pods := s.pods[k := Bound(s.pods[k], target)], stage := Stopped(LimitReached))
  }

  /** The pod the scheduler can place is the last one created. */
  lemma PendingIsLast(s: State, k: Key)
    requires OnePending(s) && k in s.pods && Unbound(s.pods[k])
    ensures var last := s.createdPods[s.createPodIndex - 1];
      k == KeyOf(last) && s.pods[k] == InitPod(last) && PROVISIONER in s.pods[k].annotations
  {
  }

  lemma PlacedShape(s: State, k: Key, target: string)
    requires Shape(s) && OnePending(s) && k in s.pods && Unbound(s.pods[k])
    ensures Shape(Placed(s, k, target)) && Undo(Placed(s, k, target)) == Undo(s)
    ensures target != "" ==> NothingPending(Placed(s, k, target).pods)
  {
  }

  /** Creating the next pod of the attempt. */
  function WithNext(s: State): State
    requires s.createPodIndex < |s.createdPods|
  {
    var next := InitPod(s.createdPods[s.createPodIndex]);
    s.(pods := s.pods[KeyOf(next) := next],
       createPodIndex := s.createPodIndex + 1,
       bindSuccessPodCount := s.bindSuccessPodCount + 1,
       stage := Trying)
  }

  lemma NextIsNew(s: State)
    requires Shape(s) && s.createPodIndex < |s.createdPods|
    ensures var p, t := s.createdPods[s.createPodIndex], WithNext(s);
      && p in s.createdPods && KeyOf(p) !in s.pods && t.pods == s.pods[KeyOf(p) := InitPod(p)]
      && Core(InitPod(p)) == Core(p) && Unbound(InitPod(p))
  {
  }

  lemma NextKeepsShape(s: State)
    requires Shape(s) && s.createPodIndex < |s.createdPods|
    ensures Shape(WithNext(s))
  {
    NextIsNew(s);
  }

  lemma NextShape(s: State)
    requires Shape(s) && s.createPodIndex < |s.createdPods| && NothingPending(s.pods)
    ensures Shape(WithNext(s)) && OnePending(WithNext(s)) && Undo(WithNext(s)) == Undo(s)
  {
    NextIsNew(s);
    NextKeepsShape(s);
    UndoAt(s);
    UndoIs(WithNext(s), Undo(s));
  }

  /** Once all pods are placed, rolling back would only move pods, not change which there are. */
  lemma AllPlaced(s: State)
    requires Shape(s) && s.createPodIndex == |s.createdPods|
    ensures SameCores(s.pods, Undo(s)) && SameUnmovable(s.pods, Undo(s))
  {
    UndoAt(s);
    forall k | k in KeysOf(s.createdPods)
      ensures k in s.pods && Core(s.pods[k]) == Core(Undo(s)[k]) && Movable(Undo(s)[k])
    {
      var p :| p in s.createdPods && KeyOf(p) == k;
      var i :| 0 <= i < |s.createdPods| && s.createdPods[i] == p;
    }
  }

  /** The three ways a bind goes on; the simulator never falls through to a state with nothing pending. */
  lemma BindCases(c: Config, s: State, k: Key, target: string)
    requires s.stage == Trying && Shape(s) && OnePending(s)
    requires k in s.pods && Unbound(s.pods[k]) && s.currentNode in s.nodes
    ensures var t, q := AfterBind(c, s, k, target), Placed(s, k, target).(schedulerCount := s.schedulerCount + 1);
      if c.maxSimulated > 0 && s.simulated >= c.maxSimulated then t == q
      else if s.createPodIndex < |s.createdPods| then t == WithNext(q)
      else t == ScaledDown(q.(bindSuccessPodCount := s.bindSuccessPodCount + 1))
  {
  }

  /** The pending pod and the place the scheduler found for it. */
  ghost predicate Binds(s: State, k: Key, target: string) {
    && s.stage == Trying && Shape(s) && OnePending(s)
    && k in s.pods && Unbound(s.pods[k]) && target != "" && s.currentNode in s.nodes
  }

  lemma BindAttempt(c: Config, s: State, k: Key, target: string)
    requires Binds(s, k, target)
    ensures Attempt(AfterBind(c, s, k, target))
  {
    var q := Placed(s, k, target).(schedulerCount := s.schedulerCount + 1);
    BindCases(c, s, k, target);
    PlacedShape(s, k, target);
    if s.createPodIndex < |s.createdPods| {
      NextShape(q);
    }
  }

  /** The last pod of the attempt is being bound and the limit does not interfere. */
  predicate Finishes(c: Config, s: State) {
    !(c.maxSimulated > 0 && s.simulated >= c.maxSimulated) && s.createPodIndex >= |s.createdPods|
  }

  lemma BindKeepsBase(c: Config, s: State, k: Key, target: string)
    requires Binds(s, k, target) && !Finishes(c, s)
    ensures var t := AfterBind(c, s, k, target); InFlight(t) && Base(t) == Base(s)
  {
    var q := Placed(s, k, target).(schedulerCount := s.schedulerCount + 1);
    BindCases(c, s, k, target);
    PlacedShape(s, k, target);
    if s.createPodIndex < |s.createdPods| {
      NextShape(q);
    }
  }

  lemma BindFinishes(c: Config, s: State, k: Key, target: string)
    requires Binds(s, k, target) && Finishes(c, s)
    ensures var t := AfterBind(c, s, k, target);
      t.stage == Selecting && Base(t) == Placed(s, k, target).pods
  {
  }

  lemma LastPlaced(s: State, k: Key, target: string)
    requires Binds(s, k, target) && s.createPodIndex == |s.createdPods|
    ensures SameCores(Placed(s, k, target).pods, Undo(s)) && SameUnmovable(Placed(s, k, target).pods, Undo(s))
  {
    PlacedShape(s, k, target);
    AllPlaced(Placed(s, k, target));
  }

  lemma BindBase(c: Config, s: State, k: Key, target: string)
    requires Binds(s, k, target)
    ensures var t := AfterBind(c, s, k, target);
      (t.stage == Selecting && Base(t) == t.pods) || Base(t) == Base(s)
  {
    if Finishes(c, s) { BindFinishes(c, s, k, target); } else { BindKeepsBase(c, s, k, target); }
  }

  lemma ConservedThrough(s0: State, t: State, base: map<Key, Pod>)
    requires SameCores(Base(t), base) && SameUnmovable(Base(t), base)
    requires SameCores(base, s0.pods) && SameUnmovable(base, s0.pods)
    ensures Conserved(s0, t)
  {
  }

  lemma BindConserves(c: Config, s0: State, s: State, k: Key, target: string)
    requires Binds(s, k, target) && Conserved(s0, s)
    ensures Conserved(s0, AfterBind(c, s, k, target))
  {
    if Finishes(c, s) {
      BindFinishes(c, s, k, target);
      LastPlaced(s, k, target);
      ConservedThrough(s0, AfterBind(c, s, k, target), Base(s));
    } else {
      BindKeepsBase(c, s, k, target);
    }
  }

  /** A bind moves the pending pod to its target and may create the next pod of the attempt. */
  lemma BindPods(c: Config, s: State, k: Key, target: string)
    requires Binds(s, k, target)
    ensures var t, q := AfterBind(c, s, k, target), s.pods[k := Bound(s.pods[k], target)];
      || t.pods == q
      || (&& s.createPodIndex < |s.createdPods|
          && var next := InitPod(s.createdPods[s.createPodIndex]);
          && t.pods == q[KeyOf(next) := next]
          && KeyOf(next) !in s.pods && next.nodeName == "" && KeyOf(next).namespace != "")
    ensures AfterBind(c, s, k, target).nodes.Keys == s.nodes.Keys
    ensures forall n :: n in s.nodes && n != s.currentNode ==> AfterBind(c, s, k, target).nodes[n] == s.nodes[n]
    ensures forall n :: n in s.nodes ==> AfterBind(c, s, k, target).nodes[n].name == s.nodes[n].name
  {
    BindCases(c, s, k, target);
    if s.createPodIndex < |s.createdPods| {
      var next := s.createdPods[s.createPodIndex];
      assert next in s.createdPods;
      PlacingKeepsCore(next, "");
    }
  }

  /** Which pods the nodes hold after a bind: the target gains the pod, nothing else changes. */
  lemma BindPlaces(c: Config, s: State, k: Key, target: string)
    requires Binds(s, k, target)
    ensures var t := AfterBind(c, s, k, target);
      && k in t.pods && t.pods[k] == Bound(s.pods[k], target)
      && (forall j, n :: n != "" ==> (On(t.pods, j, n) <==> On(s.pods, j, n) || (j == k && n == target)))
      && (forall j, n :: n != "" && On(s.pods, j, n) ==> j != k && t.pods[j] == s.pods[j])
  {
    BindPods(c, s, k, target);
    assert KeyOf(s.createdPods[s.createPodIndex - 1]) == k by { PendingIsLast(s, k); }
  }

  lemma BindWellFormed(c: Config, s: State, k: Key, target: string)
    requires Binds(s, k, target) && WellFormed(s.nodes, s.pods)
    ensures var t := AfterBind(c, s, k, target); WellFormed(t.nodes, t.pods)
  {
    var t, q := AfterBind(c, s, k, target), s.pods[k := Bound(s.pods[k], target)];
    BindPods(c, s, k, target);
    assert forall j :: j in q ==> KeyOf(q[j]) == j && j.namespace != "";
    assert forall j :: j in t.pods && j !in q ==> KeyOf(t.pods[j]) == j && j.namespace != "";
  }

  lemma SameFates(s0: State, s: State, t: State)
    requires Fates(s0, s) && InFlight(s) == InFlight(t)
    requires t.nodes == s.nodes && t.nodesToScaleDown == s.nodesToScaleDown
    requires t.currentNode == s.currentNode && t.currentNodeUnschedulable == s.currentNodeUnschedulable
    ensures Fates(s0, t)
  {
    assert forall n :: n in s0.nodes ==> Expected(s0, t, n) == Expected(s0, s, n);
  }

  /** The state in which the last pod of the attempt is placed and the node is about to be retired. */
  function Finished(s: State, k: Key, target: string): State
    requires k in s.pods
  {
    Placed(s, k, target).(
      schedulerCount := s.schedulerCount + 1, bindSuccessPodCount := s.bindSuccessPodCount + 1, stage := Trying)
  }

  /** A bind leaves the nodes alone, or retires the current one. */
  lemma BindNodes(c: Config, s: State, k: Key, target: string)
    requires Binds(s, k, target)
    ensures var t := AfterBind(c, s, k, target);
      if Finishes(c, s) then t == ScaledDown(Finished(s, k, target))
      else
        && InFlight(t) && t.nodes == s.nodes && t.nodesToScaleDown == s.nodesToScaleDown
        && t.currentNode == s.currentNode && t.currentNodeUnschedulable == s.currentNodeUnschedulable
  {
    BindCases(c, s, k, target);
  }

  lemma BindFates(c: Config, s0: State, s: State, k: Key, target: string)
    requires Binds(s, k, target) && Fates(s0, s)
    ensures Fates(s0, AfterBind(c, s, k, target))
  {
    BindNodes(c, s, k, target);
    if Finishes(c, s) {
      SameFates(s0, s, Finished(s, k, target));
      RetireFates(s0, Finished(s, k, target));
    } else {
      SameFates(s0, s, AfterBind(c, s, k, target));
    }
  }

  lemma BindAccounts(c: Config, s0: State, s: State, k: Key, target: string)
    requires Binds(s, k, target) && Accounts(s0, s)
    ensures Accounts(s0, AfterBind(c, s, k, target))
  {
    BindCases(c, s, k, target);
    if Finishes(c, s) {
      BindNodes(c, s, k, target);
      RetireAccounts(s0, Finished(s, k, target));
    }
  }

  lemma PendingAccepted(c: Config, s: State, k: Key)
    requires OnePending(s) && k in s.pods && Unbound(s.pods[k])
    requires forall p :: p in s.createdPods ==> PodVerdict(c.options, p).None? && p.namespace != ""
    ensures PodVerdict(c.options, s.pods[k]).None?
  {
  }

  lemma BindPasses(c: Config, s: State, k: Key, target: string, n: Node)
    requires Binds(s, k, target) && WellFormed(s.nodes, s.pods) && n.name != ""
    requires Passes(c.options, n, s.pods) && PodVerdict(c.options, s.pods[k]).None?
    ensures Passes(c.options, n, AfterBind(c, s, k, target).pods)
  {
    BindPlaces(c, s, k, target);
    PlacingKeepsCore(s.pods[k], target);
    PodVerdictOfCore(c.options, s.pods[k], Bound(s.pods[k], target));
    PassesWithMorePods(c.options, n, s.pods, AfterBind(c, s, k, target).pods);
  }

  lemma BindEligible(c: Config, s: State, k: Key, target: string, n: string)
    requires Binds(s, k, target) && WellFormed(s.nodes, s.pods)
    requires Eligible(c, s, n) && n != s.currentNode && PodVerdict(c.options, s.pods[k]).None?
    ensures Eligible(c, AfterBind(c, s, k, target), n)
  {
    BindPasses(c, s, k, target, s.nodes[n]);
    BindBase(c, s, k, target);
    BindPods(c, s, k, target);
  }

  lemma BindCache(c: Config, s: State, k: Key, target: string)
    requires Binds(s, k, target) && WellFormed(s.nodes, s.pods) && Cache(c, s)
    ensures Cache(c, AfterBind(c, s, k, target))
  {
    var t := AfterBind(c, s, k, target);
    BindCases(c, s, k, target);
    PendingAccepted(c, s, k);
    forall i | s.candidateIndex <= i < |s.candidateNode| ensures Eligible(c, t, s.candidateNode[i].name) {
      BindEligible(c, s, k, target, s.candidateNode[i].name);
    }
  }

  /** Only a pod that tolerates the taints of a node can be bound to it. */
  lemma BindDrained(c: Config, s: State, k: Key, target: string, m: string, bars: seq<Taint>)
    requires Binds(s, k, target) && WellFormed(s.nodes, s.pods) && m != "" && Drained(s.pods, m, bars)
    requires m == target ==> ToleratesAll(s.pods[k], bars)
    ensures Drained(AfterBind(c, s, k, target).pods, m, bars)
  {
    var t := AfterBind(c, s, k, target);
    BindPlaces(c, s, k, target);
    PlacingKeepsCore(s.pods[k], target);
    ToleratesOfCore(s.pods[k], t.pods[k], bars);
    forall j | On(t.pods, j, m) && Movable(t.pods[j]) ensures ToleratesAll(t.pods[j], bars) {
      assert j == k || On(s.pods, j, m);
    }
  }

  /** The tried node and the retired ones carry the unschedulable taint, and their other taints. */
  lemma Closed(s0: State, s: State, m: string)
    requires Fates(s0, s) && (m in s.nodesToScaleDown || (InFlight(s) && m == s.currentNode))
    ensures m in s.nodes && s.nodes[m].taints == Bars(s0, m) && s.nodes[m].taints[0] == UNSCHEDULABLE
  {
  }

  lemma BindDrains(c: Config, s0: State, s: State, k: Key, target: string)
    requires Binds(s, k, target) && WellFormed(s.nodes, s.pods) && Fates(s0, s) && Drains(s0, s)
    requires target in s.nodes && ToleratesNode(s.pods[k], s.nodes[target])
    ensures forall m :: m in s.nodesToScaleDown || m == s.currentNode ==>
      Drained(AfterBind(c, s, k, target).pods, m, Bars(s0, m))
  {
    forall m | m in s.nodesToScaleDown || m == s.currentNode
      ensures Drained(AfterBind(c, s, k, target).pods, m, Bars(s0, m))
    {
      Closed(s0, s, m);
      BindDrained(c, s, k, target, m, Bars(s0, m));
    }
  }

  lemma BindKeepsDrains(c: Config, s0: State, s: State, k: Key, target: string)
    requires Binds(s, k, target) && Drains(s0, s)
    requires forall m :: m in s.nodesToScaleDown || m == s.currentNode ==>
      Drained(AfterBind(c, s, k, target).pods, m, Bars(s0, m))
    ensures Drains(s0, AfterBind(c, s, k, target))
  {
    BindBase(c, s, k, target);
    BindCases(c, s, k, target);
  }

  lemma BindKeepsInv(c: Config, s0: State, s: State, e: Event)
    requires Inv(c, s0, s) && e.Bind? && Enabled(c, s, e)
    ensures Inv(c, s0, Apply(c, s, e))
  {
    BindAttempt(c, s, e.pod, e.target);
    BindConserves(c, s0, s, e.pod, e.target);
    BindWellFormed(c, s, e.pod, e.target);
    BindFates(c, s0, s, e.pod, e.target);
    BindAccounts(c, s0, s, e.pod, e.target);
    BindCache(c, s, e.pod, e.target);
    BindDrains(c, s0, s, e.pod, e.target);
    BindKeepsDrains(c, s0, s, e.pod, e.target);
  }

  // ---------------------------------------------------------------- rolling back

  lemma RolledBackPods(s: State)
    requires Shape(s) && OnePending(s) && WellFormed(s.nodes, s.pods) && s.currentNode != ""
    ensures forall k :: k in Undo(s) ==> KeyOf(Undo(s)[k]) == k && k.namespace != "" && !Unbound(Undo(s)[k])
  {
    UndoAt(s);
    var last := s.createdPods[s.createPodIndex - 1];
    assert last in s.createdPods;
    forall k | k in Undo(s) ensures KeyOf(Undo(s)[k]) == k && k.namespace != "" && !Unbound(Undo(s)[k]) {
      if k in KeysOf(s.createdPods) {
        var p :| p in s.createdPods && KeyOf(p) == k;
      }
    }
  }

  lemma RollbackAttempt(s: State)
    requires s.stage == Trying && Shape(s) && OnePending(s) && WellFormed(s.nodes, s.pods) && s.currentNode in s.nodes
    ensures Attempt(AfterUnschedulable(s)) && WellFormed(AfterUnschedulable(s).nodes, AfterUnschedulable(s).pods)
  {
    RolledBackPods(s);
  }

  lemma RollbackNode(n: Node)
    ensures Labelled(if n.unschedulable then Cordoned(n) else Uncordoned(Cordoned(n)), FAILED_LABEL) == GivenUp(n)
  {
    OtherTaintsTwice(n.taints);
  }

  lemma RollbackFailed(s0: State, s: State)
    requires Fates(s0, s) && s.stage == Trying && s.createPodIndex <= |s.createdPods|
    ensures FailedNodes(s0, AfterUnschedulable(s)) == FailedNodes(s0, s) + {s.currentNode}
    ensures AfterUnschedulable(s).nodes == s.nodes[s.currentNode := GivenUp(s0.nodes[s.currentNode])]
  {
    var t, n := AfterUnschedulable(s), s.currentNode;
    assert s.nodes[n] == Expected(s0, s, n);
    RollbackNode(s0.nodes[n]);
    FailedAdded(s0.nodes, s.nodes, n, t.nodes[n]);
  }

  lemma RollbackExpected(s0: State, s: State, m: string)
    requires Fates(s0, s) && s.stage == Trying && s.createPodIndex <= |s.createdPods| && m in s0.nodes
    ensures AfterUnschedulable(s).nodes[m] == Expected(s0, AfterUnschedulable(s), m)
  {
    RollbackFailed(s0, s);
    assert s.nodes[m] == Expected(s0, s, m);
  }

  lemma RollbackNodes(s0: State, s: State)
    requires Fates(s0, s) && s.stage == Trying && s.createPodIndex <= |s.createdPods|
    ensures FatesOfNodes(s0, AfterUnschedulable(s))
  {
    RollbackFailed(s0, s);
    forall m | m in s0.nodes ensures AfterUnschedulable(s).nodes[m] == Expected(s0, AfterUnschedulable(s), m) {
      RollbackExpected(s0, s, m);
    }
  }

  lemma RollbackFates(s0: State, s: State)
    requires Fates(s0, s) && s.stage == Trying && s.createPodIndex <= |s.createdPods|
    ensures Fates(s0, AfterUnschedulable(s))
  {
    RollbackNodes(s0, s);
  }

  lemma RollbackAccounts(s0: State, s: State)
    requires Fates(s0, s) && Accounts(s0, s) && s.stage == Trying && s.createPodIndex <= |s.createdPods|
    ensures Accounts(s0, AfterUnschedulable(s))
  {
    RollbackFailed(s0, s);
  }

  lemma RollbackCache(c: Config, s: State)
    requires Cache(c, s) && s.stage == Trying && s.createPodIndex <= |s.createdPods| && s.currentNode in s.nodes
    ensures Cache(c, AfterUnschedulable(s))
  {
    var t := AfterUnschedulable(s);
    assert t.pods == Base(t) == Base(s);
  }

  lemma RollbackDrains(s0: State, s: State)
    requires Drains(s0, s) && s.stage == Trying && s.createPodIndex <= |s.createdPods| && s.currentNode in s.nodes
    ensures Drains(s0, AfterUnschedulable(s))
  {
  }

  lemma RollbackConserves(s0: State, s: State)
    requires Conserved(s0, s) && s.stage == Trying && s.createPodIndex <= |s.createdPods| && s.currentNode in s.nodes
    ensures Conserved(s0, AfterUnschedulable(s))
  {
    assert Base(AfterUnschedulable(s)) == Base(s);
  }

  lemma RollbackKeepsInv(c: Config, s0: State, s: State, e: Event)
    requires Inv(c, s0, s) && e.Unschedulable? && Enabled(c, s, e)
    ensures Inv(c, s0, Apply(c, s, e))
  {
    RollbackAttempt(s);
    RollbackConserves(s0, s);
    RollbackFates(s0, s);
    RollbackAccounts(s0, s);
    RollbackCache(c, s);
    RollbackDrains(s0, s);
  }

  // ---------------------------------------------------------------- all transitions

  /** t differs from s in the stage and the select counter, and perhaps in having dropped a used-up cache. */
  ghost predicate StageOnly(s: State, t: State) {
    && !InFlight(s) && !InFlight(t)
    && t == s.(stage := t.stage, selectNodeCount := t.selectNodeCount,
               candidateNode := t.candidateNode, candidateIndex := t.candidateIndex)
    && ((t.candidateNode == s.candidateNode && t.candidateIndex == s.candidateIndex)
        || (t.candidateNode == [] && t.candidateIndex == 0))
  }

  lemma StageOnlyConserves(s0: State, s: State, t: State)
    requires StageOnly(s, t) && Conserved(s0, s) && Drains(s0, s)
    ensures Conserved(s0, t) && Drains(s0, t)
  {
  }

  lemma StageOnlyCache(c: Config, s: State, t: State)
    requires StageOnly(s, t) && Cache(c, s)
    ensures Cache(c, t)
  {
  }

  lemma StageOnlyAccounts(s0: State, s: State, t: State)
    requires StageOnly(s, t) && Accounts(s0, s)
    requires t.selectNodeCount == s.selectNodeCount
      + (if s.stage == Selecting then 1 else 0) - (if t.stage == Selecting then 1 else 0)
    ensures Accounts(s0, t)
  {
  }

  lemma StageOnlyKeepsInv(c: Config, s0: State, s: State, e: Event)
    requires Inv(c, s0, s) && (e.Exhaust? || e.Stop?) && Enabled(c, s, e)
    ensures Inv(c, s0, Apply(c, s, e))
  {
    var t := Apply(c, s, e);
    assert StageOnly(s, t);
    StageOnlyConserves(s0, s, t);
    StageOnlyCache(c, s, t);
    SameFates(s0, s, t);
    StageOnlyAccounts(s0, s, t);
  }

  lemma NextKeepsInv(c: Config, s0: State, s: State, e: Event, t: State)
    requires Inv(c, s0, s) && Next(c, s, e, t)
    ensures Inv(c, s0, t)
  {
    match e
    case Select(_, _, _, _) => SelectKeepsInv(c, s0, s, e);
    case Bind(_, _) => BindKeepsInv(c, s0, s, e);
    case Unschedulable(_) => RollbackKeepsInv(c, s0, s, e);
    case Exhaust => StageOnlyKeepsInv(c, s0, s, e);
    case Stop(_) => StageOnlyKeepsInv(c, s0, s, e);
  }

  /** Every state of every run satisfies the invariant. */
  lemma {:induction false} RunInv(c: Config, states: seq<State>, events: seq<Event>, i: nat)
    requires IsRun(c, states, events) && i < |states|
    ensures Inv(c, states[0], states[i])
  {
    if i == 0 {
      InitialInv(c, states[0]);
    } else {
      RunInv(c, states, events, i - 1);
      Step(c, states, events, i - 1);
      NextKeepsInv(c, states[0], states[i - 1], events[i - 1], states[i]);
    }
  }

  // The parts of the invariant, one at a time.

  lemma RunFates(c: Config, states: seq<State>, events: seq<Event>, i: nat)
    requires IsRun(c, states, events) && i < |states|
    ensures Fates(states[0], states[i]) && Accounts(states[0], states[i])
  {
    RunInv(c, states, events, i);
  }

  lemma RunAttempt(c: Config, states: seq<State>, events: seq<Event>, i: nat)
    requires IsRun(c, states, events) && i < |states|
    ensures Attempt(states[i]) && WellFormed(states[i].nodes, states[i].pods)
  {
    RunInv(c, states, events, i);
  }

  lemma RunCache(c: Config, states: seq<State>, events: seq<Event>, i: nat)
    requires IsRun(c, states, events) && i < |states|
    ensures Cache(c, states[i])
  {
    RunInv(c, states, events, i);
  }
}
