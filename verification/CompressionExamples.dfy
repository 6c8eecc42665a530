/** Runs that show where cluster compression falls short of what its flags and labels suggest. */
module CompressionExamples {
  import opened Kube
  import opened NodeFilters
  import opened Placement
  import opened Compression
  import opened CompressionSteps
  import opened CompressionFilter

  const LENIENT := Options(false, false, false, false, false, false)

  function PlainNode(name: string): Node {
    Node(name, map[], [], false, [], map["pods" := 10])
  }

  function PlainPod(name: string, node: string, owners: seq<string>, tolerations: seq<Toleration>): Pod {
    Pod("default", name, node, "default-scheduler", map[], owners, false, Running, [], tolerations, [], [], map[])
  }

  lemma StartIsInitial(nodes: map<string, Node>, pods: map<Key, Pod>)
    requires WellFormed(nodes, pods) && NothingPending(pods)
    ensures Initial(Start(nodes, pods))
  {
  }

  /** A pod without requests fits a node that has a pod slot left. */
  lemma FitsPlain(pods: map<Key, Pod>, n: Node, p: Pod)
    requires |pods| < 10 && n.allocatable == map["pods" := 10]
    requires p.containers == [] && p.initContainers == [] && p.overhead == map[]
    ensures Fits(pods, n, p)
  {
    SlotsTaken(pods, n.name);
  }

  lemma TwoSteps(c: Config, s: State, d: Event, t: State, e: Event, u: State)
    requires Initial(s) && Next(c, s, d, t) && Next(c, t, e, u)
    ensures IsRun(c, [s, t, u], [d, e])
  {
    assert Linked(c, [s, t, u], [d, e], 0) && Linked(c, [s, t, u], [d, e], 1);
  }

  // ---------------------------------------------------------------- the limit

  const AGENT_A := PlainPod("agent-a", "a", ["DaemonSet"], [])
  const AGENT_B := PlainPod("agent-b", "b", ["DaemonSet"], [])
  const TWO_AGENTS := map[KeyOf(AGENT_A) := AGENT_A, KeyOf(AGENT_B) := AGENT_B]
  const TWO_NODES := map["a" := PlainNode("a"), "b" := PlainNode("b")]

  lemma AcceptsPlain(c: Config, s: State, n: string, k: Key)
    requires c.options == LENIENT && n in s.nodes && s.nodes[n].name == n && s.nodes[n].labels == map[]
    requires On(s.pods, k, n)
    ensures Accepted(c, s, n)
  {
  }

  lemma ListsOne(c: Config, s: State, a: Node)
    requires Accepted(c, s, a.name) && s.nodes[a.name] == a && forall n :: Accepted(c, s, n) ==> n == a.name
    ensures ListsAccepted(c, s, [a])
  {
    assert [a][0] == a;
  }

  lemma ListsTwo(c: Config, s: State, a: Node, b: Node)
    requires a.name != b.name && s.nodes == map[a.name := a, b.name := b]
    requires Accepted(c, s, a.name) && Accepted(c, s, b.name)
    ensures ListsAccepted(c, s, [a, b])
  {
    assert [a, b][0] == a && [a, b][1] == b;
  }

  lemma RetiresOnTheSpot(c: Config, s: State, node: Node, batch: seq<Node>, index: nat, k: Key)
    requires s.stage == Selecting && Serves(c, s, node, batch, index)
    requires node.name in s.nodes && On(s.pods, k, node.name)
    requires forall j :: On(s.pods, j, node.name) ==> IsDaemonsetPod(s.pods[j])
    ensures var t := AfterSelect(s, node, batch, index, []);
      && Next(c, s, Select(node, batch, index, []), t)
      && t.pods == s.pods && t.stage == Selecting
      && t.nodesToScaleDown == s.nodesToScaleDown + [node.name]
  {
  }

  lemma BothAccepted(c: Config)
    requires c == Config(1, LENIENT)
    ensures ListsAccepted(c, Start(TWO_NODES, TWO_AGENTS), [PlainNode("a"), PlainNode("b")])
    ensures Initial(Start(TWO_NODES, TWO_AGENTS))
  {
    var s := Start(TWO_NODES, TWO_AGENTS);
    StartIsInitial(TWO_NODES, TWO_AGENTS);
    AcceptsPlain(c, s, "a", KeyOf(AGENT_A));
    AcceptsPlain(c, s, "b", KeyOf(AGENT_B));
    ListsTwo(c, s, PlainNode("a"), PlainNode("b"));
  }

  /** A limit of one node, two nodes that run nothing but DaemonSet pods: both are scaled down. */
  lemma LimitOfOneGivesTwo() returns (c: Config, states: seq<State>, events: seq<Event>)
    ensures IsRun(c, states, events) && c.maxSimulated == 1
    ensures |states[|events|].nodesToScaleDown| == 2
  {
    c := Config(1, LENIENT);
    var s, a, b := Start(TWO_NODES, TWO_AGENTS), PlainNode("a"), PlainNode("b");
    BothAccepted(c);
    assert On(s.pods, KeyOf(AGENT_A), "a") && On(s.pods, KeyOf(AGENT_B), "b");
    RetiresOnTheSpot(c, s, a, [a, b], 1, KeyOf(AGENT_A));
    var t := AfterSelect(s, a, [a, b], 1, []);
    RetiresOnTheSpot(c, t, b, [], 0, KeyOf(AGENT_B));
    TwoSteps(c, s, Select(a, [a, b], 1, []), t, Select(b, [], 0, []), AfterSelect(t, b, [], 0, []));
    states := [s, t, AfterSelect(t, b, [], 0, [])];
    events := [Select(a, [a, b], 1, []), Select(b, [], 0, [])];
  }

  // ---------------------------------------------------------------- pods that tolerate the cordon

  const STUBBORN := PlainPod("stubborn", "a", [], [Toleration("", Exists, "", None)])
  const ONE_NODE := map["a" := PlainNode("a")]
  const ONE_POD := map[KeyOf(STUBBORN) := STUBBORN]

  lemma StubbornStart(c: Config)
    requires c == Config(1, LENIENT)
    ensures var s, a := Start(ONE_NODE, ONE_POD), PlainNode("a");
      && Initial(s)
      && Next(c, s, Select(a, [a], 1, [STUBBORN]), AfterSelect(s, a, [a], 1, [STUBBORN]))
  {
    var s, a := Start(ONE_NODE, ONE_POD), PlainNode("a");
    StartIsInitial(ONE_NODE, ONE_POD);
    assert On(s.pods, KeyOf(STUBBORN), "a");
    AcceptsPlain(c, s, "a", KeyOf(STUBBORN));
    ListsOne(c, s, a);
    assert ListsMovable([STUBBORN], s.pods, "a") by { assert [STUBBORN][0] == STUBBORN; }
  }

  lemma StubbornBind(c: Config, t: State, k: Key)
    requires c == Config(1, LENIENT) && k == KeyOf(STUBBORN)
    requires t == AfterSelect(Start(ONE_NODE, ONE_POD), PlainNode("a"), [PlainNode("a")], 1, [STUBBORN])
    ensures Enabled(c, t, Bind(k, "a"))
    ensures var u := AfterBind(c, t, k, "a");
      "a" in u.nodesToScaleDown && On(u.pods, k, "a") && Movable(u.pods[k])
  {
    var p := InitPod(STUBBORN);
    assert [STUBBORN][0] == STUBBORN;
    assert t.pods == map[k := p];
    FitsPlain(t.pods, t.nodes["a"], p);
    assert p.tolerations[0] == Toleration("", Exists, "", None);
    forall i | 0 <= i < |t.nodes["a"].taints| ensures Tolerated(p, t.nodes["a"].taints[i]) {
      assert Tolerates(p.tolerations[0], t.nodes["a"].taints[i]);
    }
    assert AfterBind(c, t, k, "a").nodesToScaleDown[0] == "a";
  }

  /** A pod that tolerates every taint is put back on the node just cordoned, which counts as scaled down. */
  lemma TolerantPodComesBack() returns (c: Config, states: seq<State>, events: seq<Event>, k: Key)
    ensures IsRun(c, states, events)
    ensures var s := states[|events|];
      "a" in s.nodesToScaleDown && On(s.pods, k, "a") && Movable(s.pods[k])
  {
    c := Config(1, LENIENT);
    k := KeyOf(STUBBORN);
    var s, a := Start(ONE_NODE, ONE_POD), PlainNode("a");
    var t := AfterSelect(s, a, [a], 1, [STUBBORN]);
    StubbornStart(c);
    StubbornBind(c, t, k);
    TwoSteps(c, s, Select(a, [a], 1, [STUBBORN]), t, Bind(k, "a"), AfterBind(c, t, k, "a"));
    states, events := [s, t, AfterBind(c, t, k, "a")], [Select(a, [a], 1, [STUBBORN]), Bind(k, "a")];
  }

  // ---------------------------------------------------------------- the summary of rejections

  const STRICT := Options(true, false, false, false, false, false)
  const SPECIAL := PlainNode("t").(taints := [Taint("special", "", NoSchedule)])
  const AGENT_T := PlainPod("agent-t", "t", ["DaemonSet"], [])
  const PLAIN_AND_SPECIAL := map["a" := PlainNode("a"), "t" := SPECIAL]
  const THEIR_AGENTS := map[KeyOf(AGENT_A) := AGENT_A, KeyOf(AGENT_T) := AGENT_T]

  lemma OnlyPlainAccepted(c: Config, s: State)
    requires c == Config(0, STRICT) && s == Start(PLAIN_AND_SPECIAL, THEIR_AGENTS)
    ensures Initial(s) && ListsAccepted(c, s, [PlainNode("a")])
  {
    StartIsInitial(PLAIN_AND_SPECIAL, THEIR_AGENTS);
    assert On(s.pods, KeyOf(AGENT_A), "a");
    assert forall n :: n in s.nodes ==> n == "a" || n == "t";
    ListsOne(c, s, PlainNode("a"));
  }

  lemma TaintsCounted(o: Options, nodes: map<string, Node>)
    requires o == STRICT && nodes.Keys == {"a", "t"} && nodes["t"] == SPECIAL && SUCCESS_LABEL in nodes["a"].labels
    ensures Tainted(o, nodes) == {"t"}
  {
  }

  /** One node is scaled down and one is rejected for a taint: the summary does not mention a taint. */
  lemma TaintedNodeIsNotReported() returns (c: Config, states: seq<State>, events: seq<Event>)
    ensures IsRun(c, states, events)
    ensures var s := states[|events|];
      && s.stage == Exhausted && s.nodesToScaleDown == ["a"] && |Tainted(c.options, s.nodes)| == 1
      && TaintReport(c.options, s.nodes, s.selectedCount) == 0
  {
    c := Config(0, STRICT);
    var s, a := Start(PLAIN_AND_SPECIAL, THEIR_AGENTS), PlainNode("a");
    OnlyPlainAccepted(c, s);
    assert On(s.pods, KeyOf(AGENT_A), "a");
    RetiresOnTheSpot(c, s, a, [a], 1, KeyOf(AGENT_A));
    var t := AfterSelect(s, a, [a], 1, []);
    TaintsCounted(c.options, t.nodes);
    assert forall n :: n in t.nodes ==> n == "a" || n == "t";
    assert Enabled(c, t, Exhaust);
    TwoSteps(c, s, Select(a, [a], 1, []), t, Exhaust, Apply(c, t, Exhaust));
    states, events := [s, t, Apply(c, t, Exhaust)], [Select(a, [a], 1, []), Exhaust];
  }

  // ---------------------------------------------------------------- lost taints

  const GUARDED := PlainNode("a").(taints := [UNSCHEDULABLE])
  const LARGE := PlainPod("large", "a", [], [])
  const SMALL := PlainPod("small", "b", [], [])
  const GUARDED_AND_PLAIN := map["a" := GUARDED, "b" := PlainNode("b")]
  const LARGE_AND_SMALL := map[KeyOf(LARGE) := LARGE, KeyOf(SMALL) := SMALL]

  lemma ListsOnly(p: Pod, pods: map<Key, Pod>, n: string)
    requires On(pods, KeyOf(p), n) && pods[KeyOf(p)] == p && Movable(p)
    requires forall k :: On(pods, k, n) ==> k == KeyOf(p)
    ensures ListsMovable([p], pods, n) && KeysOf([p]) == {KeyOf(p)}
  {
    assert [p][0] == p;
  }

  lemma GuardedAccepted(c: Config, s: State)
    requires c == Config(0, LENIENT) && s == Start(GUARDED_AND_PLAIN, LARGE_AND_SMALL)
    ensures Initial(s) && ListsAccepted(c, s, [GUARDED, PlainNode("b")])
  {
    StartIsInitial(GUARDED_AND_PLAIN, LARGE_AND_SMALL);
    AcceptsPlain(c, s, "a", KeyOf(LARGE));
    AcceptsPlain(c, s, "b", KeyOf(SMALL));
    ListsTwo(c, s, GUARDED, PlainNode("b"));
  }

  lemma OneEach()
    ensures ListsMovable([LARGE], LARGE_AND_SMALL, "a") && ListsMovable([SMALL], LARGE_AND_SMALL, "b")
    ensures KeysOf([SMALL]) == {KeyOf(SMALL)} && KeyOf(LARGE) != KeyOf(SMALL)
  {
    ListsOnly(LARGE, LARGE_AND_SMALL, "a");
    ListsOnly(SMALL, LARGE_AND_SMALL, "b");
  }

  lemma UncordonedIsOpen(n: Node)
    requires n == GUARDED
    ensures Uncordoned(Cordoned(n)) == n.(taints := [])
  {
    OtherTaintsTwice(n.taints);
    OtherTaintsCordoned(n.taints);
  }

  /** The guarded node has lost its taint, and the plain one is next. */
  ghost predicate GuardLost(u: State) {
    && u.stage == Selecting && u.candidateIndex == 1 && u.candidateNode == [GUARDED, PlainNode("b")]
    && u.pods == LARGE_AND_SMALL && u.nodes.Keys == {"a", "b"} && u.nodes["b"] == PlainNode("b")
    && u.nodes["a"] == Labelled(GUARDED.(taints := []), FAILED_LABEL)
  }

  /** The guarded node is cordoned and its pod waits for a place. */
  ghost predicate LargeWaits(t: State) {
    && t.stage == Trying && t.createPodIndex == 1 && t.createdPods == [LARGE] && t.currentNode == "a"
    && !t.currentNodeUnschedulable && Undo(t) == LARGE_AND_SMALL
    && KeyOf(LARGE) in t.pods && t.pods[KeyOf(LARGE)] == InitPod(LARGE)
    && t.candidateIndex == 1 && t.candidateNode == [GUARDED, PlainNode("b")]
    && t.nodes == GUARDED_AND_PLAIN["a" := Cordoned(GUARDED)]
  }

  lemma LargeIsTaken(c: Config, s: State)
    requires c == Config(0, LENIENT) && s == Start(GUARDED_AND_PLAIN, LARGE_AND_SMALL)
    ensures var e := Select(GUARDED, [GUARDED, PlainNode("b")], 1, [LARGE]);
      && Initial(s) && Next(c, s, e, AfterSelect(s, GUARDED, e.candidates, 1, [LARGE]))
      && LargeWaits(AfterSelect(s, GUARDED, e.candidates, 1, [LARGE]))
  {
    GuardedAccepted(c, s);
    OneEach();
    assert On(s.pods, KeyOf(LARGE), "a");
    SelectAttempt(s, GUARDED, [GUARDED, PlainNode("b")], 1, [LARGE]);
  }

  lemma LargeFails(c: Config, t: State)
    requires LargeWaits(t)
    ensures Next(c, t, Event.Unschedulable(KeyOf(LARGE)), AfterUnschedulable(t)) && GuardLost(AfterUnschedulable(t))
  {
    UncordonedIsOpen(GUARDED);
    PlacingKeepsCore(LARGE, "");
  }

  /** The guarded node is tried, in vain. */
  lemma GuardedFails(c: Config) returns (states: seq<State>, events: seq<Event>)
    requires c == Config(0, LENIENT)
    ensures IsRun(c, states, events) && states[0] == Start(GUARDED_AND_PLAIN, LARGE_AND_SMALL)
    ensures GuardLost(states[|events|])
  {
    var s, e := Start(GUARDED_AND_PLAIN, LARGE_AND_SMALL), Select(GUARDED, [GUARDED, PlainNode("b")], 1, [LARGE]);
    var t := AfterSelect(s, GUARDED, e.candidates, 1, [LARGE]);
    LargeIsTaken(c, s);
    LargeFails(c, t);
    TwoSteps(c, s, e, t, Event.Unschedulable(KeyOf(LARGE)), AfterUnschedulable(t));
    states, events := [s, t, AfterUnschedulable(t)], [e, Event.Unschedulable(KeyOf(LARGE))];
  }

  lemma SmallIsNext(c: Config, u: State)
    requires c == Config(0, LENIENT) && GuardLost(u)
    ensures Next(c, u, Select(PlainNode("b"), [], 0, [SMALL]), AfterSelect(u, PlainNode("b"), [], 0, [SMALL]))
  {
    OneEach();
    assert On(u.pods, KeyOf(SMALL), "b");
  }

  /** The pod of the other node waits for a place. */
  ghost predicate SmallWaits(v: State) {
    && v.stage == Trying && v.currentNode == "b" && "b" in v.nodes && v.createPodIndex == 1 && v.createdPods == [SMALL]
    && v.pods == map[KeyOf(LARGE) := LARGE, KeyOf(SMALL) := InitPod(SMALL)]
    && "a" in v.nodes && v.nodes["a"] == Labelled(GUARDED.(taints := []), FAILED_LABEL)
  }

  lemma SmallIsTaken(u: State)
    requires GuardLost(u)
    ensures SmallWaits(AfterSelect(u, PlainNode("b"), [], 0, [SMALL]))
  {
    OneEach();
  }

  lemma SmallMayMoveIn(c: Config, v: State)
    requires SmallWaits(v)
    ensures Enabled(c, v, Bind(KeyOf(SMALL), "a"))
  {
    PlacingKeepsCore(SMALL, "");
    FitsPlain(v.pods, v.nodes["a"], InitPod(SMALL));
  }

  /** It goes where the snapshot does not let it. */
  lemma SmallMovesIn(c: Config, v: State)
    requires SmallWaits(v)
    ensures var w := AfterBind(c, v, KeyOf(SMALL), "a");
      On(w.pods, KeyOf(SMALL), "a") && "a" in w.nodes && w.nodes["a"].taints == []
      && w.pods[KeyOf(SMALL)].tolerations == []
  {
  }

  /** A schedulable node loses its unschedulable taint in a failed attempt, and then takes a pod that the snapshot
      keeps away from it. */
  lemma LostTaintLetsPodIn() returns (c: Config, states: seq<State>, events: seq<Event>, k: Key)
    ensures IsRun(c, states, events)
    ensures var s0, s := states[0], states[|events|];
      && "a" in s0.nodes && "a" in s.nodes && s0.nodes["a"].taints == [UNSCHEDULABLE] && s.nodes["a"].taints == []
      && On(s.pods, k, "a") && !On(s0.pods, k, "a") && !ToleratesNode(s.pods[k], s0.nodes["a"])
  {
    c, k := Config(0, LENIENT), KeyOf(SMALL);
    states, events := GuardedFails(c);
    var u, e := states[|events|], Select(PlainNode("b"), [], 0, [SMALL]);
    var v := AfterSelect(u, PlainNode("b"), [], 0, [SMALL]);
    SmallIsNext(c, u);
    Extend(c, states, events, e, v);
    states, events := states + [v], events + [e];
    SmallIsTaken(u);
    SmallMayMoveIn(c, v);
    SmallMovesIn(c, v);
    Extend(c, states, events, Bind(k, "a"), AfterBind(c, v, k, "a"));
    states, events := states + [AfterBind(c, v, k, "a")], events + [Bind(k, "a")];
    assert [UNSCHEDULABLE][0] == UNSCHEDULABLE;
  }
}
