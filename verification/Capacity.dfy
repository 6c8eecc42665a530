/** Capacity estimation: how many copies of a pod fit, whatever nodes the scheduler picks for them. */
module Capacity {
  import opened Kube
  import opened Placement

  /** The pod to copy, the nodes it may run on as far as anything but resources is concerned, and the limit. */
  datatype Config = Config(nodes: map<string, Node>, template: Pod, admits: set<string>, maxSimulated: int)

  datatype StopReason = LimitReached | Unschedulable | FailedRunInit

  /** Waiting: a copy is pending. Stuck: a copy could not be created, so nothing is pending and nothing stops. */
  datatype Stage = Starting | Waiting | Stuck | Stopped(reason: StopReason)

  datatype State = State(
    pods: map<Key, Pod>,
    counter: nat,
    simulated: nat,
    podsForEstimation: seq<Pod>,
    stage: Stage)

  datatype Event = Start | Bind(target: string) | Unschedule

  // ---------------------------------------------------------------- names

  const DIGITS := "0123456789"

  function Decimal(n: nat): string {
    if n < 10 then [DIGITS[n]] else Decimal(n / 10) + [DIGITS[n % 10]]
  }

  /** What a numeral stands for. */
  function Value(s: string): int {
    if s == [] then 0 else 10 * Value(s[..|s| - 1]) + (s[|s| - 1] as int - '0' as int)
  }

  /** A numeral reads back as its number, has only digits, and no leading zero. */
  lemma {:induction false} DecimalReadsBack(n: nat)
    ensures Value(Decimal(n)) == n
    ensures |Decimal(n)| > 0 && forall i :: 0 <= i < |Decimal(n)| ==> '0' <= Decimal(n)[i] <= '9'
    ensures n > 0 ==> Decimal(n)[0] != '0'
  {
    var last := DIGITS[n % 10];
    assert last as int - '0' as int == n % 10;
    if n < 10 {
      assert Decimal(n)[..0] == [];
    } else {
      DecimalReadsBack(n / 10);
      assert Decimal(n)[..|Decimal(n)| - 1] == Decimal(n / 10);
    }
  }

  lemma DigitsDiffer(a: nat, b: nat)
    requires a < 10 && b < 10 && DIGITS[a] == DIGITS[b]
    ensures a == b
  {
  }

  lemma DecimalLength(n: nat)
    ensures |Decimal(n)| == 1 <==> n < 10
  {
  }

  lemma {:induction false} DecimalInjective(a: nat, b: nat)
    requires Decimal(a) == Decimal(b)
    ensures a == b
  {
    assert Decimal(a)[|Decimal(a)| - 1] == DIGITS[a % 10] && Decimal(b)[|Decimal(b)| - 1] == DIGITS[b % 10];
    DigitsDiffer(a % 10, b % 10);
    if a >= 10 && b >= 10 {
      assert Decimal(a)[..|Decimal(a)| - 1] == Decimal(a / 10) && Decimal(b)[..|Decimal(b)| - 1] == Decimal(b / 10);
      DecimalInjective(a / 10, b / 10);
    } else {
      DecimalLength(a);
      DecimalLength(b);
    }
  }

  /** The n-th copy of the template. */
  function Copy(template: Pod, n: nat): Pod {
    InitPod(template).(name := template.name + "-" + Decimal(n))
  }

  /** A copy is the template under a numbered name, unplaced and handed to the simulator's scheduler; it demands what
      the template demands. */
  lemma CopyIs(template: Pod, n: nat)
    ensures Copy(template, n).name == template.name + "-" + Decimal(n)
    ensures Copy(template, n) == template.(
      name := Copy(template, n).name,
      namespace := if template.namespace == "" then "default" else template.namespace,
      nodeName := "",
      schedulerName := "simulator-scheduler",
      phase := NoPhase,
      annotations := template.annotations["kc.k-cloud-labs.io/provisioned-by" := "simulator-scheduler"])
    ensures forall r :: Demand(Copy(template, n), r) == Demand(template, r)
  {
  }

  lemma CopiesDiffer(template: Pod, a: nat, b: nat)
    requires KeyOf(Copy(template, a)) == KeyOf(Copy(template, b))
    ensures a == b
  {
    var prefix := template.name + "-";
    assert (prefix + Decimal(a))[|prefix|..] == Decimal(a) && (prefix + Decimal(b))[|prefix|..] == Decimal(b);
    DecimalInjective(a, b);
  }

  // ---------------------------------------------------------------- transitions

  /** Generates a copy, counts it, and creates it unless its name is taken. */
  function CreateNext(c: Config, s: State, failed: Stage): State {
    var pod := Copy(c.template, s.counter);
    var t := s.(counter := s.counter + 1, simulated := s.simulated + 1);
    if KeyOf(pod) in t.pods then t.(stage := failed)
    else t.(pods := t.pods[KeyOf(pod) := pod], stage := Waiting)
  }

  /** The copy that waits for a node. */
  function PendingKey(c: Config, s: State): Key
    requires s.counter > 0
  {
    KeyOf(Copy(c.template, s.counter - 1))
  }

  function AfterBind(c: Config, s: State, target: string): State
    requires s.counter > 0 && PendingKey(c, s) in s.pods
  {
    var k := PendingKey(c, s);
    var p := s.pods[k];
    var t := s.(pods := s.pods[k := Bound(p, target)],
                podsForEstimation := s.podsForEstimation + [p.(nodeName := target)]);
    if c.maxSimulated > 0 && t.simulated >= c.maxSimulated then t.(stage := Stopped(LimitReached))
    else CreateNext(c, t, Stuck)
  }

  /** A node takes a copy when the pod is admitted there and its demands fit. */
  ghost predicate Takes(c: Config, pods: map<Key, Pod>, n: string) {
    n in c.nodes && n in c.admits && Fits(pods, c.nodes[n], c.template)
  }

  /** The scheduler binds whenever some node takes the pod, and reports it unschedulable only if none does. */
  ghost predicate Enabled(c: Config, s: State, e: Event) {
    match e
    case Start => s.stage == Starting
    case Bind(target) =>
      s.stage == Waiting && s.counter > 0 && PendingKey(c, s) in s.pods && Takes(c, s.pods, target)
    case Unschedule => s.stage == Waiting && forall n :: !Takes(c, s.pods, n)
  }

  ghost function Apply(c: Config, s: State, e: Event): State
    requires Enabled(c, s, e)
  {
    match e
    case Start => CreateNext(c, s, Stopped(FailedRunInit))
    case Bind(target) => AfterBind(c, s, target)
    case Unschedule => s.(stage := Stopped(Unschedulable))
  }

  ghost predicate WellFormed(c: Config) {
    && "" !in c.nodes
    && (forall n :: n in c.nodes ==> c.nodes[n].name == n)
  }

  ghost predicate Initial(c: Config, s: State) {
    WellFormed(c) && s == State(s.pods, 0, 0, [], Starting)
  }

  ghost predicate Next(c: Config, s: State, e: Event, t: State) {
    Enabled(c, s, e) && t == Apply(c, s, e)
  }

  ghost predicate IsRun(c: Config, states: seq<State>, events: seq<Event>) {
    && |states| == |events| + 1
    && Initial(c, states[0])
    && forall i :: 0 <= i < |events| ==> Next(c, states[i], events[i], states[i + 1])
  }

  // ---------------------------------------------------------------- the closed form

  /** The resources the template asks for. */
  function Requested(p: Pod): set<string> {
    {"pods"} + p.overhead.Keys
    + (set i, r | 0 <= i < |p.containers| && r in p.containers[i] :: r)
    + (set i, r | 0 <= i < |p.initContainers| && r in p.initContainers[i] :: r)
  }

  /** What the node has left of r. */
  ghost function Room(c: Config, pods: map<Key, Pod>, n: string, r: string): int
    requires n in c.nodes
  {
    Amount(c.nodes[n].allocatable, r) - Load(pods, n, r)
  }

  /** How many demands of size d go into the room left. */
  function Quotient(room: int, d: nat): nat
    requires d > 0
  {
    if room < 0 then 0 else room / d
  }

  /** The least quotient over the given resources the template really asks for. */
  ghost function LeastQuotient(c: Config, pods: map<Key, Pod>, n: string, rs: set<string>): nat
    requires n in c.nodes && "pods" in rs
    decreases |rs|
  {
    if rs == {"pods"} then Quotient(Room(c, pods, n, "pods"), 1)
    else
      assert rs == {"pods"} + (rs - {"pods"});
      var r :| r in rs - {"pods"};
      var rest := LeastQuotient(c, pods, n, rs - {r});
      var d := Demand(c.template, r);
      if d > 0 && Quotient(Room(c, pods, n, r), d) < rest then Quotient(Room(c, pods, n, r), d) else rest
  }

  /** The copies one node takes: the least, over the requested resources, of free divided by requested. */
  ghost function Slots(c: Config, pods: map<Key, Pod>, n: string): nat
    requires n in c.nodes
  {
    if n in c.admits then LeastQuotient(c, pods, n, Requested(c.template)) else 0
  }

  ghost function SlotsOf(c: Config, pods: map<Key, Pod>, ns: set<string>): nat
    requires ns <= c.nodes.Keys
  {
    if ns == {} then 0
    else
      var n :| n in ns;
      Slots(c, pods, n) + SlotsOf(c, pods, ns - {n})
  }

  ghost function TotalSlots(c: Config, pods: map<Key, Pod>): nat {
    SlotsOf(c, pods, c.nodes.Keys)
  }

  /** The answer of capacity estimation. */
  ghost function Answer(c: Config, pods: map<Key, Pod>): nat {
    if 0 < c.maxSimulated < TotalSlots(c, pods) then c.maxSimulated else TotalSlots(c, pods)
  }

  // ---------------------------------------------------------------- one node

  lemma {:induction false} TotalUnlisted(rls: seq<ResourceList>, r: string)
    requires forall i :: 0 <= i < |rls| ==> r !in rls[i]
    ensures TotalOf(rls, r) == 0 && LargestOf(rls, r) == 0
  {
    if rls == [] {
    } else {
      TotalUnlisted(rls[..|rls| - 1], r);
    }
  }

  /** What is not requested is not demanded. */
  lemma DemandIsRequested(p: Pod, r: string)
    requires Demand(p, r) > 0
    ensures r in Requested(p)
  {
    if r !in Requested(p) {
      TotalUnlisted(p.containers, r);
      TotalUnlisted(p.initContainers, r);
    }
  }

  lemma {:induction false} MulGap(p: int, q: int, d: nat)
    requires p > q
    ensures p * d >= q * d + d
    decreases p - q
  {
    if p == q + 1 {
      assert (q + 1) * d == q * d + d;
    } else {
      MulGap(p - 1, q, d);
      assert (p - 1) * d == p * d - d;
    }
  }

  lemma DivIs(x: int, d: nat, q: int)
    requires d > 0 && q * d <= x < q * d + d
    ensures x / d == q
  {
    var p := x / d;
    if p > q { MulGap(p, q, d); }
    if p < q { MulGap(q, p, d); }
  }

  /** A quotient counts the demands that still fit, and placing one lowers it by one. */
  lemma QuotientIs(room: int, d: nat)
    requires d > 0
    ensures Quotient(room, d) > 0 <==> d <= room
    ensures d <= room ==> Quotient(room - d, d) == Quotient(room, d) - 1
  {
    if room < d {
      if room >= 0 { DivIs(room, d, 0); }
    } else {
      var q := room / d;
      assert q * d <= room < q * d + d;
      if q < 1 { MulGap(1, q, d); }
      assert (q - 1) * d == q * d - d;
      DivIs(room - d, d, q - 1);
    }
  }

  ghost function QuotientOf(c: Config, pods: map<Key, Pod>, n: string, r: string): nat
    requires n in c.nodes && Demand(c.template, r) > 0
  {
    Quotient(Room(c, pods, n, r), Demand(c.template, r))
  }

  /** m is the least quotient over the resources in rs. */
  ghost predicate IsLeast(c: Config, pods: map<Key, Pod>, n: string, rs: set<string>, m: nat)
    requires n in c.nodes
  {
    && (forall r :: r in rs && Demand(c.template, r) > 0 ==> m <= QuotientOf(c, pods, n, r))
    && (exists r :: r in rs && Demand(c.template, r) > 0 && m == QuotientOf(c, pods, n, r))
  }

  lemma {:induction false} LeastIsMinimum(c: Config, pods: map<Key, Pod>, n: string, rs: set<string>)
    requires n in c.nodes && "pods" in rs
    ensures IsLeast(c, pods, n, rs, LeastQuotient(c, pods, n, rs))
    decreases |rs|
  {
    if rs == {"pods"} {
      assert QuotientOf(c, pods, n, "pods") == Quotient(Room(c, pods, n, "pods"), 1);
    } else {
      assert rs == {"pods"} + (rs - {"pods"});
      var r :| r in rs - {"pods"} && LeastQuotient(c, pods, n, rs) ==
        (var rest := LeastQuotient(c, pods, n, rs - {r});
         var d := Demand(c.template, r);
         if d > 0 && Quotient(Room(c, pods, n, r), d) < rest then Quotient(Room(c, pods, n, r), d) else rest);
      LeastIsMinimum(c, pods, n, rs - {r});
      assert rs == (rs - {r}) + {r};
      var w :| w in rs - {r} && Demand(c.template, w) > 0
        && LeastQuotient(c, pods, n, rs - {r}) == QuotientOf(c, pods, n, w);
      if Demand(c.template, r) > 0 {
        assert QuotientOf(c, pods, n, r) == Quotient(Room(c, pods, n, r), Demand(c.template, r));
      }
    }
  }

  /** The slots of an admitted node are the least, over all resources the copy demands, of what is left of the
      resource divided by the demand. */
  lemma SlotsAreTheMinimum(c: Config, pods: map<Key, Pod>, n: string)
    requires n in c.nodes && n in c.admits
    ensures forall r :: Demand(c.template, r) > 0 ==> Slots(c, pods, n) <= QuotientOf(c, pods, n, r)
    ensures exists r :: Demand(c.template, r) > 0 && Slots(c, pods, n) == QuotientOf(c, pods, n, r)
  {
    LeastIsMinimum(c, pods, n, Requested(c.template));
    forall r | Demand(c.template, r) > 0 ensures Slots(c, pods, n) <= QuotientOf(c, pods, n, r) {
      DemandIsRequested(c.template, r);
    }
  }

  /** The scheduler can put a copy on a node exactly when the node has a slot left. */
  lemma TakesIffSlot(c: Config, pods: map<Key, Pod>, n: string)
    requires WellFormed(c) && n in c.nodes
    ensures Takes(c, pods, n) <==> Slots(c, pods, n) > 0
  {
    if n in c.admits {
      SlotsAreTheMinimum(c, pods, n);
      forall r | Demand(c.template, r) > 0
        ensures Demand(c.template, r) <= Room(c, pods, n, r) <==> QuotientOf(c, pods, n, r) > 0
      {
        QuotientIs(Room(c, pods, n, r), Demand(c.template, r));
      }
    }
  }

  // ---------------------------------------------------------------- placing a copy

  /** after holds one more copy on target than pods, and nothing else that counts. */
  ghost predicate OneMoreOn(c: Config, pods: map<Key, Pod>, after: map<Key, Pod>, target: string) {
    forall n, r :: n in c.nodes ==>
      Load(after, n, r) == Load(pods, n, r) + if n == target then Demand(c.template, r) else 0
  }

  lemma QuotientAfter(c: Config, pods: map<Key, Pod>, after: map<Key, Pod>, target: string, n: string, r: string)
    requires WellFormed(c) && n in c.nodes && Demand(c.template, r) > 0
    requires OneMoreOn(c, pods, after, target)
    requires n == target ==> Demand(c.template, r) <= Room(c, pods, n, r)
    ensures QuotientOf(c, after, n, r) == QuotientOf(c, pods, n, r) - if n == target then 1 else 0
  {
    assert Load(after, n, r) == Load(pods, n, r) + if n == target then Demand(c.template, r) else 0;
    QuotientIs(Room(c, pods, n, r), Demand(c.template, r));
  }

  lemma OneSlotLess(c: Config, pods: map<Key, Pod>, after: map<Key, Pod>, target: string, n: string)
    requires WellFormed(c) && n in c.nodes && OneMoreOn(c, pods, after, target)
    requires n == target ==> Takes(c, pods, target)
    ensures Slots(c, after, n) == Slots(c, pods, n) - if n == target then 1 else 0
  {
    if n in c.admits {
      SlotsAreTheMinimum(c, pods, n);
      SlotsAreTheMinimum(c, after, n);
      var a :| Demand(c.template, a) > 0 && Slots(c, pods, n) == QuotientOf(c, pods, n, a);
      var b :| Demand(c.template, b) > 0 && Slots(c, after, n) == QuotientOf(c, after, n, b);
      QuotientAfter(c, pods, after, target, n, a);
      QuotientAfter(c, pods, after, target, n, b);
    }
  }

  lemma SlotsSplit(c: Config, pods: map<Key, Pod>, ns: set<string>)
    requires ns <= c.nodes.Keys && ns != {}
    ensures exists n :: n in ns && SlotsOf(c, pods, ns) == Slots(c, pods, n) + SlotsOf(c, pods, ns - {n})
  {
  }

  /** The sum does not depend on the order of the nodes. */
  lemma {:induction false} SlotsWithout(c: Config, pods: map<Key, Pod>, ns: set<string>, n: string)
    requires ns <= c.nodes.Keys && n in ns
    ensures SlotsOf(c, pods, ns) == Slots(c, pods, n) + SlotsOf(c, pods, ns - {n})
    decreases ns
  {
    var m :| m in ns && SlotsOf(c, pods, ns) == Slots(c, pods, m) + SlotsOf(c, pods, ns - {m});
    if m != n {
      SlotsWithout(c, pods, ns - {m}, n);
      SlotsWithout(c, pods, ns - {n}, m);
      assert ns - {m} - {n} == ns - {n} - {m};
    }
  }

  lemma {:induction false} SumOneLess(
    c: Config, pods: map<Key, Pod>, after: map<Key, Pod>, target: string, ns: set<string>)
    requires WellFormed(c) && ns <= c.nodes.Keys && OneMoreOn(c, pods, after, target)
    requires target in c.nodes ==> Takes(c, pods, target)
    ensures SlotsOf(c, after, ns) == SlotsOf(c, pods, ns) - if target in ns then 1 else 0
    decreases ns
  {
    if ns == {} {
    } else {
      SlotsSplit(c, pods, ns);
      var n :| n in ns && SlotsOf(c, after, ns) == Slots(c, after, n) + SlotsOf(c, after, ns - {n});
      SlotsWithout(c, pods, ns, n);
      OneSlotLess(c, pods, after, target, n);
      SumOneLess(c, pods, after, target, ns - {n});
    }
  }

  lemma {:induction false} NoSlotAnywhere(c: Config, pods: map<Key, Pod>, ns: set<string>)
    requires WellFormed(c) && ns <= c.nodes.Keys
    ensures SlotsOf(c, pods, ns) == 0 <==> forall n :: n in ns ==> !Takes(c, pods, n)
    decreases ns
  {
    if ns == {} {
    } else {
      var n :| n in ns && SlotsOf(c, pods, ns) == Slots(c, pods, n) + SlotsOf(c, pods, ns - {n});
      TakesIffSlot(c, pods, n);
      NoSlotAnywhere(c, pods, ns - {n});
    }
  }
}
