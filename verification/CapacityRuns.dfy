/** Every run of capacity estimation ends with the same answer, or is held up by a name that is already taken. */
module CapacityRuns {
  import opened Kube
  import opened Placement
  import opened Capacity

  // ---------------------------------------------------------------- the invariant

  /** The first m copies were not in the cluster at the start. */
  ghost predicate Fresh(c: Config, pods: map<Key, Pod>, m: nat) {
    forall i :: 0 <= i < m ==> KeyOf(Copy(c.template, i)) !in pods
  }

  /** The store holds what it held at the start and the first m copies, each of them once. */
  ghost predicate Holds(c: Config, before: map<Key, Pod>, pods: map<Key, Pod>, m: nat) {
    && Fresh(c, before, m)
    && forall k :: k in pods <==> k in before || exists i :: 0 <= i < m && k == KeyOf(Copy(c.template, i))
  }

  /** How far the limit lets the run go. */
  predicate Allowed(c: Config, m: nat) {
    c.maxSimulated > 0 ==> m <= c.maxSimulated
  }

  ghost predicate Inv(c: Config, s0: State, s: State) {
    var e := |s.podsForEstimation|;
    && WellFormed(c)
    && s.counter == s.simulated
    && TotalSlots(c, s.pods) + e == TotalSlots(c, s0.pods)
    && match s.stage
       case Starting => s == s0 && e == 0 && s.counter == 0
       case Waiting =>
         && s.counter == e + 1 && Allowed(c, s.counter) && Holds(c, s0.pods, s.pods, s.counter)
         && PendingKey(c, s) in s.pods && s.pods[PendingKey(c, s)] == Copy(c.template, e)
       case Stuck =>
         && s.counter == e + 1 && Allowed(c, s.counter)
         && Fresh(c, s0.pods, e) && !Fresh(c, s0.pods, s.counter)
       case Stopped(LimitReached) =>
         s.counter == e && e == c.maxSimulated > 0 && Fresh(c, s0.pods, s.counter)
       case Stopped(Unschedulable) =>
         && s.counter == e + 1 && Allowed(c, s.counter) && TotalSlots(c, s.pods) == 0
         && Fresh(c, s0.pods, s.counter)
       case Stopped(FailedRunInit) => e == 0 && s.counter == 1 && !Fresh(c, s0.pods, 1)
  }

  // ---------------------------------------------------------------- steps

  /** An unplaced copy takes up nothing. */
  lemma CreatingIsFree(c: Config, pods: map<Key, Pod>, i: nat)
    requires WellFormed(c) && KeyOf(Copy(c.template, i)) !in pods
    ensures TotalSlots(c, pods[KeyOf(Copy(c.template, i)) := Copy(c.template, i)]) == TotalSlots(c, pods)
  {
    var p := Copy(c.template, i);
    var after := pods[KeyOf(p) := p];
    forall n, r | n in c.nodes ensures Load(after, n, r) == Load(pods, n, r) {
      LoadWith(pods, KeyOf(p), p, n, r);
    }
    SumOneLess(c, pods, after, "", c.nodes.Keys);
  }

  lemma BindingTakesOne(c: Config, pods: map<Key, Pod>, k: Key, i: nat, target: string)
    requires WellFormed(c) && k in pods && pods[k] == Copy(c.template, i) && Takes(c, pods, target)
    ensures TotalSlots(c, pods[k := Bound(pods[k], target)]) == TotalSlots(c, pods) - 1
  {
    var p := Bound(pods[k], target);
    var after := pods[k := p];
    forall n, r | n in c.nodes
      ensures Load(after, n, r) == Load(pods, n, r) + if n == target then Demand(c.template, r) else 0
    {
      LoadWith(pods, k, p, n, r);
      assert Demand(p, r) == Demand(c.template, r);
    }
    SumOneLess(c, pods, after, target, c.nodes.Keys);
  }

  /** Creating copy number m fails exactly when its name was taken from the start. */
  lemma NameIsNew(c: Config, m: nat)
    ensures forall i :: 0 <= i < m ==> KeyOf(Copy(c.template, i)) != KeyOf(Copy(c.template, m))
  {
    forall i | 0 <= i < m ensures KeyOf(Copy(c.template, i)) != KeyOf(Copy(c.template, m)) {
      if KeyOf(Copy(c.template, i)) == KeyOf(Copy(c.template, m)) { CopiesDiffer(c.template, i, m); }
    }
  }

  lemma HoldsOneMore(c: Config, before: map<Key, Pod>, pods: map<Key, Pod>, m: nat)
    requires Holds(c, before, pods, m) && KeyOf(Copy(c.template, m)) !in before
    ensures var next := Copy(c.template, m);
      KeyOf(next) !in pods && Holds(c, before, pods[KeyOf(next) := next], m + 1)
  {
    NameIsNew(c, m);
    var after := pods[KeyOf(Copy(c.template, m)) := Copy(c.template, m)];
    forall k ensures k in after <==> k in before || exists i :: 0 <= i < m + 1 && k == KeyOf(Copy(c.template, i)) {
      if k in pods && k !in before {
        var i :| 0 <= i < m && k == KeyOf(Copy(c.template, i));
      }
    }
  }

  /** Creating copy number m fails exactly when its name was taken from the start. */
  lemma CreateCases(c: Config, s0: State, s: State, failed: Stage)
    requires WellFormed(c) && Holds(c, s0.pods, s.pods, s.counter)
    ensures var t, m, next := CreateNext(c, s, failed), s.counter, Copy(c.template, s.counter);
      if KeyOf(next) in s0.pods then t.stage == failed && t.pods == s.pods && !Fresh(c, s0.pods, m + 1)
      else
        && t.stage == Waiting && t.pods == s.pods[KeyOf(next) := next]
        && TotalSlots(c, t.pods) == TotalSlots(c, s.pods)
        && Holds(c, s0.pods, t.pods, m + 1)
  {
    if KeyOf(Copy(c.template, s.counter)) !in s0.pods {
      HoldsOneMore(c, s0.pods, s.pods, s.counter);
      CreatingIsFree(c, s.pods, s.counter);
    }
  }

  /** The state between a bind and the reaction to it. */
  function Counted(c: Config, s: State, target: string): State
    requires s.counter > 0 && PendingKey(c, s) in s.pods
  {
    var k := PendingKey(c, s);
    s.(pods := s.pods[k := Bound(s.pods[k], target)],
       podsForEstimation := s.podsForEstimation + [s.pods[k].(nodeName := target)])
  }

  lemma CountedHolds(c: Config, s0: State, s: State, target: string)
    requires s.counter > 0 && PendingKey(c, s) in s.pods && Holds(c, s0.pods, s.pods, s.counter)
    ensures Holds(c, s0.pods, Counted(c, s, target).pods, s.counter)
  {
  }

  lemma CountedSlots(c: Config, s: State, target: string)
    requires WellFormed(c) && s.counter > 0 && PendingKey(c, s) in s.pods
    requires s.pods[PendingKey(c, s)] == Copy(c.template, s.counter - 1) && Takes(c, s.pods, target)
    ensures TotalSlots(c, Counted(c, s, target).pods) == TotalSlots(c, s.pods) - 1
  {
    BindingTakesOne(c, s.pods, PendingKey(c, s), s.counter - 1, target);
  }

  /** Once a bind is counted, creating the next copy restores the invariant. */
  lemma CreateKeepsInv(c: Config, s0: State, t: State)
    requires WellFormed(c) && t.counter == t.simulated == |t.podsForEstimation|
    requires Holds(c, s0.pods, t.pods, t.counter) && Allowed(c, t.counter + 1)
    requires TotalSlots(c, t.pods) + |t.podsForEstimation| == TotalSlots(c, s0.pods)
    ensures Inv(c, s0, CreateNext(c, t, Stuck))
  {
    CreateCases(c, s0, t, Stuck);
  }

  lemma BindKeepsInv(c: Config, s0: State, s: State, target: string)
    requires Inv(c, s0, s) && s.stage == Waiting && Takes(c, s.pods, target)
    ensures Inv(c, s0, AfterBind(c, s, target))
  {
    var t := Counted(c, s, target);
    CountedSlots(c, s, target);
    if c.maxSimulated > 0 && s.simulated >= c.maxSimulated {
    } else {
      CountedHolds(c, s0, s, target);
      CreateKeepsInv(c, s0, t);
    }
  }

  lemma NextKeepsInv(c: Config, s0: State, s: State, e: Event)
    requires Initial(c, s0) && Inv(c, s0, s) && Enabled(c, s, e)
    ensures Inv(c, s0, Apply(c, s, e))
  {
    match e
    case Start => CreateCases(c, s0, s, Stopped(FailedRunInit));
    case Bind(target) => BindKeepsInv(c, s0, s, target);
    case Unschedule => NoSlotAnywhere(c, s.pods, c.nodes.Keys);
  }

  /** Every state of every run satisfies the invariant. */
  lemma {:induction false} RunInv(c: Config, states: seq<State>, events: seq<Event>, i: nat)
    requires IsRun(c, states, events) && i < |states|
    ensures Inv(c, states[0], states[i])
  {
    if i == 0 {
    } else {
      RunInv(c, states, events, i - 1);
      assert Next(c, states[i - 1], events[i - 1], states[i]);
      NextKeepsInv(c, states[0], states[i - 1], events[i - 1]);
    }
  }

  // ---------------------------------------------------------------- the answer

  /** The estimation came to an answer. */
  predicate Answered(s: State) {
    s.stage == Stopped(LimitReached) || s.stage == Stopped(Unschedulable)
  }

  /** Whatever nodes the scheduler chose, the pods counted are as many as the closed form says. */
  lemma AnswerIsOrderIndependent(c: Config, states: seq<State>, events: seq<Event>, i: nat)
    requires IsRun(c, states, events) && i < |states| && Answered(states[i])
    ensures |states[i].podsForEstimation| == Answer(c, states[0].pods)
  {
    RunInv(c, states, events, i);
  }

  /** How many copies a run to the end creates. */
  ghost function Needed(c: Config, pods: map<Key, Pod>): nat {
    if 0 < c.maxSimulated <= TotalSlots(c, pods) then c.maxSimulated else TotalSlots(c, pods) + 1
  }

  /** Nothing more can happen. */
  ghost predicate Final(c: Config, s: State) {
    forall e :: !Enabled(c, s, e)
  }

  /** While a copy is pending the scheduler has a move: it binds the copy, or no node takes it. */
  lemma WaitingGoesOn(c: Config, s0: State, s: State)
    requires Inv(c, s0, s) && Final(c, s)
    ensures s.stage != Waiting
  {
    if s.stage == Waiting {
      if n :| Takes(c, s.pods, n) {
        assert Enabled(c, s, Bind(n));
      } else {
        assert Enabled(c, s, Unschedule);
      }
    }
  }

  /** A run that cannot go on has come to an answer exactly when none of the names it needs was taken. */
  lemma EndsWithAnswerIffNamesAreFree(c: Config, states: seq<State>, events: seq<Event>)
    requires IsRun(c, states, events) && Final(c, states[|events|])
    ensures Answered(states[|events|]) <==> Fresh(c, states[0].pods, Needed(c, states[0].pods))
  {
    var s0, s := states[0], states[|events|];
    RunInv(c, states, events, |events|);
    WaitingGoesOn(c, s0, s);
    assert !Enabled(c, s, Start);
    if s.stage == Stuck || s.stage == Stopped(FailedRunInit) {
      assert s.counter <= Needed(c, s0.pods);
    } else {
      assert s.counter == Needed(c, s0.pods);
    }
  }

  /** And runs do not go on for ever: each bind uses up a slot. */
  lemma {:induction false} RunsEnd(c: Config, states: seq<State>, events: seq<Event>, i: nat)
    requires IsRun(c, states, events) && i < |states|
    ensures i <= |states[i].podsForEstimation|
      + (if states[i].stage == Starting then 0 else 1) + (if states[i].stage == Stopped(Unschedulable) then 1 else 0)
    ensures i <= TotalSlots(c, states[0].pods) + 2
  {
    RunInv(c, states, events, i);
    if i == 0 {
    } else {
      RunsEnd(c, states, events, i - 1);
      assert Next(c, states[i - 1], events[i - 1], states[i]);
    }
  }

  /** How many of the pods counted are on the node. */
  function OnNode(ps: seq<Pod>, n: string): nat {
    if ps == [] then 0 else OnNode(ps[..|ps| - 1], n) + if ps[|ps| - 1].nodeName == n then 1 else 0
  }

  lemma BindSlots(c: Config, pods: map<Key, Pod>, k: Key, i: nat, target: string, n: string)
    requires WellFormed(c) && n in c.nodes && k in pods && pods[k] == Copy(c.template, i) && Takes(c, pods, target)
    ensures Slots(c, pods[k := Bound(pods[k], target)], n) == Slots(c, pods, n) - if n == target then 1 else 0
  {
    var p := Bound(pods[k], target);
    forall m, r | m in c.nodes
      ensures Load(pods[k := p], m, r) == Load(pods, m, r) + if m == target then Demand(c.template, r) else 0
    {
      LoadWith(pods, k, p, m, r);
      assert Demand(p, r) == Demand(c.template, r);
    }
    OneSlotLess(c, pods, pods[k := p], target, n);
  }

  lemma CreateSlots(c: Config, s: State, failed: Stage, n: string)
    requires WellFormed(c) && n in c.nodes
    ensures Slots(c, CreateNext(c, s, failed).pods, n) == Slots(c, s.pods, n)
    ensures CreateNext(c, s, failed).podsForEstimation == s.podsForEstimation
  {
    var p := Copy(c.template, s.counter);
    if KeyOf(p) !in s.pods {
      forall m, r | m in c.nodes ensures Load(s.pods[KeyOf(p) := p], m, r) == Load(s.pods, m, r) {
        LoadWith(s.pods, KeyOf(p), p, m, r);
      }
      OneSlotLess(c, s.pods, s.pods[KeyOf(p) := p], "", n);
    }
  }

  lemma BindUsesSlot(c: Config, s: State, target: string, n: string)
    requires WellFormed(c) && n in c.nodes && s.counter > 0 && PendingKey(c, s) in s.pods
    requires s.pods[PendingKey(c, s)] == Copy(c.template, s.counter - 1) && Takes(c, s.pods, target)
    ensures var t := AfterBind(c, s, target);
      OnNode(t.podsForEstimation, n) + Slots(c, t.pods, n) == OnNode(s.podsForEstimation, n) + Slots(c, s.pods, n)
  {
    var t := Counted(c, s, target);
    BindSlots(c, s.pods, PendingKey(c, s), s.counter - 1, target, n);
    assert t.podsForEstimation[..|t.podsForEstimation| - 1] == s.podsForEstimation;
    CreateSlots(c, t, Stuck, n);
  }

  /** The distribution reported is honest: on every node, pods counted and slots left add up to the slots it had. */
  lemma {:induction false} SlotsAreUsedUp(c: Config, states: seq<State>, events: seq<Event>, i: nat, n: string)
    requires IsRun(c, states, events) && i < |states| && n in c.nodes
    ensures OnNode(states[i].podsForEstimation, n) + Slots(c, states[i].pods, n) == Slots(c, states[0].pods, n)
  {
    if i == 0 {
    } else {
      var s, e := states[i - 1], events[i - 1];
      SlotsAreUsedUp(c, states, events, i - 1, n);
      RunInv(c, states, events, i - 1);
      assert Next(c, s, e, states[i]);
      match e
      case Start => CreateSlots(c, s, Stopped(FailedRunInit), n);
      case Bind(target) => BindUsesSlot(c, s, target, n);
      case Unschedule =>
    }
  }
}
