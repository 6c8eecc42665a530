/** A node that gets a pod back: what the snapshot need only hold for some run to leave a listed node with a movable
    pod. */
module CompressionComeback {
  import opened Kube
  import opened NodeFilters
  import opened Placement
  import opened Compression
  import opened CompressionSteps
  import opened CompressionDrain

  // ---------------------------------------------------------------- lists of sets

  ghost function Listing<T>(xs: set<T>): seq<T> {
    if xs == {} then []
    else
      var x :| x in xs;
      [x] + Listing(xs - {x})
  }

  ghost predicate Lists<T>(xs: seq<T>, s: set<T>) {
    && (forall x :: x in xs ==> x in s) && (forall x :: x in s ==> x in xs)
    && (forall i, j :: 0 <= i < j < |xs| ==> xs[i] != xs[j])
  }

  lemma ListsOneMore<T>(xs: seq<T>, s: set<T>, x: T)
    requires Lists(xs, s) && x !in s
    ensures Lists([x] + xs, s + {x})
  {
    assert forall i :: 0 <= i < |xs| ==> xs[i] in xs;
  }

  lemma {:induction false} ListingLists<T>(s: set<T>)
    ensures Lists(Listing(s), s)
    decreases s
  {
    if s == {} {
    } else {
      var x :| x in s && Listing(s) == [x] + Listing(s - {x});
      ListingLists(s - {x});
      ListsOneMore(Listing(s - {x}), s - {x}, x);
      assert s - {x} + {x} == s;
    }
  }

  /** Any set can be listed with any of its elements first. */
  lemma ListedFirst<T>(s: set<T>, x: T) returns (xs: seq<T>)
    requires x in s
    ensures Lists(xs, s) && |xs| > 0 && xs[0] == x
  {
    ListingLists(s - {x});
    xs := [x] + Listing(s - {x});
    ListsOneMore(Listing(s - {x}), s - {x}, x);
    assert s - {x} + {x} == s;
  }

  // ---------------------------------------------------------------- selecting the node

  /** The filter may list any node that passes first. */
  lemma BatchWith(c: Config, s: State, n: string) returns (batch: seq<Node>)
    requires WellFormed(s.nodes, s.pods) && Accepted(c, s, n)
    ensures ListsAccepted(c, s, batch) && |batch| > 0 && batch[0] == s.nodes[n]
  {
    var names := set m | m in s.nodes && Accepted(c, s, m);
    var xs := ListedFirst(names, n);
    assert forall i :: 0 <= i < |xs| ==> xs[i] in names;
    batch := seq(|xs|, i requires 0 <= i < |xs| => s.nodes[xs[i]]);
    forall m | Accepted(c, s, m) ensures exists i :: 0 <= i < |batch| && batch[i].name == m {
      assert m in xs;
      var i :| 0 <= i < |xs| && xs[i] == m;
      assert batch[i].name == m;
    }
  }

  /** The cache may list any movable pod first. */
  lemma CreatedWith(pods: map<Key, Pod>, n: string, k: Key) returns (created: seq<Pod>)
    requires (forall j :: j in pods ==> KeyOf(pods[j]) == j) && On(pods, k, n) && Movable(pods[k])
    ensures ListsMovable(created, pods, n) && created != [] && created[0] == pods[k]
  {
    var keys := set j | j in pods && On(pods, j, n) && Movable(pods[j]);
    var xs := ListedFirst(keys, k);
    assert forall i :: 0 <= i < |xs| ==> xs[i] in keys;
    created := seq(|xs|, i requires 0 <= i < |xs| => pods[xs[i]]);
    forall j | On(pods, j, n) && Movable(pods[j]) ensures j in KeysOf(created) {
      assert j in xs;
      var i :| 0 <= i < |xs| && xs[i] == j;
      assert created[i] in created && KeyOf(created[i]) == j;
    }
  }

  // ---------------------------------------------------------------- binding the pod

  /** The node carries no more than it can. */
  ghost predicate Carries(s: State, n: string)
    requires n in s.nodes
  {
    forall r :: Load(s.pods, n, r) <= Amount(s.nodes[n].allocatable, r)
  }

  /** Taking the pods down makes room for the first of them. */
  lemma RoomForFirst(pods: map<Key, Pod>, created: seq<Pod>, n: string, r: string)
    requires ListsMovable(created, pods, n) && created != [] && n != ""
    requires forall j :: j in pods ==> KeyOf(pods[j]) == j && j.namespace != ""
    ensures Load(TakenDown(pods, created), n, r) + Demand(InitPod(created[0]), r) <= Load(pods, n, r)
  {
    var p, less := created[0], pods - KeysOf(created);
    Listed(created, pods, n, p);
    PlacingKeepsCore(p, "");
    CoreDecides(InitPod(p), p);
    assert KeyOf(p) in KeysOf(created);
    LoadOfFewer(less, pods - {KeyOf(p)}, n, r);
    LoadSplit(pods, KeyOf(p), n, r);
    LoadWith(less, KeyOf(InitPod(p)), InitPod(p), n, r);
  }

  lemma MayComeBack(s: State, n: string, created: seq<Pod>)
    requires WellFormed(s.nodes, s.pods) && n in s.nodes && Carries(s, n)
    requires ListsMovable(created, s.pods, n) && created != []
    requires ToleratesAll(created[0], Cordoned(s.nodes[n]).taints)
    ensures Schedulable(TakenDown(s.pods, created), Cordoned(s.nodes[n]), InitPod(created[0]))
  {
    var p, node := created[0], Cordoned(s.nodes[n]);
    assert On(s.pods, KeyOf(p), n);
    PlacingKeepsCore(p, "");
    ToleratesOfCore(InitPod(p), p, node.taints);
    forall r | Demand(InitPod(p), r) > 0
      ensures Load(TakenDown(s.pods, created), n, r) + Demand(InitPod(p), r) <= Amount(node.allocatable, r)
    {
      RoomForFirst(s.pods, created, n, r);
    }
  }

  /** The node at the head of a new batch can be selected. */
  lemma FirstIsSelected(c: Config, s: State, batch: seq<Node>, created: seq<Pod>)
    requires Initial(s) && ListsAccepted(c, s, batch) && |batch| > 0
    requires ListsMovable(created, s.pods, batch[0].name)
    ensures Enabled(c, s, Select(batch[0], batch, 1, created))
  {
    assert Accepted(c, s, batch[0].name);
  }

  /** Its first pod waits, and may be bound to it again. */
  lemma FirstWaits(s: State, batch: seq<Node>, created: seq<Pod>)
    requires Initial(s) && |batch| > 0 && batch[0].name in s.nodes && s.nodes[batch[0].name] == batch[0]
    requires ListsMovable(created, s.pods, batch[0].name) && created != []
    ensures var t := AfterSelect(s, batch[0], batch, 1, created);
      && Binds(t, KeyOf(created[0]), batch[0].name) && Shut(t, batch[0].name)
      && t.pods == TakenDown(s.pods, created) && t.pods[KeyOf(created[0])] == InitPod(created[0])
      && t.nodes == s.nodes[batch[0].name := Cordoned(batch[0])]
  {
    SelectAttempt(s, batch[0], batch, 1, created);
    assert On(s.pods, KeyOf(created[0]), batch[0].name);
    PlacingKeepsCore(created[0], "");
  }

  lemma FirstIsBound(c: Config, t: State, k: Key, n: string)
    requires Binds(t, k, n) && n in t.nodes && Schedulable(t.pods, t.nodes[n], t.pods[k])
    ensures Enabled(c, t, Bind(k, n))
  {
  }

  /** The run selects the node and binds the pod to it again. */
  lemma ComesBackAtOnce(c: Config, s: State, batch: seq<Node>, created: seq<Pod>)
    requires Initial(s) && ListsAccepted(c, s, batch) && |batch| > 0 && created != []
    requires ListsMovable(created, s.pods, batch[0].name) && Carries(s, batch[0].name)
    requires ToleratesAll(created[0], Cordoned(batch[0]).taints)
    ensures var e, t := Select(batch[0], batch, 1, created), AfterSelect(s, batch[0], batch, 1, created);
      && Next(c, s, e, t)
      && Enabled(c, t, Bind(KeyOf(created[0]), batch[0].name)) && Shut(t, batch[0].name)
      && Binds(t, KeyOf(created[0]), batch[0].name)
  {
    FirstIsSelected(c, s, batch, created);
    FirstWaits(s, batch, created);
    MayComeBack(s, batch[0].name, created);
    FirstIsBound(c, AfterSelect(s, batch[0], batch, 1, created), KeyOf(created[0]), batch[0].name);
  }

  /** A node that passes the filter, carries its pods, and runs a movable pod that tolerates all the node's taints once
      it is cordoned: then some run puts that pod back on the node while it is being drained. */
  lemma SomeRunBringsItBack(c: Config, s: State, n: string, k: Key) returns (states: seq<State>, events: seq<Event>)
    requires Initial(s) && Accepted(c, s, n) && Carries(s, n)
    requires On(s.pods, k, n) && Movable(s.pods[k]) && ToleratesAll(s.pods[k], Cordoned(s.nodes[n]).taints)
    ensures IsRun(c, states, events) && states[0] == s && |events| == 2
    ensures ComesBack(states[1], events[1]) && !Clean(states[2])
  {
    var batch := BatchWith(c, s, n);
    var created := CreatedWith(s.pods, n, k);
    ComesBackAtOnce(c, s, batch, created);
    var e, t := Select(batch[0], batch, 1, created), AfterSelect(s, batch[0], batch, 1, created);
    BackIsNotClean(c, t, k, n);
    Extend(c, [s], [], e, t);
    Extend(c, [s] + [t], [] + [e], Bind(k, n), AfterBind(c, t, k, n));
    states, events := [s] + [t] + [AfterBind(c, t, k, n)], [] + [e] + [Bind(k, n)];
  }
}
