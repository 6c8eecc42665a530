/** A run of capacity estimation that never answers. */
module CapacityExamples {
  import opened Kube
  import opened Placement
  import opened Capacity
  import opened CapacityRuns

  const NODE_A := Node("a", map[], [], false, [], map["pods" := 10])
  const WEB := Pod("default", "web", "", "", map[], [], false, NoPhase, [], [], [], [], map[])
  const OTHER := WEB.(name := "web-1", nodeName := "a")

  function Hangs(): Config {
    Config(map["a" := NODE_A], WEB, {"a"}, 0)
  }

  lemma HasRoom(pods: map<Key, Pod>)
    requires |pods| < 10
    ensures Takes(Hangs(), pods, "a")
  {
    SlotsTaken(pods, "a");
  }

  lemma Names()
    ensures KeyOf(Copy(WEB, 0)) == Key("default", "web-0") && KeyOf(Copy(WEB, 1)) == KeyOf(OTHER)
  {
    assert Decimal(0) == "0" && Decimal(1) == "1";
    assert WEB.name + "-" + "0" == "web-0" && WEB.name + "-" + "1" == "web-1";
  }

  const BEFORE := State(map[KeyOf(OTHER) := OTHER], 0, 0, [], Starting)

  lemma FirstIsCreated()
    ensures var c, t := Hangs(), CreateNext(Hangs(), BEFORE, Stopped(FailedRunInit));
      && Next(c, BEFORE, Start, t)
      && t == State(map[KeyOf(OTHER) := OTHER, KeyOf(Copy(WEB, 0)) := Copy(WEB, 0)], 1, 1, [], Waiting)
  {
    Names();
    assert KeyOf(Copy(WEB, 0)) !in BEFORE.pods;
  }

  lemma SecondIsNot(t: State)
    requires t == State(map[KeyOf(OTHER) := OTHER, KeyOf(Copy(WEB, 0)) := Copy(WEB, 0)], 1, 1, [], Waiting)
    ensures var c := Hangs();
      && Enabled(c, t, Bind("a")) && AfterBind(c, t, "a").stage == Stuck
      && |AfterBind(c, t, "a").podsForEstimation| == 1 && |AfterBind(c, t, "a").pods| < 10
  {
    Names();
    HasRoom(t.pods);
  }

  /** The cluster already runs a pod called web-1. Copy number 0 is placed, copy number 1 cannot be created, and there
      the run stays: nothing is pending, nothing can happen, and yet there is room for more. */
  lemma TakenNameHangs() returns (c: Config, states: seq<State>, events: seq<Event>)
    ensures IsRun(c, states, events) && Final(c, states[|events|])
    ensures var s := states[|events|];
      !Answered(s) && s.stage == Stuck && |s.podsForEstimation| == 1 && TotalSlots(c, s.pods) > 0
  {
    c := Hangs();
    var t := CreateNext(c, BEFORE, Stopped(FailedRunInit));
    FirstIsCreated();
    SecondIsNot(t);
    var u := AfterBind(c, t, "a");
    HasRoom(u.pods);
    NoSlotAnywhere(c, u.pods, c.nodes.Keys);
    states, events := [BEFORE, t, u], [Start, Bind("a")];
    assert Next(c, BEFORE, Start, t) && Next(c, t, Bind("a"), u);
  }
}
