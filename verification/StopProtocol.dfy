/** Concurrent stops of the framework, one atomic action of a caller at a time. */
module StopProtocol {

  /** Where a caller of Stop is. Unlocking: about to leave, with or without having stopped the framework. */
  datatype Place =
    | Waiting | Checking | Recording | Saving | Marking
    | ClosingStop | ClosingInformer | ClosingScheduler | Unlocking | Returned

  /** A reason and the version of the cluster that was copied with it. */
  datatype Report = NoReport | Report(reason: int, cluster: int)

  datatype State = State(
    places: map<nat, Place>,
    holder: int,
    stopped: bool,
    report: Report,
    stopCloses: nat,
    informerCloses: nat,
    schedulerCloses: nat)

  const NOBODY := -1

  /** One action of caller t: it takes the lock, checks the flag, copies reason and cluster into the status, saves the
      status (which may fail), sets the flag, closes the channels one after the other, and lets go of the lock. */
  datatype Event =
    | Lock(t: nat)
    | Check(t: nat)
    | Record(t: nat, reason: int, cluster: int)
    | Save(t: nat, fails: bool)
    | Mark(t: nat)
    | CloseStop(t: nat)
    | CloseInformer(t: nat)
    | CloseScheduler(t: nat)
    | Unlock(t: nat)

  predicate At(s: State, t: nat, p: Place) {
    t in s.places && s.places[t] == p
  }

  predicate Enabled(s: State, e: Event) {
    match e
    case Lock(t) => At(s, t, Waiting) && s.holder == NOBODY
    case Check(t) => At(s, t, Checking)
    case Record(t, _, _) => At(s, t, Recording)
    case Save(t, _) => At(s, t, Saving)
    case Mark(t) => At(s, t, Marking)
    case CloseStop(t) => At(s, t, ClosingStop)
    case CloseInformer(t) => At(s, t, ClosingInformer)
    case CloseScheduler(t) => At(s, t, ClosingScheduler)
    case Unlock(t) => At(s, t, Unlocking)
  }

  function Move(s: State, t: nat, p: Place): State {
    s.(places := s.places[t := p])
  }

  function Apply(s: State, e: Event): State
    requires Enabled(s, e)
  {
    match e
    case Lock(t) => Move(s, t, Checking).(holder := t)
    case Check(t) => Move(s, t, if s.stopped then Unlocking else Recording)
    case Record(t, reason, cluster) => Move(s, t, Saving).(report := Report.Report(reason, cluster))
    case Save(t, fails) => Move(s, t, if fails then Unlocking else Marking)
    case Mark(t) => Move(s, t, ClosingStop).(stopped := true)
    case CloseStop(t) => Move(s, t, ClosingInformer).(stopCloses := s.stopCloses + 1)
    case CloseInformer(t) => Move(s, t, ClosingScheduler).(informerCloses := s.informerCloses + 1)
    case CloseScheduler(t) => Move(s, t, Unlocking).(schedulerCloses := s.schedulerCloses + 1)
    case Unlock(t) => Move(s, t, Returned).(holder := NOBODY)
  }

  predicate Initial(s: State) {
    && (forall t :: t in s.places ==> s.places[t] == Waiting)
    && s.holder == NOBODY && !s.stopped && s.report == NoReport
    && s.stopCloses == s.informerCloses == s.schedulerCloses == 0
  }

  predicate Next(s: State, e: Event, t: State) {
    Enabled(s, e) && t == Apply(s, e)
  }

  /** Any interleaving of any number of callers. */
  predicate IsRun(states: seq<State>, events: seq<Event>) {
    && |states| == |events| + 1
    && Initial(states[0])
    && forall i :: 0 <= i < |events| ==> Next(states[i], events[i], states[i + 1])
  }

  // ---------------------------------------------------------------- the invariant

  predicate InsideLock(p: Place) {
    !p.Waiting? && !p.Returned?
  }

  /** The flag and the channels, as far as the caller at p has brought them. */
  predicate Progress(s: State, p: Place) {
    var (a, b, c) := (s.stopCloses, s.informerCloses, s.schedulerCloses);
    match p
    case Recording => !s.stopped && a == b == c == 0
    case Saving => !s.stopped && a == b == c == 0
    case Marking => !s.stopped && a == b == c == 0
    case ClosingStop => s.stopped && a == b == c == 0
    case ClosingInformer => s.stopped && a == 1 && b == c == 0
    case ClosingScheduler => s.stopped && a == b == 1 && c == 0
    case _ => a == b == c == (if s.stopped then 1 else 0)
  }

  predicate Inv(s: State) {
    && (forall t :: t in s.places ==> (InsideLock(s.places[t]) <==> s.holder == t))
    && (s.holder != NOBODY ==> s.holder >= 0 && s.holder in s.places)
    && Progress(s, if s.holder == NOBODY then Waiting else s.places[s.holder])
    && (s.stopped ==> s.report.Report?)
    && (s.holder != NOBODY && (s.places[s.holder].Saving? || s.places[s.holder].Marking?) ==> s.report.Report?)
  }

  lemma NextKeepsInv(s: State, e: Event)
    requires Inv(s) && Enabled(s, e)
    ensures Inv(Apply(s, e))
  {
  }

  lemma {:induction false} RunInv(states: seq<State>, events: seq<Event>, i: nat)
    requires IsRun(states, events) && i < |states|
    ensures Inv(states[i])
  {
    if i == 0 {
    } else {
      RunInv(states, events, i - 1);
      assert Next(states[i - 1], events[i - 1], states[i]);
      NextKeepsInv(states[i - 1], events[i - 1]);
    }
  }

  // ---------------------------------------------------------------- one-shot stop

  /** No channel is ever closed twice, and whenever no caller is inside, all three are closed or none is. */
  lemma ChannelsCloseOnceAndTogether(states: seq<State>, events: seq<Event>, i: nat)
    requires IsRun(states, events) && i < |states|
    ensures var s := states[i];
      && s.stopCloses <= 1 && s.informerCloses <= 1 && s.schedulerCloses <= 1
      && (s.holder == NOBODY ==>
            s.stopCloses == s.informerCloses == s.schedulerCloses == (if s.stopped then 1 else 0))
      && (s.stopCloses == 1 ==> s.stopped)
  {
    RunInv(states, events, i);
  }

  /** Once a stop has succeeded, the reason and the copied cluster stay as they are, and so does the flag. */
  lemma {:induction false} FirstSuccessIsFinal(states: seq<State>, events: seq<Event>, i: nat, j: nat)
    requires IsRun(states, events) && i <= j < |states| && states[i].stopped
    ensures states[j].stopped && states[j].report == states[i].report && states[j].report.Report?
  {
    RunInv(states, events, i);
    if i == j {
    } else {
      FirstSuccessIsFinal(states, events, i, j - 1);
      RunInv(states, events, j - 1);
      assert Next(states[j - 1], events[j - 1], states[j]);
    }
  }

  /** A caller that has recorded its report goes on to save it, and perhaps to stop the framework. */
  predicate HasRecorded(s: State, t: nat) {
    t in s.places && !s.places[t].Waiting? && !s.places[t].Checking? && !s.places[t].Recording?
  }

  /** Until the caller lets go of the lock or marks the framework stopped, the status is the one it recorded. */
  lemma {:induction false} RecordStands(states: seq<State>, events: seq<Event>, i: nat, m: nat)
    requires IsRun(states, events) && i < m < |states| && events[i].Record?
    ensures HasRecorded(states[m], events[i].t)
    ensures At(states[m], events[i].t, Saving) || At(states[m], events[i].t, Marking) ==>
      states[m].report == Report.Report(events[i].reason, events[i].cluster)
  {
    RunInv(states, events, m - 1);
    assert Next(states[m - 1], events[m - 1], states[m]);
    if m > i + 1 {
      RecordStands(states, events, i, m - 1);
    }
  }

  /** The report that stays is the one recorded by the caller that stopped the framework. */
  lemma ReportIsTheStoppers(states: seq<State>, events: seq<Event>, i: nat, j: nat, m: nat)
    requires IsRun(states, events) && i < j < m < |states|
    requires events[i].Record? && events[j].Mark? && events[i].t == events[j].t
    ensures states[m].stopped && states[m].report == Report.Report(events[i].reason, events[i].cluster)
  {
    RecordStands(states, events, i, j);
    assert Next(states[j], events[j], states[j + 1]);
    FirstSuccessIsFinal(states, events, j + 1, m);
  }

  /** The framework is not left stopped with a channel open: a caller inside the closing sequence can always go on,
      and when it has left, all three channels are closed. */
  lemma ClosingIsNeverStuck(states: seq<State>, events: seq<Event>, i: nat)
    requires IsRun(states, events) && i < |states| && states[i].stopped && states[i].schedulerCloses == 0
    ensures exists e :: Enabled(states[i], e) && (e.CloseStop? || e.CloseInformer? || e.CloseScheduler?)
  {
    RunInv(states, events, i);
    var s := states[i];
    var t: nat := s.holder;
    match s.places[t]
    case ClosingStop => assert Enabled(s, CloseStop(t));
    case ClosingInformer => assert Enabled(s, CloseInformer(t));
    case ClosingScheduler => assert Enabled(s, CloseScheduler(t));
  }

  // ---------------------------------------------------------------- saving

  /** The caller that is about to mark the framework stopped has saved the status. */
  lemma {:induction false} MarkingHasSaved(states: seq<State>, events: seq<Event>, j: nat, t: nat)
    requires IsRun(states, events) && j < |states| && At(states[j], t, Marking)
    ensures exists i :: 0 <= i < j && events[i] == Save(t, false)
  {
    if j == 0 {
    } else {
      assert Next(states[j - 1], events[j - 1], states[j]);
      if At(states[j - 1], t, Marking) {
        MarkingHasSaved(states, events, j - 1, t);
      } else {
        assert events[j - 1] == Save(t, false);
      }
    }
  }

  lemma {:induction false} FailedSaveLeaves(states: seq<State>, events: seq<Event>, i: nat, j: nat, t: nat)
    requires IsRun(states, events) && i < j < |states| && events[i] == Save(t, true)
    ensures At(states[j], t, Unlocking) || At(states[j], t, Returned)
  {
    assert Next(states[j - 1], events[j - 1], states[j]);
    if j == i + 1 {
    } else {
      FailedSaveLeaves(states, events, i, j - 1, t);
    }
  }

  /** A caller marks the framework stopped only after it has saved the status, and never once a save of its has failed:
      such a caller just lets go of the lock. */
  lemma OnlySaversStop(states: seq<State>, events: seq<Event>, j: nat, t: nat)
    requires IsRun(states, events) && j < |events| && events[j] == Mark(t)
    ensures exists i :: 0 <= i < j && events[i] == Save(t, false)
    ensures forall i :: 0 <= i < j ==> events[i] != Save(t, true)
  {
    assert Next(states[j], events[j], states[j + 1]);
    MarkingHasSaved(states, events, j, t);
    forall i | 0 <= i < j ensures events[i] != Save(t, true) {
      if events[i] == Save(t, true) { FailedSaveLeaves(states, events, i, j, t); }
    }
  }

  /** Before any caller has marked it, the framework is not stopped. */
  lemma {:induction false} StoppedWasMarked(states: seq<State>, events: seq<Event>, j: nat)
    requires IsRun(states, events) && j < |states|
    ensures states[j].stopped <==> exists i :: 0 <= i < j && events[i].Mark?
  {
    if j == 0 {
    } else {
      assert Next(states[j - 1], events[j - 1], states[j]);
      StoppedWasMarked(states, events, j - 1);
    }
  }
}
