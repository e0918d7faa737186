/** What a settled turn tells its client: its last event and its standing, stated by what the runtime sent and
    how its stream ended. */
module FederatedOutcomes {
  import opened Basics
  import opened FederatedTurn
  import opened FederatedMeaning
  import opened FederatedCrash
  import opened FederatedEquivalence

  /** The turn's last event, which is also the last that its result shows, and its standing. */
  predicate EndsIn(d: Durable, fact: Fact, status: EndStatus, phase: Phase) {
    && d.log != [] && d.log[|d.log| - 1].mine && d.log[|d.log| - 1].fact == fact
    && d.standing == Ended(status, phase)
    && d.result.Some? && d.result.value != []
    && d.result.value[|d.result.value| - 1] == Public(|d.log|, fact)
  }

  predicate IsCompleted(d: Durable) {
    EndsIn(d, TurnFinished, EndCompleted, PhaseCompleted)
  }

  predicate IsCancelled(d: Durable) {
    EndsIn(d, TurnFailed(RuntimeCancelled), EndFailed, PhaseCancelled)
  }

  predicate IsFailed(d: Durable) {
    EndsIn(d, TurnFailed(RuntimeFailed), EndFailed, PhaseFailed)
  }

  /** The turn reports the category of a failure that the executor raised. */
  predicate Reports(d: Durable, category: Outcome) {
    if category.Done? then IsCompleted(d)
    else if category.RuntimeCancelled? then IsCancelled(d)
    else if category.ReconciliationRequired? then
      EndsIn(d, TurnFailed(category), EndReconciliation, PhaseReconciliation)
    else EndsIn(d, TurnFailed(category), EndFailed, PhaseFailed)
  }

  /** The turn ends with the runtime's own terminal status. */
  predicate EndsByStatus(d: Durable, body: Body) {
    && body.Change?
    && (body.status == Completed <==> IsCompleted(d))
    && (body.status == Cancelled <==> IsCancelled(d))
    && (body.status == Failed <==> IsFailed(d))
    && (IsCompleted(d) || IsCancelled(d) || IsFailed(d))
  }

  /** The `t`-th event is taken, and it says that the run is over. */
  predicate StopsAt(s: Setting, t: nat) {
    && t < |s.stream| && PointAt(s, t).Some?
    && Judge(s.policy, PointAt(s, t).value.progress, s.stream, t).Advance?
    && s.stream[t].body.Change? && s.stream[t].body.status in [Completed, Cancelled, Failed]
  }

  /** All events are taken or repeat one that was, and none of them says so. */
  predicate RunsOut(s: Setting) {
    PointAt(s, |s.stream|).Some?
  }

  /** How the turn ends: as its terminal event says; without one as the stream's end says; and where an event
      is refused before that, as failed. */
  ghost predicate EndsAsTold(s: Setting, d: Durable) {
    && (forall t: nat | StopsAt(s, t) :: EndsByStatus(d, s.stream[t].body))
    && (RunsOut(s) ==> if s.ending.Fails? then Reports(d, s.ending.category) else IsFailed(d))
    && ((forall t: nat :: !StopsAt(s, t)) && !RunsOut(s) ==> IsFailed(d))
  }

  lemma SettledEndsIn(d: Durable, point: Point, outcome: Outcome)
    requires d.standing.Ended? && Blind(d) == Blind(Settled(point, outcome))
    ensures Reports(d, outcome)
  {
    assert d.log == Blind(d).log == point.log + [Seal(point, outcome)];
    assert d.result == Blind(d).result && d.standing == Blind(d).standing;
  }

  lemma ReportSays(d: Durable, body: Body, outcome: Outcome)
    requires Reports(d, outcome) && body.Change? && body.status in [Completed, Cancelled, Failed]
    requires outcome == if body.status == Completed then Done else if body.status == Cancelled then RuntimeCancelled else RuntimeFailed
    ensures EndsByStatus(d, body)
  {}

  lemma TerminalDecides(s: Setting, t: nat, d: Durable)
    requires Conclusive(s.ending) && Arrived(s, d) && StopsAt(s, t)
    ensures EndsByStatus(d, s.stream[t].body)
  {
    var point := PointAt(s, t).value;
    var p := Judge(s.policy, point.progress, s.stream, t).projection;
    MeaningAt(s, t);
    var outcome: Outcome := if s.stream[t].body.status == Completed then Done
      else if s.stream[t].body.status == Cancelled then RuntimeCancelled else RuntimeFailed;
    SettledEndsIn(d, Extend(point, s.stream[t], p), outcome);
    ReportSays(d, s.stream[t].body, outcome);
  }

  lemma EndDecides(s: Setting, d: Durable)
    requires Conclusive(s.ending) && Arrived(s, d) && RunsOut(s)
    ensures if s.ending.Fails? then Reports(d, s.ending.category) else IsFailed(d)
  {
    var point := PointAt(s, |s.stream|).value;
    MeaningAt(s, |s.stream|);
    SettledEndsIn(d, point, if s.ending.Fails? then s.ending.category else RuntimeFailed);
  }

  /** The first event that is not passed: it brings the terminal or is refused. */
  lemma {:induction false} StopsSomewhere(s: Setting, i: nat) returns (k: nat)
    requires i <= |s.stream| && PointAt(s, i).None?
    ensures k < i && PointAt(s, k).Some?
    ensures StopsAt(s, k) || Judge(s.policy, PointAt(s, k).value.progress, s.stream, k).Reject?
    decreases i
  {
    if PointAt(s, i - 1).None? {
      k := StopsSomewhere(s, i - 1);
    } else {
      k := i - 1;
    }
  }

  lemma RefusalDecides(s: Setting, d: Durable)
    requires Conclusive(s.ending) && Arrived(s, d) && !RunsOut(s)
    requires forall t: nat :: !StopsAt(s, t)
    ensures IsFailed(d)
  {
    var k := StopsSomewhere(s, |s.stream|);
    assert !StopsAt(s, k);
    MeaningAt(s, k);
    SettledEndsIn(d, PointAt(s, k).value, RuntimeFailed);
  }

  /** A turn that has settled tells its client exactly how. */
  lemma SettledTurnsTell(s: Setting, d: Durable)
    requires Conclusive(s.ending) && Arrived(s, d)
    ensures EndsAsTold(s, d)
  {
    forall t: nat | StopsAt(s, t)
      ensures EndsByStatus(d, s.stream[t].body)
    {
      TerminalDecides(s, t, d);
    }
    if RunsOut(s) {
      EndDecides(s, d);
    } else if forall t: nat :: !StopsAt(s, t) {
      RefusalDecides(s, d);
    }
  }

  /** Whatever crashes there are, the turn ends as the runtime's terminal event says, or its stream's end, or
      failed if an event is refused. */
  lemma CrashedTurnsTell(s: Setting, crashes: seq<nat>)
    requires IsFresh(s.log) && Conclusive(s.ending) && Undisturbed(s)
    ensures EndsAsTold(s, CrashRuns(s, Fresh(s), crashes))
  {
    FreshStarts(s);
    CrashesChangeNothing(s, Fresh(s), crashes);
    SettledTurnsTell(s, CrashRuns(s, Fresh(s), crashes));
  }

  /** And so it is of a single run that nothing interrupts. */
  lemma UninterruptedTurnsTell(s: Setting)
    requires IsFresh(s.log) && Conclusive(s.ending) && Undisturbed(s)
    ensures var states := Run(s.policy, Fresh(s), s.stream, s.ending);
      states != [] && EndsAsTold(s, states[|states| - 1])
  {
    FreshStarts(s);
    FineRunCompletes(s, Fresh(s));
    SettledTurnsTell(s, CrashRuns(s, Fresh(s), []));
  }
}
