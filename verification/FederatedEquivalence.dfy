/** When crashes of a federated turn are invisible: exactly when nothing behind the terminal event leads
    to another outcome than the terminal's. */
module FederatedEquivalence {
  import opened Basics
  import opened FederatedTurn
  import opened FederatedMeaning
  import opened FederatedCrash

  /** No list of crashes makes a difference. */
  ghost predicate CrashesAreInvisible(s: Setting) {
    forall crashes: seq<nat> :: Blind(CrashRuns(s, Fresh(s), crashes)) == Blind(CrashRuns(s, Fresh(s), []))
  }

  lemma {:induction false} EarlierPoints(s: Setting, i: nat, t: nat)
    requires i <= t <= |s.stream| && PointAt(s, t).Some?
    ensures PointAt(s, i).Some?
    decreases t - i
  {
    if i < t {
      EarlierPoints(s, i + 1, t);
    }
  }

  function SavedTerminal(s: Setting, t: nat): Durable
    requires ReachesTerminal(s, t)
  {
    var point := PointAt(s, t).value;
    var p := Judge(s.policy, point.progress, s.stream, t).projection;
    SavedAt(Extend(point, s.stream[t], p), p)
  }

  predicate EndsAs(states: seq<Durable>, outcome: Outcome) {
    && states != [] && states[|states| - 1].standing.Ended?
    && states[|states| - 1].turn.outcome == Some(outcome)
  }

  /** The run saves the terminal's outcome on its way and ends with what the loop makes of the rest. */
  ghost predicate PassesTerminal(s: Setting, states: seq<Durable>, t: nat)
    requires Conclusive(s.ending) && ReachesTerminal(s, t)
  {
    && SavedTerminal(s, t) in states
    && EndsAs(states, OutcomeAfter(s.stream, t, s.ending, TerminalAt(s, t)))
  }

  function TerminalProjection(s: Setting, t: nat): (p: Projection)
    requires ReachesTerminal(s, t)
    ensures TerminalOf(p) == Some(TerminalAt(s, t))
  {
    Judge(s.policy, PointAt(s, t).value.progress, s.stream, t).projection
  }

  lemma EndsWith(s: Setting, t: nat, outcome: Outcome)
    requires IsFresh(s.log) && ReachesTerminal(s, t)
    ensures var saved := SavedTerminal(s, t);
      var f := Finish(saved, saved.turn.progress, outcome);
      |f| == 3 && f[2].standing.Ended? && f[2].turn.outcome == Some(outcome)
  {
    var point, p, saved := PointAt(s, t).value, TerminalProjection(s, t), SavedTerminal(s, t);
    var next := Extend(point, s.stream[t], p);
    PointsAreSound(s, t);
    ExtendIsSound(s, t, point, p);
    FinishStates(saved, next.progress, next, outcome);
    var f := Finish(saved, next.progress, outcome);
    assert f[2].turn.outcome == Blind(f[2]).turn.outcome;
  }

  lemma TerminalIsTaken(s: Setting, x: Durable, t: nat)
    requires IsFresh(s.log) && ReachesTerminal(s, t) && Between(s, x, t)
    ensures var taken := Take(x, x.turn.progress, s.stream[t], TerminalProjection(s, t));
      taken.saved == Some(SavedTerminal(s, t)) && SavedTerminal(s, t) in taken.states
  {
    var point, p := PointAt(s, t).value, TerminalProjection(s, t);
    NewKeys(s, t, p);
    assert Grown(point.log, s.stream[t], p.parts, 0) == point.log;
    assert PartWay(x, point, s.stream[t], p, 0);
    EventTaken(x, point, s.stream[t], p, 0);
  }

  lemma TerminalIsPassed(s: Setting, x: Durable, assistant: Option<string>, t: nat)
    requires Conclusive(s.ending) && IsFresh(s.log) && ReachesTerminal(s, t) && Between(s, x, t)
    ensures PassesTerminal(s, LoopFrom(s, x, assistant, t), t)
  {
    var saved, outcome := SavedTerminal(s, t), OutcomeAfter(s.stream, t, s.ending, TerminalAt(s, t));
    TerminalIsTaken(s, x, t);
    LoopAfterTerminal(s.policy, saved, assistant, saved.turn.progress, TerminalAt(s, t), s.stream, t, t + 1, s.ending);
    EndsWith(s, t, outcome);
    PassedLater(Take(x, x.turn.progress, s.stream[t], TerminalProjection(s, t)).states,
                Finish(saved, saved.turn.progress, outcome), saved, outcome);
  }

  lemma PassedLater(a: seq<Durable>, b: seq<Durable>, saved: Durable, outcome: Outcome)
    requires saved in a || saved in b
    requires EndsAs(b, outcome)
    ensures saved in a + b && EndsAs(a + b, outcome)
  {
    assert (a + b)[|a + b| - 1] == b[|b| - 1];
  }

  lemma {:induction false} TerminalIsReached(s: Setting, x: Durable, assistant: Option<string>, i: nat, t: nat)
    requires Conclusive(s.ending) && IsFresh(s.log) && ReachesTerminal(s, t) && i <= t && Between(s, x, i)
    ensures PassesTerminal(s, LoopFrom(s, x, assistant, i), t)
    decreases t - i
  {
    if i == t {
      TerminalIsPassed(s, x, assistant, t);
    } else {
      NextPointIsBetween(s, x, i, t);
      TerminalIsReached(s, AfterEvent(s, x, i), assistant, i + 1, t);
      ReachedEarlier(s, x, assistant, i, t);
    }
  }

  /** The state between the `i`-th event and the next, from the one before it. */
  function AfterEvent(s: Setting, x: Durable, i: nat): Durable
    requires i < |s.stream| && PointAt(s, i).Some?
  {
    match Judge(s.policy, PointAt(s, i).value.progress, s.stream, i)
    case Advance(p) => SavedAt(Extend(PointAt(s, i).value, s.stream[i], p), p)
    case _ => x
  }

  lemma AfterEventIsBetween(s: Setting, x: Durable, i: nat)
    requires i < |s.stream| && Between(s, x, i) && PointAt(s, i + 1).Some?
    ensures Between(s, AfterEvent(s, x, i), i + 1)
  {}

  lemma NextPointIsBetween(s: Setting, x: Durable, i: nat, t: nat)
    requires i < t < |s.stream| && Between(s, x, i) && PointAt(s, t).Some?
    ensures Between(s, AfterEvent(s, x, i), i + 1)
  {
    EarlierPoints(s, i + 1, t);
    AfterEventIsBetween(s, x, i);
  }

  lemma ReachedEarlier(s: Setting, x: Durable, assistant: Option<string>, i: nat, t: nat)
    requires Conclusive(s.ending) && IsFresh(s.log) && ReachesTerminal(s, t) && i < t
    requires Between(s, x, i) && Between(s, AfterEvent(s, x, i), i + 1)
    requires PassesTerminal(s, LoopFrom(s, AfterEvent(s, x, i), assistant, i + 1), t)
    ensures PassesTerminal(s, LoopFrom(s, x, assistant, i), t)
  {
    var point := PointAt(s, i).value;
    match Judge(s.policy, point.progress, s.stream, i)
    case Skip =>
    case Reject =>
    case Advance(p) =>
      LoopAdvances(s, x, assistant, i, p);
      PassedLater(Take(x, point.progress, s.stream[i], p).states, LoopFrom(s, AfterEvent(s, x, i), assistant, i + 1),
                  SavedTerminal(s, t), OutcomeAfter(s.stream, t, s.ending, TerminalAt(s, t)));
  }

  /** One event that is not terminal: its own states, and then the loop from the next event on. */
  lemma LoopAdvances(s: Setting, x: Durable, assistant: Option<string>, i: nat, p: Projection)
    requires IsFresh(s.log) && i < |s.stream| && Between(s, x, i) && PointAt(s, i + 1).Some?
    requires Judge(s.policy, x.turn.progress, s.stream, i) == Advance(p)
    ensures var saved := SavedAt(Extend(PointAt(s, i).value, s.stream[i], p), p);
      && Between(s, saved, i + 1)
      && LoopFrom(s, x, assistant, i)
         == Take(x, x.turn.progress, s.stream[i], p).states + LoopFrom(s, saved, assistant, i + 1)
  {
    var point := PointAt(s, i).value;
    NewKeys(s, i, p);
    NextBetween(s, i, p);
    assert Grown(point.log, s.stream[i], p.parts, 0) == point.log;
    assert PartWay(x, point, s.stream[i], p, 0);
    EventTaken(x, point, s.stream[i], p, 0);
  }

  lemma FreshStarts(s: Setting)
    requires IsFresh(s.log)
    ensures Between(s, Fresh(s), 0) && Run(s.policy, Fresh(s), s.stream, s.ending) == LoopFrom(s, Fresh(s), None, 0)
  {
    NoTerminalEntries(s.log);
  }

  /** A crash right after the terminal's save settles the turn with the terminal's own outcome. */
  lemma SaveSettles(s: Setting, t: nat)
    requires Conclusive(s.ending) && IsFresh(s.log) && ReachesTerminal(s, t)
    ensures var last := CrashRuns(s, SavedTerminal(s, t), []);
      last.standing.Ended? && last.turn.outcome == Some(OutcomeOf(TerminalAt(s, t)))
  {
    EndsWith(s, t, OutcomeOf(TerminalAt(s, t)));
  }

  /** Stopped after the write `m` and run again, the turn ends with another outcome than uninterrupted. */
  predicate EndsOtherwise(s: Setting, m: nat) {
    var states := Run(s.policy, Fresh(s), s.stream, s.ending);
    && m < |states| && states[m].standing.Claimed?
    && var last := CrashRuns(s, states[m], []);
       last.standing.Ended? && last.turn.outcome != CrashRuns(s, Fresh(s), []).turn.outcome
  }

  lemma DisturbanceShows(s: Setting, t: nat)
    requires IsFresh(s.log) && Conclusive(s.ending) && ReachesTerminal(s, t)
    requires OutcomeAfter(s.stream, t, s.ending, TerminalAt(s, t)) != OutcomeOf(TerminalAt(s, t))
    ensures !CrashesAreInvisible(s) && exists m: nat :: EndsOtherwise(s, m)
  {
    FreshStarts(s);
    TerminalIsReached(s, Fresh(s), None, 0, t);
    var states := Run(s.policy, Fresh(s), s.stream, s.ending);
    var m: nat :| m < |states| && states[m] == SavedTerminal(s, t);
    var crashes: seq<nat> := [m + 1];
    SaveSettles(s, t);
    CrashesOnceAndNever(s, m);
    assert EndsOtherwise(s, m);
    var a, b := CrashRuns(s, Fresh(s), crashes), CrashRuns(s, Fresh(s), []);
    assert Blind(a).turn.outcome != Blind(b).turn.outcome;
  }

  lemma CrashesOnceAndNever(s: Setting, m: nat)
    requires m < |Run(s.policy, Fresh(s), s.stream, s.ending)|
    ensures var states := Run(s.policy, Fresh(s), s.stream, s.ending);
      && CrashRuns(s, Fresh(s), [m + 1]) == CrashRuns(s, states[m], [])
      && CrashRuns(s, Fresh(s), []) == states[|states| - 1]
  {
    var crashes: seq<nat> := [m + 1];
    assert crashes[1..] == [];
  }

  /** Crashes are invisible exactly when nothing behind the terminal event leads to another outcome. */
  lemma CrashEquivalence(s: Setting)
    requires IsFresh(s.log) && Conclusive(s.ending)
    ensures CrashesAreInvisible(s) <==> Undisturbed(s)
  {
    FreshStarts(s);
    if Undisturbed(s) {
      forall crashes: seq<nat>
        ensures Blind(CrashRuns(s, Fresh(s), crashes)) == Blind(CrashRuns(s, Fresh(s), []))
      {
        CrashesChangeNothing(s, Fresh(s), crashes);
        CrashesChangeNothing(s, Fresh(s), []);
      }
    } else {
      var t: nat :| ReachesTerminal(s, t)
        && OutcomeAfter(s.stream, t, s.ending, TerminalAt(s, t)) != OutcomeOf(TerminalAt(s, t));
      DisturbanceShows(s, t);
    }
  }

  /** The disturbance that the worker guards against: any other event behind a `completed` status.
      Uninterrupted, the turn fails; stopped after the terminal's save and run again, it completes. */
  lemma LateEventShows(policy: Policy, log: seq<Entry>, late: Event)
    requires IsFresh(log) && late != Event(1, Change(Completed, true))
    ensures !CrashesAreInvisible(Setting(policy, log, [Event(1, Change(Completed, true)), late], Ends))
  {
    var s := Setting(policy, log, [Event(1, Change(Completed, true)), late], Ends);
    CompletedIsReached(policy, log, [late], Ends);
    assert [Event(1, Change(Completed, true))] + [late] == s.stream;
    assert s.stream[1] != s.stream[0];
    DisturbanceShows(s, 0);
  }

  lemma CompletedIsReached(policy: Policy, log: seq<Entry>, more: seq<Event>, ending: Ending)
    ensures ReachesTerminal(Setting(policy, log, [Event(1, Change(Completed, true))] + more, ending), 0)
    ensures TerminalAt(Setting(policy, log, [Event(1, Change(Completed, true))] + more, ending), 0) == Completed
  {
    var s := Setting(policy, log, [Event(1, Change(Completed, true))] + more, ending);
    assert PointAt(s, 0) == Some(Point(log, START));
    var done := Projection([StatusPart(Completed)], None, Some(Completed), Some(SILENCE));
    assert Judge(policy, START, s.stream, 0) == Advance(done);
  }

  /** The disturbance that occurs: behind a `completed` status, which the executor delivers last, its own
      cleanup fails. Uninterrupted, the turn ends with that failure; stopped after the terminal's save and run
      again, it completes. */
  lemma LateFailureShows(policy: Policy, log: seq<Entry>, category: Outcome)
    requires IsFresh(log) && category != Done
    ensures !CrashesAreInvisible(Setting(policy, log, [Event(1, Change(Completed, true))], Fails(category)))
  {
    CompletedIsReached(policy, log, [], Fails(category));
    assert [Event(1, Change(Completed, true))] + [] == [Event(1, Change(Completed, true))];
    DisturbanceShows(Setting(policy, log, [Event(1, Change(Completed, true))], Fails(category)), 0);
  }

  /** The stream's terminal event, if it has one, is its last, and the stream then just ends. */
  predicate EndsInTerminal(stream: seq<Event>, ending: Ending) {
    && ending.Ends?
    && forall k | 0 <= k < |stream| - 1 :: !(stream[k].body.Change? && stream[k].body.status.IsTerminal())
  }

  lemma EndingInTerminalIsUndisturbed(s: Setting)
    requires EndsInTerminal(s.stream, s.ending)
    ensures Undisturbed(s)
  {
    forall t: nat | ReachesTerminal(s, t)
      ensures OutcomeAfter(s.stream, t, s.ending, TerminalAt(s, t)) == OutcomeOf(TerminalAt(s, t))
    {
      assert s.stream[t].body.Change? && s.stream[t].body.status.IsTerminal();
      assert t == |s.stream| - 1;
    }
  }

  /** The promise as it is meant: with the terminal last, any number of crashes, wherever they fall, and
      none at all, settle the turn as the fold of its events says. */
  lemma CrashAnywhere(s: Setting, crashes: seq<nat>)
    requires IsFresh(s.log) && EndsInTerminal(s.stream, s.ending)
    ensures var settled := CrashRuns(s, Fresh(s), crashes);
      settled.standing.Ended? && Blind(settled) == Blind(Meaning(s, Point(s.log, START), 0))
  {
    FreshStarts(s);
    EndingInTerminalIsUndisturbed(s);
    CrashesChangeNothing(s, Fresh(s), crashes);
  }
}
