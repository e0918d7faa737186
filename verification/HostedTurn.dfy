/** A federated turn on top of a runtime host: what the hosts keep on the wire is what the projection of a
    turn needs. */
module HostedTurn {
  import opened Basics
  import HostWire
  import QueryMachine
  import GooseHost
  import DshSidecar
  import opened FederatedTurn
  import opened FederatedMeaning
  import opened FederatedCrash
  import opened FederatedEquivalence
  import opened FederatedOutcomes

  predicate IsStop(body: Body) {
    body.Change? && body.status.IsTerminal()
  }

  /** The turn's runtime stream carries a host's events, with their cursors and terminals. */
  predicate Carries(stream: seq<Event>, events: seq<HostWire.Event>) {
    && |stream| == |events|
    && forall k | 0 <= k < |stream| ::
         stream[k].cursor == events[k].cursor && (IsStop(stream[k].body) <==> events[k].terminal)
  }

  /** A query of a host that keeps the rules gives the turn a stream with the cursors 1, 2, 3 and so on,
      in which crashes are invisible. */
  lemma HostedTurnsSurviveCrashes(events: seq<HostWire.Event>, i: nat, s: Setting, crashes: seq<nat>)
    requires HostWire.Lawful(events) && i < |events|
    requires Carries(s.stream, HostWire.QueryUpTo(events, i)) && s.ending.Ends? && IsFresh(s.log)
    ensures forall k | 0 <= k < |s.stream| :: s.stream[k].cursor == k + 1
    ensures var settled := CrashRuns(s, Fresh(s), crashes);
      settled.standing.Ended? && Blind(settled) == Blind(Meaning(s, Point(s.log, START), 0))
  {
    var start, query := HostWire.StartOf(events, i), HostWire.QueryUpTo(events, i);
    HostWire.CursorsRunFromOne(events, i);
    forall k | 0 <= k < |s.stream|
      ensures s.stream[k].cursor == k + 1 && (k < |s.stream| - 1 ==> !IsStop(s.stream[k].body))
    {
      assert query[k] == events[start + k];
      WithinQuery(events, i, start + k);
    }
    CrashAnywhere(s, crashes);
  }

  /** An event of a query has the place of its cursor. */
  lemma {:induction false} WithinQuery(events: seq<HostWire.Event>, i: nat, j: nat)
    requires HostWire.Lawful(events) && i < |events| && HostWire.StartOf(events, i) <= j <= i
    ensures HostWire.StartOf(events, j) == HostWire.StartOf(events, i)
    ensures events[j].cursor == j - HostWire.StartOf(events, i) + 1
    decreases i - j
  {
    HostWire.CursorsRunFromOne(events, j);
    if j < i {
      WithinQuery(events, i, j + 1);
    }
  }

  lemma GooseTurnsSurviveCrashes(wire: seq<GooseHost.Frame>, i: nat, s: Setting, crashes: seq<nat>)
    requires GooseHost.LawfulWire(wire) && i < |GooseHost.EventsOf(wire)|
    requires Carries(s.stream, HostWire.QueryUpTo(QueryMachine.AllOnWire(GooseHost.EventsOf(wire)), i))
    requires s.ending.Ends? && IsFresh(s.log)
    ensures var settled := CrashRuns(s, Fresh(s), crashes);
      settled.standing.Ended? && Blind(settled) == Blind(Meaning(s, Point(s.log, START), 0))
  {
    GooseHost.WireEventsAreLawful(wire);
    QueryMachine.ObeysHostRules(GooseHost.EventsOf(wire));
    HostedTurnsSurviveCrashes(QueryMachine.AllOnWire(GooseHost.EventsOf(wire)), i, s, crashes);
  }

  lemma DshTurnsSurviveCrashes(wire: seq<DshSidecar.Frame>, i: nat, s: Setting, crashes: seq<nat>)
    requires DshSidecar.LawfulWire(wire) && i < |DshSidecar.EventsOf(wire)|
    requires Carries(s.stream, HostWire.QueryUpTo(DshSidecar.EventsOf(wire), i))
    requires s.ending.Ends? && IsFresh(s.log)
    ensures var settled := CrashRuns(s, Fresh(s), crashes);
      settled.standing.Ended? && Blind(settled) == Blind(Meaning(s, Point(s.log, START), 0))
  {
    DshSidecar.WireEventsAreLawful(wire);
    HostedTurnsSurviveCrashes(DshSidecar.EventsOf(wire), i, s, crashes);
  }

  /** The turn's client hears of a Goose query what the host has written: completed, cancelled or failed, if the
      turn could take the query's terminal event. */
  lemma GooseTurnsEndAsWritten(wire: seq<GooseHost.Frame>, i: nat, s: Setting, crashes: seq<nat>)
    requires GooseHost.LawfulWire(wire) && i < |GooseHost.EventsOf(wire)|
    requires Carries(s.stream, HostWire.QueryUpTo(QueryMachine.AllOnWire(GooseHost.EventsOf(wire)), i))
    requires s.ending.Ends? && IsFresh(s.log) && s.stream != [] && StopsAt(s, |s.stream| - 1)
    requires var event, body := GooseHost.EventsOf(wire)[i].event, s.stream[|s.stream| - 1].body;
      && (event.Completed? <==> body.status == Completed) && (event.Failed? <==> body.status == Failed)
      && (event.Cancelled? <==> body.status == Cancelled)
    ensures var event, settled := GooseHost.EventsOf(wire)[i].event, CrashRuns(s, Fresh(s), crashes);
      && (event.Completed? <==> IsCompleted(settled)) && (event.Failed? <==> IsFailed(settled))
      && (event.Cancelled? <==> IsCancelled(settled))
  {
    GooseTurnsSurviveCrashes(wire, i, s, crashes);
    SettledTurnsTell(s, CrashRuns(s, Fresh(s), crashes));
  }

  /** And of a query of the DSH sidecar. */
  lemma DshTurnsEndAsWritten(wire: seq<DshSidecar.Frame>, i: nat, k: nat, s: Setting, crashes: seq<nat>)
    requires DshSidecar.LawfulWire(wire) && i < |DshSidecar.EventsOf(wire)|
    requires Carries(s.stream, HostWire.QueryUpTo(DshSidecar.EventsOf(wire), i))
    requires s.ending.Ends? && IsFresh(s.log) && s.stream != [] && StopsAt(s, |s.stream| - 1)
    requires k < |wire| && wire[k].EventFrame? && DshSidecar.OnWire(wire[k].event) == DshSidecar.EventsOf(wire)[i]
    requires wire[k].event.body.End? && var status, body := wire[k].event.body.status, s.stream[|s.stream| - 1].body;
      && (status.Completed? <==> body.status == Completed) && (status.Failed? <==> body.status == Failed)
      && (status.Cancelled? <==> body.status == Cancelled)
    ensures var status, settled := wire[k].event.body.status, CrashRuns(s, Fresh(s), crashes);
      && (status.Completed? <==> IsCompleted(settled)) && (status.Failed? <==> IsFailed(settled))
      && (status.Cancelled? <==> IsCancelled(settled))
  {
    DshTurnsSurviveCrashes(wire, i, s, crashes);
    SettledTurnsTell(s, CrashRuns(s, Fresh(s), crashes));
  }
}
