/** Crash-anywhere equivalence of a federated turn: stopping between any two durable writes and running
    again, any number of times, ends in the state one uninterrupted run ends in. */
module FederatedCrash {
  import opened Basics
  import opened FederatedTurn
  import opened FederatedMeaning

  // ----- appending again -----

  predicate NoKeys(log: seq<Entry>, cursor: nat) {
    forall i | 0 <= i < |log| :: log[i].key.RuntimeKey? ==> log[i].key.cursor != cursor
  }

  lemma AppendOnce(log: seq<Entry>, e: Event, parts: seq<Part>, n: nat, k: nat)
    requires NoKeys(log, e.cursor) && k <= n <= |parts| && k < |parts|
    ensures Append(Grown(log, e, parts, n), RuntimeKey(e.cursor, k), RuntimeFact(e.cursor, parts[k]), Some(e))
         == Some((Grown(log, e, parts, Max(n, k + 1)), |log| + k))
  {
    var grown, key := Grown(log, e, parts, n), RuntimeKey(e.cursor, k);
    forall i | 0 <= i < |grown|
      ensures grown[i].key == key <==> i == |log| + k
    {
      if |log| <= i {
        assert grown[i] == EntryOf(e, parts[i - |log|], i - |log|);
      } else {
        assert grown[i] == log[i];
      }
    }
    if k < n {
      assert grown[|log| + k] == EntryOf(e, parts[k], k);
    } else {
      GrowsByOne(log, e, parts, k);
    }
  }

  /** The states while the parts from `k` on are appended, `n` of them being in the log already. */
  ghost predicate PartStates(states: seq<Durable>, d: Durable, log: seq<Entry>, e: Event, parts: seq<Part>, n: nat, k: nat)
    requires k <= |parts| && n <= |parts|
  {
    && |states| == |parts| - k
    && forall i | 0 <= i < |states| :: states[i] == d.(log := Grown(log, e, parts, Max(n, k + i + 1)))
  }

  ghost predicate CaughtUp(a: Appending, d: Durable, log: seq<Entry>, e: Event, parts: seq<Part>, n: nat, k: nat,
                           shown: seq<Public>)
    requires k <= |parts| && n <= |parts|
  {
    && !a.clashed && a.log == Grown(log, e, parts, |parts|)
    && a.result == shown + Publics(|log|, e, parts, |parts|)
    && PartStates(a.states, d, log, e, parts, n, k)
  }

  lemma OneMoreState(a: Appending, d: Durable, log: seq<Entry>, e: Event, parts: seq<Part>, n: nat, k: nat, shown: seq<Public>)
    requires k < |parts| && n <= |parts|
    requires CaughtUp(a, d.(log := Grown(log, e, parts, Max(n, k + 1))), log, e, parts, n, k + 1, shown)
    ensures CaughtUp(a.(states := [d.(log := Grown(log, e, parts, Max(n, k + 1)))] + a.states), d, log, e, parts, n, k, shown)
  {}

  function AppendFrom(d: Durable, log: seq<Entry>, e: Event, parts: seq<Part>, k: nat, shown: seq<Public>): Appending
    requires k <= |parts|
  {
    AppendParts(d, e, parts, k, shown + Publics(|log|, e, parts, k))
  }

  lemma CaughtUpAtEnd(d: Durable, log: seq<Entry>, e: Event, parts: seq<Part>, n: nat, k: nat, shown: seq<Public>)
    requires n <= |parts| == k && d.log == Grown(log, e, parts, Max(n, k))
    ensures CaughtUp(AppendFrom(d, log, e, parts, k, shown), d, log, e, parts, n, k, shown)
  {}

  lemma OneAgain(d: Durable, log: seq<Entry>, e: Event, parts: seq<Part>, n: nat, k: nat, shown: seq<Public>)
    requires k < |parts| && n <= |parts| && NoKeys(log, e.cursor)
    requires d.log == Grown(log, e, parts, Max(n, k))
    ensures var next := d.(log := Grown(log, e, parts, Max(n, k + 1)));
      var rest := AppendFrom(next, log, e, parts, k + 1, shown);
      AppendFrom(d, log, e, parts, k, shown) == rest.(states := [next] + rest.states)
  {
    AppendOnce(log, e, parts, Max(n, k), k);
    AppendStep(d, e, parts, k, shown + Publics(|log|, e, parts, k), Grown(log, e, parts, Max(n, k + 1)), |log| + k);
    ShownAssociates(shown, Publics(|log|, e, parts, k), Shows(RuntimeFact(e.cursor, parts[k]), |log| + k));
  }

  lemma StepBack(d: Durable, log: seq<Entry>, e: Event, parts: seq<Part>, n: nat, k: nat, shown: seq<Public>)
    requires k < |parts| && n <= |parts| && NoKeys(log, e.cursor)
    requires d.log == Grown(log, e, parts, Max(n, k))
    requires var next := d.(log := Grown(log, e, parts, Max(n, k + 1)));
      CaughtUp(AppendFrom(next, log, e, parts, k + 1, shown), next, log, e, parts, n, k + 1, shown)
    ensures CaughtUp(AppendFrom(d, log, e, parts, k, shown), d, log, e, parts, n, k, shown)
  {
    OneAgain(d, log, e, parts, n, k, shown);
    var next := d.(log := Grown(log, e, parts, Max(n, k + 1)));
    OneMoreState(AppendFrom(next, log, e, parts, k + 1, shown), d, log, e, parts, n, k, shown);
  }

  /** Appending the parts again, when any number of them are in the log, comes to the same. */
  lemma {:induction false} PartsAgain(d: Durable, log: seq<Entry>, e: Event, parts: seq<Part>, n: nat, k: nat, shown: seq<Public>)
    requires k <= |parts| && n <= |parts| && NoKeys(log, e.cursor)
    requires d.log == Grown(log, e, parts, Max(n, k))
    ensures CaughtUp(AppendFrom(d, log, e, parts, k, shown), d, log, e, parts, n, k, shown)
    decreases |parts| - k
  {
    if k == |parts| {
      CaughtUpAtEnd(d, log, e, parts, n, k, shown);
    } else {
      PartsAgain(d.(log := Grown(log, e, parts, Max(n, k + 1))), log, e, parts, n, k + 1, shown);
      StepBack(d, log, e, parts, n, k, shown);
    }
  }

  // ----- the durable states a turn can be stopped in -----

  function Goal(s: Setting): Durable
    requires Conclusive(s.ending)
  {
    Meaning(s, Point(s.log, START), 0)
  }

  /** Nothing of the `i`-th event is written. */
  ghost predicate Between(s: Setting, x: Durable, i: nat) {
    && i <= |s.stream| && PointAt(s, i).Some?
    && var point := PointAt(s, i).value;
       x == Durable(point.log, point.progress.assistant, TurnState(point.progress, None), Claimed, None)
  }

  /** The first `n` parts of the `i`-th event are in the log, and with all of them perhaps the message. */
  ghost predicate Within(s: Setting, x: Durable, i: nat, n: nat) {
    && i < |s.stream| && PointAt(s, i).Some?
    && var point := PointAt(s, i).value;
       var v := Judge(s.policy, point.progress, s.stream, i);
       v.Advance? && PartWay(x, point, s.stream[i], v.projection, n)
  }

  ghost predicate PartWay(x: Durable, point: Point, e: Event, p: Projection, n: nat) {
    && n <= |p.parts|
    && (x.message == point.progress.assistant || (n == |p.parts| && x.message == SaidAfter(p, point.progress.assistant)))
    && x == Durable(Grown(point.log, e, p.parts, n), x.message, TurnState(point.progress, None), Claimed, None)
  }

  predicate SameProgress(a: Progress, b: Progress) {
    a.(text := None) == b.(text := None)
  }

  predicate NoTerminalKey(log: seq<Entry>) {
    forall i | 0 <= i < |log| :: !log[i].key.TerminalKey?
  }

  /** The outcome is saved and nothing behind it matters any more. */
  ghost predicate Sealed(x: Durable, point: Point, outcome: Outcome) {
    && x.standing.Claimed? && x.result.None? && x.turn.outcome == Some(outcome)
    && SameProgress(x.turn.progress, point.progress) && x.message == point.progress.assistant
    && NoTerminalKey(point.log) && (x.log == point.log || x.log == point.log + [Seal(point, outcome)])
  }

  ghost predicate HeadsFor(s: Setting, x: Durable, point: Point, outcome: Outcome)
    requires Conclusive(s.ending)
  {
    Sealed(x, point, outcome) && Settled(point, outcome) == Goal(s)
  }

  predicate Arrived(s: Setting, x: Durable)
    requires Conclusive(s.ending)
  {
    x.standing.Ended? && Blind(x) == Blind(Goal(s))
  }

  ghost predicate Fine(s: Setting, x: Durable)
    requires Conclusive(s.ending)
  {
    || (exists i: nat :: Between(s, x, i))
    || (exists i: nat, n: nat :: Within(s, x, i, n))
    || (exists point: Point, outcome: Outcome :: HeadsFor(s, x, point, outcome))
    || Arrived(s, x)
  }

  /** A run that only ever writes states that lead to the goal, and reaches it. */
  ghost predicate Completes(s: Setting, states: seq<Durable>)
    requires Conclusive(s.ending)
  {
    && |states| > 0 && Arrived(s, states[|states| - 1])
    && forall i | 0 <= i < |states| :: Fine(s, states[i])
  }

  lemma FinishStates(d: Durable, progress: Progress, point: Point, outcome: Outcome)
    requires d.standing.Claimed? && d.result.None?
    requires SameProgress(progress, point.progress) && d.message == point.progress.assistant
    requires NoTerminalKey(point.log) && (d.log == point.log || d.log == point.log + [Seal(point, outcome)])
    ensures var f := Finish(d, progress, outcome);
      |f| == 3 && Sealed(f[0], point, outcome) && Sealed(f[1], point, outcome)
      && f[2].standing.Ended? && Blind(f[2]) == Blind(Settled(point, outcome))
  {
    var key, fact := TerminalKey(point.progress.cursor + 1), TerminalFact(outcome);
    assert Shown(fact);
    var n := |point.log|;
    if d.log == point.log {
      assert Append(d.log, key, fact, None) == Some((point.log + [Seal(point, outcome)], n));
    } else {
      assert d.log[n] == Seal(point, outcome);
      assert Append(d.log, key, fact, None) == Some((d.log, n));
    }
  }

  lemma FinishCompletes(s: Setting, d: Durable, progress: Progress, point: Point, outcome: Outcome)
    requires Conclusive(s.ending) && Settled(point, outcome) == Goal(s)
    requires d.standing.Claimed? && d.result.None?
    requires SameProgress(progress, point.progress) && d.message == point.progress.assistant
    requires NoTerminalKey(point.log) && (d.log == point.log || d.log == point.log + [Seal(point, outcome)])
    ensures Completes(s, Finish(d, progress, outcome))
  {
    FinishStates(d, progress, point, outcome);
    var f := Finish(d, progress, outcome);
    assert HeadsFor(s, f[0], point, outcome) && HeadsFor(s, f[1], point, outcome);
  }

  lemma SealedCompletes(s: Setting, x: Durable, point: Point, outcome: Outcome)
    requires Conclusive(s.ending) && HeadsFor(s, x, point, outcome)
    ensures Completes(s, Run(s.policy, x, s.stream, s.ending))
  {
    FinishCompletes(s, x, x.turn.progress, point, outcome);
  }

  lemma CompletesAfter(s: Setting, a: seq<Durable>, b: seq<Durable>)
    requires Conclusive(s.ending) && Completes(s, b) && forall i | 0 <= i < |a| :: Fine(s, a[i])
    ensures Completes(s, a + b)
  {}

  // ----- one event, from any part of the way into it -----

  function SavedAt(point: Point, p: Projection): Durable {
    var outcome := if TerminalOf(p).Some? then Some(OutcomeOf(p.terminal.value)) else None;
    Durable(point.log, point.progress.assistant, TurnState(point.progress, outcome), Claimed, None)
  }

  ghost predicate OnTheWay(x: Durable, point: Point, e: Event, p: Projection) {
    exists n: nat :: PartWay(x, point, e, p, n)
  }

  /** All but the last state lie within the event; the last is the save. */
  ghost predicate TakesEvent(t: Taking, x: Durable, point: Point, e: Event, p: Projection) {
    && t.saved == Some(SavedAt(Extend(point, e, p), p))
    && |t.states| > 0 && t.states[|t.states| - 1] == SavedAt(Extend(point, e, p), p)
    && forall k | 0 <= k < |t.states| - 1 :: OnTheWay(t.states[k], point, e, p)
  }

  lemma StatesArePartWay(states: seq<Durable>, x: Durable, point: Point, e: Event, p: Projection, n: nat)
    requires PartWay(x, point, e, p, n) && PartStates(states, x, point.log, e, p.parts, n, 0)
    ensures forall k | 0 <= k < |states| :: OnTheWay(states[k], point, e, p)
  {
    forall k | 0 <= k < |states|
      ensures OnTheWay(states[k], point, e, p)
    {
      assert PartWay(states[k], point, e, p, Max(n, k + 1));
    }
  }

  lemma MessageTaken(d: Durable, point: Point, e: Event, p: Projection, result: seq<Public>)
    requires PartWay(d, point, e, p, |p.parts|)
    requires result == Extend(point, e, p).progress.result
    requires point.progress.assistant.Some? ==> SaidAfter(p, point.progress.assistant) == point.progress.assistant
    ensures TakesEvent(TakeMessage(d, point.progress, e, p, result), d, point, e, p)
  {
    var t := TakeMessage(d, point.progress, e, p, result);
    if p.assistant.Some? {
      assert PartWay(t.states[0], point, e, p, |p.parts|);
    }
  }

  lemma TakenTogether(states: seq<Durable>, t: Taking, x: Durable, d: Durable, point: Point, e: Event, p: Projection)
    requires TakesEvent(t, d, point, e, p)
    requires forall k | 0 <= k < |states| :: OnTheWay(states[k], point, e, p)
    ensures TakesEvent(Taking(states + t.states, t.saved), x, point, e, p)
  {
    var all := states + t.states;
    forall k | 0 <= k < |all| - 1
      ensures OnTheWay(all[k], point, e, p)
    {
      if k < |states| {
        assert all[k] == states[k];
      } else {
        assert all[k] == t.states[k - |states|];
      }
    }
  }

  lemma EventTaken(x: Durable, point: Point, e: Event, p: Projection, n: nat)
    requires PartWay(x, point, e, p, n) && NoKeys(point.log, e.cursor)
    requires point.progress.assistant.Some? ==> SaidAfter(p, point.progress.assistant) == point.progress.assistant
    ensures TakesEvent(Take(x, point.progress, e, p), x, point, e, p)
  {
    var shown := point.progress.result;
    assert shown + Publics(|point.log|, e, p.parts, 0) == shown;
    PartsAgain(x, point.log, e, p.parts, n, 0, shown);
    var a := AppendParts(x, e, p.parts, 0, shown);
    StatesArePartWay(a.states, x, point, e, p, n);
    var d := x.(log := a.log);
    if n < |p.parts| {
      assert x.message == point.progress.assistant;
    }
    assert PartWay(d, point, e, p, |p.parts|);
    MessageTaken(d, point, e, p, a.result);
    TakenTogether(a.states, TakeMessage(d, point.progress, e, p, a.result), x, d, point, e, p);
  }

  // ----- the loop, from any of those states -----

  lemma {:induction false} LoopAfterTerminal(policy: Policy, d: Durable, assistant: Option<string>, progress: Progress,
                                             terminal: Status, stream: seq<Event>, t: nat, i: nat, ending: Ending)
    requires t < i <= |stream| && Conclusive(ending) && terminal.IsTerminal()
    requires Remembers(progress, stream[t]) && progress.cursor == stream[t].cursor
    requires forall k | t < k < i :: stream[k] == stream[t]
    ensures Loop(policy, d, assistant, progress, Some(terminal), stream, i, ending)
         == Finish(d, progress, OutcomeAfter(stream, t, ending, terminal))
    decreases |stream| - i
  {
    if i < |stream| {
      assert stream[i - 1] == stream[t];
      if Judge(policy, progress, stream, i).Skip? {
        assert stream[i] == stream[t];
        LoopAfterTerminal(policy, d, assistant, progress, terminal, stream, t, i + 1, ending);
      } else {
        assert stream[i] != stream[t];
      }
    }
  }

  function LoopFrom(s: Setting, x: Durable, assistant: Option<string>, i: nat): seq<Durable>
    requires i <= |s.stream|
  {
    Loop(s.policy, x, assistant, x.turn.progress, None, s.stream, i, s.ending)
  }

  lemma PointHasNoTerminalKey(s: Setting, i: nat)
    requires i <= |s.stream| && IsFresh(s.log) && PointAt(s, i).Some?
    ensures NoTerminalKey(PointAt(s, i).value.log)
  {
    PointsAreSound(s, i);
  }

  /** The end of the stream, or an event that is refused. */
  lemma SettlesHere(s: Setting, x: Durable, assistant: Option<string>, i: nat)
    requires Between(s, x, i) && IsFresh(s.log) && Conclusive(s.ending)
    requires i == |s.stream| || Judge(s.policy, x.turn.progress, s.stream, i).Reject?
    ensures Completes(s, LoopFrom(s, x, assistant, i))
  {
    var point := PointAt(s, i).value;
    var outcome := if i == |s.stream| then OutcomeAtEnd(s.ending, None) else RuntimeFailed;
    PointHasNoTerminalKey(s, i);
    MeaningAt(s, i);
    FinishCompletes(s, x, point.progress, point, outcome);
  }

  lemma TakenIsFine(s: Setting, t: Taking, x: Durable, i: nat, p: Projection)
    requires Conclusive(s.ending) && i < |s.stream| && PointAt(s, i).Some?
    requires Judge(s.policy, PointAt(s, i).value.progress, s.stream, i) == Advance(p)
    requires TakesEvent(t, x, PointAt(s, i).value, s.stream[i], p)
    ensures forall k | 0 <= k < |t.states| - 1 :: Fine(s, t.states[k])
  {
    var point := PointAt(s, i).value;
    forall k | 0 <= k < |t.states| - 1
      ensures Fine(s, t.states[k])
    {
      assert OnTheWay(t.states[k], point, s.stream[i], p);
      var n: nat :| PartWay(t.states[k], point, s.stream[i], p, n);
      assert Within(s, t.states[k], i, n);
    }
  }

  /** A terminal event: the save seals the outcome, and the loop goes on to the same. */
  lemma TerminalCompletes(s: Setting, assistant: Option<string>, i: nat, p: Projection)
    requires Conclusive(s.ending) && i < |s.stream| && PointAt(s, i).Some? && IsFresh(s.log)
    requires Judge(s.policy, PointAt(s, i).value.progress, s.stream, i) == Advance(p) && TerminalOf(p).Some?
    requires OutcomeAfter(s.stream, i, s.ending, p.terminal.value) == OutcomeOf(p.terminal.value)
    ensures var next := Extend(PointAt(s, i).value, s.stream[i], p);
      var saved := SavedAt(next, p);
      HeadsFor(s, saved, next, OutcomeOf(p.terminal.value))
      && Completes(s, Loop(s.policy, saved, assistant, next.progress, TerminalOf(p), s.stream, i + 1, s.ending))
  {
    var point := PointAt(s, i).value;
    var next := Extend(point, s.stream[i], p);
    var saved, outcome := SavedAt(next, p), OutcomeOf(p.terminal.value);
    PointsAreSound(s, i);
    ExtendIsSound(s, i, point, p);
    MeaningAt(s, i);
    LoopAfterTerminal(s.policy, saved, assistant, next.progress, p.terminal.value, s.stream, i, i + 1, s.ending);
    FinishCompletes(s, saved, next.progress, next, outcome);
  }

  lemma NewKeys(s: Setting, i: nat, p: Projection)
    requires i < |s.stream| && PointAt(s, i).Some? && IsFresh(s.log)
    requires Judge(s.policy, PointAt(s, i).value.progress, s.stream, i) == Advance(p)
    ensures NoKeys(PointAt(s, i).value.log, s.stream[i].cursor)
    ensures var before := PointAt(s, i).value.progress.assistant; before.Some? ==> SaidAfter(p, before) == before
  {
    PointsAreSound(s, i);
    ExtendIsSound(s, i, PointAt(s, i).value, p);
  }

  lemma AdvanceIsTaken(s: Setting, x: Durable, i: nat, n: nat, p: Projection)
    requires i < |s.stream| && IsFresh(s.log) && ((n == 0 && Between(s, x, i)) || Within(s, x, i, n))
    requires Judge(s.policy, PointAt(s, i).value.progress, s.stream, i) == Advance(p)
    ensures x.turn.progress == PointAt(s, i).value.progress
    ensures TakesEvent(Take(x, x.turn.progress, s.stream[i], p), x, PointAt(s, i).value, s.stream[i], p)
  {
    NewKeys(s, i, p);
    assert PartWay(x, PointAt(s, i).value, s.stream[i], p, n);
    EventTaken(x, PointAt(s, i).value, s.stream[i], p, n);
  }

  lemma {:induction false} LoopCompletes(s: Setting, x: Durable, assistant: Option<string>, i: nat, n: nat)
    requires i <= |s.stream| && IsFresh(s.log) && Conclusive(s.ending) && Undisturbed(s)
    requires (n == 0 && Between(s, x, i)) || Within(s, x, i, n)
    ensures Completes(s, LoopFrom(s, x, assistant, i))
    decreases |s.stream| - i
  {
    var point := PointAt(s, i).value;
    if i < |s.stream| {
      match Judge(s.policy, point.progress, s.stream, i)
      case Skip => LoopCompletes(s, x, assistant, i + 1, 0);
      case Reject => SettlesHere(s, x, assistant, i);
      case Advance(p) =>
        AdvanceIsTaken(s, x, i, n, p);
        AdvanceCompletes(s, x, assistant, i, p);
    } else {
      SettlesHere(s, x, assistant, i);
    }
  }

  lemma {:induction false} AdvanceCompletes(s: Setting, x: Durable, assistant: Option<string>, i: nat, p: Projection)
    requires i < |s.stream| && IsFresh(s.log) && Conclusive(s.ending) && Undisturbed(s)
    requires PointAt(s, i).Some? && x.turn.progress == PointAt(s, i).value.progress
    requires Judge(s.policy, x.turn.progress, s.stream, i) == Advance(p)
    requires TakesEvent(Take(x, x.turn.progress, s.stream[i], p), x, PointAt(s, i).value, s.stream[i], p)
    ensures Completes(s, LoopFrom(s, x, assistant, i))
    decreases |s.stream| - i, 0
  {
    var next := Extend(PointAt(s, i).value, s.stream[i], p);
    if TerminalOf(p).Some? {
      assert ReachesTerminal(s, i);
      TerminalCompletes(s, assistant, i, p);
    } else {
      NextBetween(s, i, p);
      LoopCompletes(s, SavedAt(next, p), assistant, i + 1, 0);
    }
    TakenThenCompletes(s, x, assistant, i, p);
  }

  /** The loop behind an event that has been taken. */
  function LoopBehind(s: Setting, saved: Durable, assistant: Option<string>, i: nat, p: Projection): seq<Durable>
    requires i < |s.stream|
  {
    Loop(s.policy, saved, assistant, saved.turn.progress, TerminalOf(p), s.stream, i + 1, s.ending)
  }

  lemma TakenThenCompletes(s: Setting, x: Durable, assistant: Option<string>, i: nat, p: Projection)
    requires i < |s.stream| && Conclusive(s.ending)
    requires PointAt(s, i).Some? && x.turn.progress == PointAt(s, i).value.progress
    requires Judge(s.policy, x.turn.progress, s.stream, i) == Advance(p)
    requires TakesEvent(Take(x, x.turn.progress, s.stream[i], p), x, PointAt(s, i).value, s.stream[i], p)
    requires var saved := SavedAt(Extend(PointAt(s, i).value, s.stream[i], p), p);
      Fine(s, saved) && Completes(s, LoopBehind(s, saved, assistant, i, p))
    ensures Completes(s, LoopFrom(s, x, assistant, i))
  {
    var t := Take(x, x.turn.progress, s.stream[i], p);
    var saved := SavedAt(Extend(PointAt(s, i).value, s.stream[i], p), p);
    TakenIsFine(s, t, x, i, p);
    CompletesAfter(s, t.states, LoopBehind(s, saved, assistant, i, p));
    assert LoopFrom(s, x, assistant, i) == t.states + LoopBehind(s, saved, assistant, i, p);
  }

  lemma NextBetween(s: Setting, i: nat, p: Projection)
    requires i < |s.stream| && PointAt(s, i).Some?
    requires Judge(s.policy, PointAt(s, i).value.progress, s.stream, i) == Advance(p) && TerminalOf(p).None?
    ensures Between(s, SavedAt(Extend(PointAt(s, i).value, s.stream[i], p), p), i + 1)
  {}

  // ----- recovery from a terminal that only the log holds -----

  lemma {:induction false} NoTerminalEntries(log: seq<Entry>)
    requires NoStops(log)
    ensures TerminalEntries(log) == []
  {
    if log != [] {
      NoTerminalEntries(log[..|log| - 1]);
    }
  }

  lemma PartsBeforeStop(log: seq<Entry>, e: Event, parts: seq<Part>, n: nat, terminal: Option<Status>)
    requires NoStops(log) && StopsLast(parts, terminal) && n <= |parts| && (n < |parts| || terminal.None?)
    ensures NoStops(Grown(log, e, parts, n))
  {
    var grown := Grown(log, e, parts, n);
    forall i | 0 <= i < |grown|
      ensures !IsTerminalEntry(grown[i])
    {
      if |log| <= i {
        assert grown[i] == EntryOf(e, parts[i - |log|], i - |log|);
      }
    }
  }

  lemma OneTerminalEntry(log: seq<Entry>, e: Event, parts: seq<Part>, terminal: Option<Status>)
    requires NoStops(log) && StopsLast(parts, terminal) && terminal.Some? && terminal.value.IsTerminal()
    ensures var last := |parts| - 1;
      TerminalEntries(Grown(log, e, parts, |parts|)) == [EntryOf(e, parts[last], last)]
  {
    var last := |parts| - 1;
    PartsBeforeStop(log, e, parts, last, terminal);
    GrowsByOne(log, e, parts, last);
    TerminalBehind(Grown(log, e, parts, last), EntryOf(e, parts[last], last));
  }

  lemma TerminalBehind(log: seq<Entry>, entry: Entry)
    requires NoStops(log) && IsTerminalEntry(entry)
    ensures TerminalEntries(log + [entry]) == [entry]
  {
    NoTerminalEntries(log);
    assert (log + [entry])[..|log|] == log;
  }

  predicate IsSpeech(entry: Entry) {
    Tagged(entry) && entry.fact.RuntimeFact? && entry.fact.part.MessagePart?
  }

  predicate HasSpeech(log: seq<Entry>) {
    exists i :: 0 <= i < |log| && IsSpeech(log[i])
  }

  lemma {:induction false} HearsAll(log: seq<Entry>, before: Option<string>, text: Option<Text>, said: Option<string>)
    requires LogSays(log, said) && (before.None? || before == said)
    ensures var heard := Hear(log, before, text);
      && heard.Heard? && heard.result == Rebuilt(log)
      && heard.assistant == if before.Some? || HasSpeech(log) then said else None
  {
    if log != [] {
      var n := |log| - 1;
      HearsAll(log[..n], before, text, said);
      assert SaysOnly(log[n], said);
      assert HasSpeech(log) <==> HasSpeech(log[..n]) || IsSpeech(log[n]) by {
        if i :| 0 <= i < |log| && IsSpeech(log[i]) && i < n {
          assert IsSpeech(log[..n][i]);
        }
        if i :| 0 <= i < n && IsSpeech(log[..n][i]) {
          assert IsSpeech(log[i]);
        }
      }
    }
  }

  lemma SpeechOfParts(log: seq<Entry>, e: Event, parts: seq<Part>, k: nat)
    requires k < |parts| && parts[k].MessagePart?
    ensures HasSpeech(Grown(log, e, parts, |parts|))
  {
    assert IsSpeech(Grown(log, e, parts, |parts|)[|log| + k]);
  }

  /** What recovery hears in the log is what the event brought. */
  lemma HearsEvent(s: Setting, i: nat, p: Projection)
    requires i < |s.stream| && PointAt(s, i).Some? && IsFresh(s.log)
    requires Judge(s.policy, PointAt(s, i).value.progress, s.stream, i) == Advance(p)
    ensures var point := PointAt(s, i).value;
      var next := Extend(point, s.stream[i], p);
      var heard := Hear(next.log, point.progress.assistant, point.progress.text);
      heard.Heard? && heard.result == next.progress.result && heard.assistant == next.progress.assistant
  {
    var point := PointAt(s, i).value;
    var before, next := point.progress, Extend(point, s.stream[i], p);
    PointsAreSound(s, i);
    ExtendIsSound(s, i, point, p);
    ProjectionFacts(s.policy, s.stream[i].body, before.text.value, before.assistant);
    HearsAll(next.log, before.assistant, before.text, next.progress.assistant);
    if next.progress.assistant != before.assistant {
      var k :| 0 <= k < |p.parts| && p.parts[k].MessagePart?;
      SpeechOfParts(point.log, s.stream[i], p.parts, k);
    }
  }

  lemma RecoveryCompletes(s: Setting, x: Durable, i: nat, p: Projection)
    requires Conclusive(s.ending) && IsFresh(s.log) && Within(s, x, i, |p.parts|)
    requires Judge(s.policy, PointAt(s, i).value.progress, s.stream, i) == Advance(p) && TerminalOf(p).Some?
    ensures TerminalEntries(x.log) != [] && Completes(s, Run(s.policy, x, s.stream, s.ending))
  {
    var point, e := PointAt(s, i).value, s.stream[i];
    var next, outcome := Extend(point, e, p), OutcomeOf(p.terminal.value);
    PointsAreSound(s, i);
    ExtendIsSound(s, i, point, p);
    MeaningAt(s, i);
    OneTerminalEntry(point.log, e, p.parts, TerminalOf(p));
    HearsEvent(s, i, p);
    var last := |p.parts| - 1;
    RecoveredCompletes(s, x, i, p, EntryOf(e, p.parts[last], last));
  }

  lemma RecoveredCompletes(s: Setting, x: Durable, i: nat, p: Projection, terminal: Entry)
    requires Conclusive(s.ending) && Within(s, x, i, |p.parts|) && TerminalOf(p).Some?
    requires Judge(s.policy, PointAt(s, i).value.progress, s.stream, i) == Advance(p)
    requires IsTerminalEntry(terminal) && terminal.fact.part.status == p.terminal.value
    requires terminal.fact.cursor == s.stream[i].cursor && terminal.digest == Some(s.stream[i])
    requires var next := Extend(PointAt(s, i).value, s.stream[i], p);
      && NoTerminalKey(next.log) && Settled(next, OutcomeOf(p.terminal.value)) == Goal(s)
      && var heard := Hear(x.log, x.turn.progress.assistant, x.turn.progress.text);
         heard.Heard? && heard.result == next.progress.result && heard.assistant == next.progress.assistant
    requires var before := PointAt(s, i).value.progress.assistant; before.Some? ==> SaidAfter(p, before) == before
    ensures Completes(s, Recover(x, terminal))
  {
    var point, e := PointAt(s, i).value, s.stream[i];
    var next, outcome := Extend(point, e, p), OutcomeOf(p.terminal.value);
    var heard := Hear(x.log, x.turn.progress.assistant, x.turn.progress.text);
    var progress := Progress(e.cursor, heard.result, point.progress.digests[e.cursor := e], heard.text, heard.assistant);
    assert x.log == next.log;
    if heard.assistant.None? {
      FinishCompletes(s, x, progress, next, outcome);
    } else {
      var told := WriteMessage(x, heard.assistant.value);
      assert told.message == heard.assistant;
      assert Within(s, told, i, |p.parts|);
      FinishCompletes(s, told, progress, next, outcome);
      CompletesAfter(s, [told], Finish(told, progress, outcome));
    }
  }

  // ----- a rerun -----

  lemma {:induction false} LoopSkips(s: Setting, x: Durable, assistant: Option<string>, k: nat, i: nat)
    requires k <= i <= |s.stream| && RemembersAll(x.turn.progress, s.stream, i) && InOrder(s.stream, i)
    ensures LoopFrom(s, x, assistant, k) == LoopFrom(s, x, assistant, i)
    decreases i - k
  {
    if k < i {
      assert Remembers(x.turn.progress, s.stream[k]);
      if k > 0 {
        var j := k - 1;
        assert s.stream[j].cursor <= s.stream[k].cursor <= s.stream[j].cursor + 1;
      }
      LoopSkips(s, x, assistant, k + 1, i);
    }
  }

  lemma WithinRunCompletes(s: Setting, x: Durable, i: nat, n: nat)
    requires IsFresh(s.log) && Conclusive(s.ending) && Undisturbed(s) && Within(s, x, i, n)
    ensures Completes(s, Run(s.policy, x, s.stream, s.ending))
  {
    var point := PointAt(s, i).value;
    var p := Judge(s.policy, point.progress, s.stream, i).projection;
    PointsAreSound(s, i);
    ExtendIsSound(s, i, point, p);
    if n == |p.parts| && TerminalOf(p).Some? {
      RecoveryCompletes(s, x, i, p);
    } else {
      PartsBeforeStop(point.log, s.stream[i], p.parts, n, TerminalOf(p));
      NoTerminalEntries(x.log);
      LoopSkips(s, x, point.progress.assistant, 0, i);
      LoopCompletes(s, x, point.progress.assistant, i, n);
    }
  }

  lemma BetweenRunCompletes(s: Setting, x: Durable, i: nat)
    requires IsFresh(s.log) && Conclusive(s.ending) && Undisturbed(s) && Between(s, x, i)
    ensures Completes(s, Run(s.policy, x, s.stream, s.ending))
  {
    var point := PointAt(s, i).value;
    PointsAreSound(s, i);
    NoTerminalEntries(x.log);
    LoopSkips(s, x, point.progress.assistant, 0, i);
    LoopCompletes(s, x, point.progress.assistant, i, 0);
  }

  lemma FineRunCompletes(s: Setting, x: Durable)
    requires IsFresh(s.log) && Conclusive(s.ending) && Undisturbed(s) && Fine(s, x) && !x.standing.Ended?
    ensures Completes(s, Run(s.policy, x, s.stream, s.ending))
  {
    if i: nat :| Between(s, x, i) {
      BetweenRunCompletes(s, x, i);
    } else if i: nat, n: nat :| Within(s, x, i, n) {
      WithinRunCompletes(s, x, i, n);
    } else if point: Point, outcome: Outcome :| HeadsFor(s, x, point, outcome) {
      SealedCompletes(s, x, point, outcome);
    }
  }

  /** Runs that stop after so many writes each, and then one that does not. */
  function CrashRuns(s: Setting, d: Durable, crashes: seq<nat>): Durable
    decreases |crashes|
  {
    if d.standing.Ended? then d
    else
      var states := Run(s.policy, d, s.stream, s.ending);
      if crashes == [] then AfterWrites(d, states, |states|)
      else CrashRuns(s, AfterWrites(d, states, crashes[0]), crashes[1..])
  }

  /** Crash-anywhere equivalence: wherever the crashes fall, the turn ends as the fold of its events says. */
  lemma {:induction false} CrashesChangeNothing(s: Setting, x: Durable, crashes: seq<nat>)
    requires IsFresh(s.log) && Conclusive(s.ending) && Undisturbed(s) && Fine(s, x)
    ensures Arrived(s, CrashRuns(s, x, crashes))
    decreases |crashes|
  {
    if !x.standing.Ended? {
      FineRunCompletes(s, x);
      if crashes != [] {
        CrashesChangeNothing(s, AfterWrites(x, Run(s.policy, x, s.stream, s.ending), crashes[0]), crashes[1..]);
      }
    }
  }
}
