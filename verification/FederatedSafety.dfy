/** A federated turn settles once: whatever the runtime emits or raises, whatever policy the mapper
    applies and wherever crashes fall, the log gets at most one terminal event of the turn, and that
    event agrees with the stored outcome and cursor. */
module FederatedSafety {
  import opened Basics
  import opened FederatedTurn

  /** A `conversation.turn.finished` or `conversation.turn.failed` event of this turn. */
  predicate IsSeal(entry: Entry) {
    entry.mine && (entry.fact.TurnFinished? || entry.fact.TurnFailed?)
  }

  predicate Unsealed(log: seq<Entry>) {
    forall i | 0 <= i < |log| :: !IsSeal(log[i]) && !log[i].key.TerminalKey?
  }

  predicate SealAgrees(entry: Entry, turn: TurnState) {
    && turn.outcome.Some?
    && entry.key == TerminalKey(turn.progress.cursor + 1)
    && entry.fact == TerminalFact(turn.outcome.value)
  }

  predicate AtMostOneSeal(log: seq<Entry>) {
    forall i, j | 0 <= i < j < |log| :: !(IsSeal(log[i]) && IsSeal(log[j]))
  }

  predicate SealsAgree(log: seq<Entry>, turn: TurnState) {
    forall i | 0 <= i < |log| :: (IsSeal(log[i]) <==> log[i].key.TerminalKey?) && (IsSeal(log[i]) ==> SealAgrees(log[i], turn))
  }

  predicate Safe(d: Durable) {
    && AtMostOneSeal(d.log)
    && SealsAgree(d.log, d.turn)
    && (d.standing.Ended? ==>
          if d.turn.outcome.Some? then
            d.standing == EndOf(d.turn.outcome.value) && exists i :: 0 <= i < |d.log| && IsSeal(d.log[i])
          else Unsealed(d.log) && d.result == Some([]))
  }

  predicate AllSafe(states: seq<Durable>) {
    forall i | 0 <= i < |states| :: Safe(states[i])
  }

  lemma UnsealedIsSafe(d: Durable)
    requires Unsealed(d.log) && !d.standing.Ended?
    ensures Safe(d)
  {}

  lemma AppendKeepsUnsealed(log: seq<Entry>, key: Key, fact: Fact, digest: Option<Event>)
    requires Unsealed(log) && !key.TerminalKey? && fact.RuntimeFact?
    ensures var r := Append(log, key, fact, digest); r.Some? ==> Unsealed(r.value.0)
  {}

  lemma FinishUnsealed(d: Durable, progress: Progress, outcome: Outcome)
    requires Unsealed(d.log) && !d.standing.Ended?
    ensures AllSafe(Finish(d, progress, outcome))
  {
    var key, n := TerminalKey(progress.cursor + 1), |d.log|;
    var log := d.log + [Entry(key, TerminalFact(outcome), true, None)];
    assert Append(d.log, key, TerminalFact(outcome), None) == Some((log, n));
    assert IsSeal(log[n]);
  }

  lemma FinishSealed(d: Durable, outcome: Outcome)
    requires Safe(d) && !d.standing.Ended? && d.turn.outcome == Some(outcome)
    ensures AllSafe(Finish(d, d.turn.progress, outcome))
  {
    var key := TerminalKey(d.turn.progress.cursor + 1);
    var i := Find(d.log, key);
    if i < |d.log| {
      assert IsSeal(d.log[i]);
    } else {
      forall k | 0 <= k < |d.log|
        ensures !IsSeal(d.log[k]) && !d.log[k].key.TerminalKey?
      {
        assert IsSeal(d.log[k]) ==> SealAgrees(d.log[k], d.turn);
      }
      FinishUnsealed(d, d.turn.progress, outcome);
    }
  }

  lemma {:induction false} PartsStayUnsealed(d: Durable, e: Event, parts: seq<Part>, k: nat, result: seq<Public>)
    requires k <= |parts| && Unsealed(d.log) && !d.standing.Ended?
    ensures var a := AppendParts(d, e, parts, k, result); Unsealed(a.log) && AllSafe(a.states)
    decreases |parts| - k
  {
    if k < |parts| {
      var fact := RuntimeFact(e.cursor, parts[k]);
      AppendKeepsUnsealed(d.log, RuntimeKey(e.cursor, k), fact, Some(e));
      var appended := Append(d.log, RuntimeKey(e.cursor, k), fact, Some(e));
      if appended.Some? {
        var (log, at) := appended.value;
        PartsStayUnsealed(d.(log := log), e, parts, k + 1, result + Shows(fact, at));
        UnsealedIsSafe(d.(log := log));
      } else {
        UnsealedIsSafe(d.(standing := Retryable));
      }
    }
  }

  lemma TakeIsSafe(d: Durable, progress: Progress, e: Event, p: Projection)
    requires Unsealed(d.log) && !d.standing.Ended?
    ensures var t := Take(d, progress, e, p);
      AllSafe(t.states) && (t.saved.Some? ==> Unsealed(t.saved.value.log) && !t.saved.value.standing.Ended?)
  {
    PartsStayUnsealed(d, e, p.parts, 0, progress.result);
    var a := AppendParts(d, e, p.parts, 0, progress.result);
    MessageIsSafe(d.(log := a.log), progress, e, p, a.result);
  }

  lemma MessageIsSafe(d: Durable, progress: Progress, e: Event, p: Projection, result: seq<Public>)
    requires Unsealed(d.log) && !d.standing.Ended?
    ensures var t := TakeMessage(d, progress, e, p, result);
      AllSafe(t.states) && (t.saved.Some? ==> Unsealed(t.saved.value.log) && !t.saved.value.standing.Ended?)
  {
    FinishUnsealed(d, progress.(result := result), RuntimeFailed);
  }

  lemma EndIsSafe(d: Durable, assistant: Option<string>, progress: Progress, terminal: Option<Status>, ending: Ending)
    requires Unsealed(d.log) && !d.standing.Ended?
    requires terminal.Some? ==> terminal.value.IsTerminal()
    ensures AllSafe(AtEnd(d, assistant, progress, terminal, ending))
  {
    match ending
    case Ends => FinishUnsealed(d, progress, if terminal.Some? then OutcomeOf(terminal.value) else RuntimeFailed);
    case Fails(category) => FinishUnsealed(d, progress, category);
    case Breaks => FinishUnsealed(d, progress, RuntimeFailed);
    case _ =>
  }

  lemma {:induction false} LoopIsSafe(policy: Policy, d: Durable, assistant: Option<string>, progress: Progress,
                                      terminal: Option<Status>, stream: seq<Event>, i: nat, ending: Ending)
    requires i <= |stream| && Unsealed(d.log) && !d.standing.Ended?
    requires terminal.Some? ==> terminal.value.IsTerminal()
    ensures AllSafe(Loop(policy, d, assistant, progress, terminal, stream, i, ending))
    decreases |stream| - i
  {
    if i == |stream| {
      EndIsSafe(d, assistant, progress, terminal, ending);
    } else {
      match Judge(policy, progress, stream, i)
      case Skip => LoopIsSafe(policy, d, assistant, progress, terminal, stream, i + 1, ending);
      case Reject => FinishUnsealed(d, progress, RuntimeFailed);
      case Advance(p) =>
        if terminal.Some? {
          FinishUnsealed(d, progress, RuntimeFailed);
        } else {
          var t := Take(d, progress, stream[i], p);
          TakeIsSafe(d, progress, stream[i], p);
          if t.saved.Some? {
            LoopIsSafe(policy, t.saved.value, assistant, t.saved.value.turn.progress, TerminalOf(p), stream, i + 1, ending);
          }
        }
    }
  }

  lemma RecoveryIsSafe(d: Durable, terminal: Entry)
    requires IsTerminalEntry(terminal) && Unsealed(d.log) && !d.standing.Ended?
    ensures AllSafe(Recover(d, terminal))
  {
    var cursor := terminal.fact.cursor;
    var heard := Hear(d.log, d.turn.progress.assistant, d.turn.progress.text);
    if terminal.digest.Some? && heard.Heard? {
      var outcome := OutcomeOf(terminal.fact.part.status);
      var digests := d.turn.progress.digests[cursor := terminal.digest.value];
      var next := Progress(cursor, heard.result, digests, heard.text, heard.assistant);
      FinishUnsealed(d, next, outcome);
      if heard.assistant.Some? {
        FinishUnsealed(WriteMessage(d, heard.assistant.value), next, outcome);
      }
    }
  }

  /** Every durable state of every run keeps the turn safe. */
  lemma RunIsSafe(policy: Policy, d: Durable, stream: seq<Event>, ending: Ending)
    requires Safe(d) && !d.standing.Ended?
    ensures AllSafe(Run(policy, d, stream, ending))
  {
    if d.turn.outcome.Some? {
      FinishSealed(d, d.turn.outcome.value);
    } else {
      assert Unsealed(d.log);
      var terminals := TerminalEntries(d.log);
      if |terminals| == 1 {
        RecoveryIsSafe(d, terminals[0]);
      } else if |terminals| == 0 {
        LoopIsSafe(policy, d, d.turn.progress.assistant, d.turn.progress, None, stream, 0, ending);
      }
    }
  }

  // ----- whole histories of a turn -----

  /** One claim of the turn: what the runtime does this time, how many writes land before the worker
      stops, and what others append to the log afterwards. */
  datatype Attempt = Attempt(stream: seq<Event>, ending: Ending, writes: nat, outside: seq<Entry>)

  predicate IsForeign(entry: Entry) {
    entry.key.OtherKey? && !IsSeal(entry)
  }

  predicate AllForeign(attempts: seq<Attempt>) {
    forall i, k | 0 <= i < |attempts| && 0 <= k < |attempts[i].outside| :: IsForeign(attempts[i].outside[k])
  }

  function History(policy: Policy, d: Durable, attempts: seq<Attempt>): Durable
    decreases |attempts|
  {
    if attempts == [] || d.standing.Ended? then d
    else
      var a := attempts[0];
      var claimed := d.(standing := Claimed);
      var stopped := AfterWrites(claimed, Run(policy, claimed, a.stream, a.ending), a.writes);
      History(policy, stopped.(log := stopped.log + a.outside), attempts[1..])
  }

  lemma OutsideKeepsSafe(d: Durable, outside: seq<Entry>)
    requires Safe(d) && forall k | 0 <= k < |outside| :: IsForeign(outside[k])
    ensures Safe(d.(log := d.log + outside))
  {
    if i :| 0 <= i < |d.log| && IsSeal(d.log[i]) {
      assert IsSeal((d.log + outside)[i]);
    }
  }

  /** Safety over whole histories: any number of attempts, each with its own stream, ending and crash. */
  lemma {:induction false} SingleTerminal(policy: Policy, d: Durable, attempts: seq<Attempt>)
    requires Safe(d) && AllForeign(attempts)
    ensures Safe(History(policy, d, attempts))
    decreases |attempts|
  {
    if attempts != [] && !d.standing.Ended? {
      var a := attempts[0];
      var claimed := d.(standing := Claimed);
      RunIsSafe(policy, claimed, a.stream, a.ending);
      var stopped := AfterWrites(claimed, Run(policy, claimed, a.stream, a.ending), a.writes);
      OutsideKeepsSafe(stopped, a.outside);
      var rest := attempts[1..];
      assert forall i | 0 <= i < |rest| :: rest[i] == attempts[i + 1];
      SingleTerminal(policy, stopped.(log := stopped.log + a.outside), rest);
    }
  }

  /** The writes of a run that land, and behind them what others append. */
  predicate Lands(claimed: Durable, states: seq<Durable>, a: Attempt, after: Durable) {
    && (a.writes == 0 || states == [] ==> after == claimed.(log := claimed.log + a.outside))
    && (0 < a.writes < |states| ==> after == states[a.writes - 1].(log := states[a.writes - 1].log + a.outside))
    && (a.writes >= |states| > 0 ==> after == states[|states| - 1].(log := states[|states| - 1].log + a.outside))
  }

  lemma WritesLand(claimed: Durable, states: seq<Durable>, a: Attempt)
    ensures var stopped := AfterWrites(claimed, states, a.writes);
      Lands(claimed, states, a, stopped.(log := stopped.log + a.outside))
  {}

  /** What an attempt more comes to: a turn that has not ended is taken up where it was left, and one that has is
      left alone. */
  predicate GoesOn(policy: Policy, before: Durable, a: Attempt, after: Durable) {
    if before.standing.Ended? then after == before
    else
      var claimed := before.(standing := Claimed);
      Lands(claimed, Run(policy, claimed, a.stream, a.ending), a, after)
  }

  lemma OneAttempt(policy: Policy, d: Durable, a: Attempt)
    ensures GoesOn(policy, d, a, History(policy, d, [a]))
  {
    if !d.standing.Ended? {
      var claimed := d.(standing := Claimed);
      WritesLand(claimed, Run(policy, claimed, a.stream, a.ending), a);
      assert [a][1..] == [];
    }
  }

  lemma HistoryFrom(policy: Policy, d: Durable, attempts: seq<Attempt>) returns (next: Durable)
    requires attempts != [] && !d.standing.Ended?
    ensures forall more :: History(policy, d, attempts + more) == History(policy, next, attempts[1..] + more)
  {
    var a, claimed := attempts[0], d.(standing := Claimed);
    var stopped := AfterWrites(claimed, Run(policy, claimed, a.stream, a.ending), a.writes);
    next := stopped.(log := stopped.log + a.outside);
    forall more ensures History(policy, d, attempts + more) == History(policy, next, attempts[1..] + more) {
      assert (attempts + more)[1..] == attempts[1..] + more;
    }
  }

  /** Every attempt of a history goes on from where the attempts before it have left the turn. */
  lemma {:induction false} OneAttemptMore(policy: Policy, d: Durable, attempts: seq<Attempt>, a: Attempt)
    ensures GoesOn(policy, History(policy, d, attempts), a, History(policy, d, attempts + [a]))
    decreases |attempts|
  {
    if attempts == [] {
      assert [] + [a] == [a];
      OneAttempt(policy, d, a);
    } else if !d.standing.Ended? {
      var next := HistoryFrom(policy, d, attempts);
      assert attempts + [] == attempts && attempts[1..] + [] == attempts[1..];
      OneAttemptMore(policy, next, attempts[1..], a);
    }
  }
}
