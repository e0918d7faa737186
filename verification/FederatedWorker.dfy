/** The worker that processes a federated turn, in place: `_process_federated_runtime_turn` with its
    event loop, its appends, its saves and its recovery pass over the log. Every durable write is
    recorded in `history`, and the recorded states are those of `FederatedTurn.Run`. */
module FederatedWorker {
  import opened Basics
  import opened FederatedTurn
  import FederatedMeaning
  import FederatedOutcomes
  import FederatedSafety

  lemma Associates(a: seq<Durable>, b: seq<Durable>, c: seq<Durable>)
    ensures a + (b + c) == a + b + c
  {}

  lemma SettledRun(policy: Policy, d: Durable, stream: seq<Event>, ending: Ending)
    requires d.turn.outcome.Some?
    ensures Run(policy, d, stream, ending) == Finish(d, d.turn.progress, d.turn.outcome.value)
  {}

  lemma UnsettledRun(policy: Policy, d: Durable, stream: seq<Event>, ending: Ending)
    requires d.turn.outcome.None?
    ensures var terminals := TerminalEntries(d.log);
      Run(policy, d, stream, ending) ==
        if |terminals| > 1 then [FailCorrupt(d)]
        else if |terminals| == 1 then Recover(d, terminals[0])
        else Loop(policy, d, d.turn.progress.assistant, d.turn.progress, None, stream, 0, ending)
  {}

  lemma LoopTakes(policy: Policy, d: Durable, assistant: Option<string>, progress: Progress, stream: seq<Event>, i: nat,
                  ending: Ending, p: Projection)
    requires i < |stream| && Judge(policy, progress, stream, i) == Advance(p)
    ensures var t := Take(d, progress, stream[i], p);
      Loop(policy, d, assistant, progress, None, stream, i, ending)
      == if t.saved.None? then t.states
         else t.states
              + Loop(policy, t.saved.value, assistant, t.saved.value.turn.progress, TerminalOf(p), stream, i + 1, ending)
  {}

  /** What was written and what is left to append make up the goal. */
  ghost predicate OnTrack(start: seq<Durable>, goal: Appending, history: seq<Durable>, left: Appending) {
    && history + left.states == start + goal.states
    && left.log == goal.log && left.result == goal.result && left.clashed == goal.clashed
    && (left.states != [] ==> goal.states != [] && left.states[|left.states| - 1] == goal.states[|goal.states| - 1])
  }

  lemma StaysOnTrack(start: seq<Durable>, goal: Appending, history: seq<Durable>, next: Durable, rest: Appending)
    requires OnTrack(start, goal, history, rest.(states := [next] + rest.states))
    ensures OnTrack(start, goal, history + [next], rest)
  {
    Associates(history, [next], rest.states);
  }

  /** A fresh turn whose stream settles it, with nothing behind a terminal event that leads elsewhere. */
  ghost predicate IsUndisturbed(s: FederatedMeaning.Setting) {
    FederatedMeaning.IsFresh(s.log) && FederatedMeaning.Conclusive(s.ending) && FederatedMeaning.Undisturbed(s)
  }

  class TurnStore {
    var log: seq<Entry>
    var message: Option<string>
    var turn: TurnState
    var standing: Standing
    var result: Option<seq<Public>>
    ghost var history: seq<Durable>

    constructor (d: Durable)
      ensures Now() == d && history == []
    {
      log, message, turn, standing, result := d.log, d.message, d.turn, d.standing, d.result;
      history := [];
    }

    function Now(): Durable
      reads this
    {
      Durable(log, message, turn, standing, result)
    }

    /** `_append`: nothing is written if the key holds something else. */
    method AppendEntry(key: Key, fact: Fact, digest: Option<Event>) returns (at: Option<nat>)
      modifies this
      ensures var appended := Append(old(log), key, fact, digest);
        if appended.None? then at.None? && Now() == old(Now()) && history == old(history)
        else at == Some(appended.value.1) && Now() == old(Now()).(log := appended.value.0) && history == old(history) + [Now()]
    {
      var i := 0;
      while i < |log| && log[i].key != key
        invariant i <= |log| && Now() == old(Now()) && history == old(history)
        invariant forall k | 0 <= k < i :: log[k].key != key
      {
        i := i + 1;
      }
      if i < |log| && log[i].fact != fact {
        return None;
      }
      if i == |log| {
        log := log + [Entry(key, fact, true, digest)];
      }
      history := history + [Now()];
      return Some(i);
    }

    /** `append_message`: the stored content wins. */
    method AppendMessage(content: string) returns (persisted: string)
      modifies this
      ensures Now() == WriteMessage(old(Now()), content) && history == old(history) + [Now()]
      ensures message == Some(persisted)
    {
      if message.None? {
        message := Some(content);
      }
      history := history + [Now()];
      return message.value;
    }

    method SaveTurn(state: TurnState)
      modifies this
      ensures Now() == old(Now()).(turn := state) && history == old(history) + [Now()]
    {
      turn := state;
      history := history + [Now()];
    }

    method Release(state: TurnState)
      modifies this
      ensures Now() == old(Now()).(turn := state, standing := Retryable) && history == old(history) + [Now()]
    {
      turn, standing := state, Retryable;
      history := history + [Now()];
    }

    method FailTurn()
      modifies this
      ensures Now() == FailCorrupt(old(Now())) && history == old(history) + [Now()]
    {
      turn, standing, result := TurnState(START, None), Ended(EndFailed, PhaseFailed), Some([]);
      history := history + [Now()];
    }

    /** `_finish_federated_runtime_turn`: save, append the terminal, finish. */
    method FinishTurn(progress: Progress, outcome: Outcome)
      modifies this
      ensures history == old(history) + Finish(old(Now()), progress, outcome)
      ensures history != [] && Now() == history[|history| - 1]
    {
      ghost var d := Now();
      SaveTurn(TurnState(progress, Some(outcome)));
      ghost var first := Now();
      var fact := TerminalFact(outcome);
      var at := AppendEntry(TerminalKey(progress.cursor + 1), fact, None);
      if at.None? {
        standing := Retryable;
        history := history + [Now()];
        assert Finish(d, progress, outcome) == [first, Now()];
      } else {
        ghost var second := Now();
        var shown := progress.result + Shows(fact, at.value);
        turn, standing, result := TurnState(progress.(result := shown), Some(outcome)), EndOf(outcome), Some(shown);
        history := history + [Now()];
        assert Finish(d, progress, outcome) == [first, second, Now()];
      }
    }

    /** Appends an event's parts; a part whose key holds something else raises, and the worker
        gives the turn back. */
    method AppendEvent(e: Event, parts: seq<Part>, before: seq<Public>) returns (shown: seq<Public>, clashed: bool)
      modifies this
      ensures var a := AppendParts(old(Now()), e, parts, 0, before);
        && history == old(history) + a.states && clashed == a.clashed
        && if clashed then |a.states| > 0 && Now() == a.states[|a.states| - 1]
           else shown == a.result && Now() == old(Now()).(log := a.log)
    {
      shown, clashed := before, false;
      ghost var goal := AppendParts(Now(), e, parts, 0, before);
      ghost var d, start := Now(), history;
      var k := 0;
      while k < |parts|
        invariant k <= |parts|
        invariant Now() == d.(log := log)
        invariant OnTrack(start, goal, history, AppendParts(Now(), e, parts, k, shown))
      {
        var fact := RuntimeFact(e.cursor, parts[k]);
        ghost var written, before := history, Now();
        ghost var a := AppendParts(Now(), e, parts, k, shown);
        var at := AppendEntry(RuntimeKey(e.cursor, k), fact, Some(e));
        if at.None? {
          Release(turn);
          return shown, true;
        }
        AppendStep(before, e, parts, k, shown, log, at.value);
        shown := shown + Shows(fact, at.value);
        k := k + 1;
        StaysOnTrack(start, goal, written, Now(), AppendParts(Now(), e, parts, k, shown));
      }
    }

    /** The terminal status entries of this turn in the log. */
    method FindTerminals() returns (terminals: seq<Entry>)
      ensures terminals == TerminalEntries(log)
    {
      terminals := [];
      for i := 0 to |log|
        invariant terminals == TerminalEntries(log[..i])
      {
        assert log[..i + 1][..i] == log[..i];
        if IsTerminalEntry(log[i]) {
          terminals := terminals + [log[i]];
        }
      }
      assert log[..|log|] == log;
    }

    /** Rebuilds what the turn has published from its own entries. */
    method HearLog(assistant: Option<string>, text: Option<Text>) returns (heard: Heard)
      ensures heard == Hear(log, assistant, text)
    {
      heard := Heard([], assistant, text);
      for i := 0 to |log|
        invariant heard == Hear(log[..i], assistant, text)
      {
        assert log[..i + 1][..i] == log[..i];
        var entry := log[i];
        if heard.Heard? && Tagged(entry) {
          var shown := heard.result + Shows(entry.fact, i);
          if entry.fact.RuntimeFact? && entry.fact.part.MessagePart? {
            var content := entry.fact.part.content;
            if content == "" || (heard.assistant.Some? && heard.assistant.value != content) {
              heard := Garbled;
            } else {
              heard := Heard(shown, Some(content), if heard.text.Some? then Some(Text(content, |content|, true)) else None);
            }
          } else {
            heard := heard.(result := shown);
          }
        }
      }
      assert log[..|log|] == log;
    }

    method RecoverTurn(terminal: Entry)
      requires IsTerminalEntry(terminal)
      modifies this
      ensures history == old(history) + Recover(old(Now()), terminal)
      ensures history != [] && Now() == history[|history| - 1]
    {
      var progress, cursor := turn.progress, terminal.fact.cursor;
      if cursor < 1 || terminal.digest.None? || cursor < progress.cursor {
        FailTurn();
        return;
      }
      var digest := terminal.digest.value;
      if cursor == progress.cursor && !(cursor in progress.digests && progress.digests[cursor] == digest) {
        FailTurn();
        return;
      }
      var heard := HearLog(progress.assistant, progress.text);
      if heard.Garbled? {
        FailTurn();
        return;
      }
      ghost var d, start := Now(), history;
      var outcome := OutcomeOf(terminal.fact.part.status);
      progress := Progress(cursor, heard.result, progress.digests[cursor := digest], heard.text, heard.assistant);
      if heard.assistant.Some? {
        var persisted := AppendMessage(heard.assistant.value);
        ghost var told := Now();
        if persisted != heard.assistant.value {
          FailTurn();
          assert Recover(d, terminal) == [told, Now()];
          return;
        }
        FinishTurn(progress, outcome);
        assert Recover(d, terminal) == [told] + Finish(told, progress, outcome);
        Associates(start, [told], Finish(told, progress, outcome));
      } else {
        FinishTurn(progress, outcome);
      }
    }

    /** The message and the save of one event, after its parts. */
    method SaveEvent(e: Event, p: Projection, progress: Progress, shown: seq<Public>) returns (stopped: bool)
      modifies this
      ensures var t := TakeMessage(old(Now()), progress, e, p, shown);
        && history == old(history) + t.states && history != [] && Now() == history[|history| - 1]
        && stopped == t.saved.None? && (t.saved.Some? ==> Now() == t.saved.value)
    {
      ghost var d, start := Now(), history;
      stopped := true;
      if p.assistant.Some? {
        if progress.assistant.Some? && progress.assistant != p.assistant {
          FinishTurn(progress.(result := shown), RuntimeFailed);
          return;
        }
        var persisted := AppendMessage(p.assistant.value);
        ghost var told := Now();
        if persisted != p.assistant.value {
          FailTurn();
          assert TakeMessage(d, progress, e, p, shown).states == [told, Now()];
          return;
        }
      }
      ghost var before := Now();
      var outcome := if TerminalOf(p).Some? then Some(OutcomeOf(p.terminal.value)) else turn.outcome;
      SaveTurn(TurnState(Advanced(progress, e, p, shown), outcome));
      assert TakeMessage(d, progress, e, p, shown).states == if p.assistant.Some? then [before, Now()] else [Now()];
      return false;
    }

    method TakeEvent(e: Event, p: Projection, progress: Progress) returns (stopped: bool)
      modifies this
      ensures var t := Take(old(Now()), progress, e, p);
        && history == old(history) + t.states && history != [] && Now() == history[|history| - 1]
        && stopped == t.saved.None? && (t.saved.Some? ==> Now() == t.saved.value)
    {
      ghost var d, start := Now(), history;
      var shown, clashed := AppendEvent(e, p.parts, progress.result);
      if clashed {
        return true;
      }
      ghost var appended := Now();
      stopped := SaveEvent(e, p, progress, shown);
      Associates(start, AppendParts(d, e, p.parts, 0, progress.result).states,
                 TakeMessage(appended, progress, e, p, shown).states);
    }

    /** What the end of the stream leads to. */
    method EndStream(loaded: Option<string>, progress: Progress, terminal: Option<Status>, ending: Ending)
      requires terminal.Some? ==> terminal.value.IsTerminal()
      modifies this
      ensures history == old(history) + AtEnd(old(Now()), loaded, progress, terminal, ending)
      ensures history != [] && Now() == history[|history| - 1]
    {
      match ending
      case Ends => FinishTurn(progress, if terminal.Some? then OutcomeOf(terminal.value) else RuntimeFailed);
      case Fails(category) => FinishTurn(progress, category);
      case Breaks => FinishTurn(progress, RuntimeFailed);
      case Asks => Release(TurnState(progress.(assistant := loaded), None));
      case Corrupts => FailTurn();
      case Raises => Release(turn);
    }

    /** One claim of the turn. Every state it writes is safe, if the turn was safe when it was claimed; a fresh
        turn ends as its stream tells, if nothing behind the terminal event disturbs it. */
    method ProcessTurn(policy: Policy, stream: seq<Event>, ending: Ending)
      modifies this
      ensures history == old(history) + Run(policy, old(Now()), stream, ending)
      ensures history != [] && Now() == history[|history| - 1]
      ensures FederatedSafety.Safe(old(Now())) && !old(standing).Ended? ==>
        FederatedSafety.AllSafe(history[|old(history)|..])
      ensures var s := FederatedMeaning.Setting(policy, old(log), stream, ending);
        IsUndisturbed(s) && old(Now()) == FederatedMeaning.Fresh(s) ==> FederatedOutcomes.EndsAsTold(s, Now())
    {
      ghost var d, start := Now(), history;
      ghost var s := FederatedMeaning.Setting(policy, log, stream, ending);
      ClaimTurn(policy, stream, ending);
      assert history[|start|..] == Run(policy, d, stream, ending);
      if FederatedSafety.Safe(d) && !d.standing.Ended? {
        FederatedSafety.RunIsSafe(policy, d, stream, ending);
      }
      if IsUndisturbed(s) && d == FederatedMeaning.Fresh(s) {
        FederatedOutcomes.UninterruptedTurnsTell(s);
      }
    }

    method ClaimTurn(policy: Policy, stream: seq<Event>, ending: Ending)
      modifies this
      ensures history == old(history) + Run(policy, old(Now()), stream, ending)
      ensures history != [] && Now() == history[|history| - 1]
    {
      var progress := turn.progress;
      if turn.outcome.Some? {
        SettledRun(policy, Now(), stream, ending);
        FinishTurn(progress, turn.outcome.value);
        return;
      }
      UnsettledRun(policy, Now(), stream, ending);
      var terminals := FindTerminals();
      if |terminals| > 1 {
        FailTurn();
      } else if |terminals| == 1 {
        RecoverTurn(terminals[0]);
      } else {
        RunStream(policy, stream, ending);
      }
    }

    method RunStream(policy: Policy, stream: seq<Event>, ending: Ending)
      modifies this
      ensures history == old(history)
        + Loop(policy, old(Now()), old(turn).progress.assistant, old(turn).progress, None, stream, 0, ending)
      ensures history != [] && Now() == history[|history| - 1]
    {
      var progress := turn.progress;
      var loaded := progress.assistant;
      var terminal: Option<Status> := None;
      ghost var goal := history + Loop(policy, Now(), loaded, progress, None, stream, 0, ending);
      for i := 0 to |stream|
        invariant terminal.Some? ==> terminal.value.IsTerminal()
        invariant history + Loop(policy, Now(), loaded, progress, terminal, stream, i, ending) == goal
      {
        var verdict := Judge(policy, progress, stream, i);
        if verdict.Reject? || (verdict.Advance? && terminal.Some?) {
          FinishTurn(progress, RuntimeFailed);
          return;
        }
        if verdict.Skip? {
          continue;
        }
        ghost var d, start, before := Now(), history, progress;
        LoopTakes(policy, d, loaded, before, stream, i, ending, verdict.projection);
        var stopped := TakeEvent(stream[i], verdict.projection, progress);
        if stopped {
          return;
        }
        progress, terminal := turn.progress, TerminalOf(verdict.projection);
        Associates(start, Take(d, before, stream[i], verdict.projection).states,
                   Loop(policy, Now(), loaded, progress, terminal, stream, i + 1, ending));
      }
      EndStream(loaded, progress, terminal, ending);
    }
  }
}
