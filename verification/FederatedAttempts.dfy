/** Attempts at a federated turn that the other results leave out: a turn whose log or saved state is corrupt, one
    that recovers from its log, and one that is given back for another attempt. */
module FederatedAttempts {
  import opened Basics
  import opened FederatedTurn
  import opened FederatedMeaning
  import opened FederatedCrash
  import opened FederatedEquivalence
  import opened FederatedOutcomes

  // ----- what the log says about the end of the run -----

  /** The entry publishes a terminal status of this turn's run. */
  predicate IsStopEntry(entry: Entry) {
    && entry.mine && entry.fact.RuntimeFact? && entry.fact.part.StatusPart?
    && entry.fact.part.status in [Completed, Failed, Cancelled]
  }

  predicate HasTwoStops(log: seq<Entry>) {
    exists i, j :: 0 <= i < j < |log| && IsStopEntry(log[i]) && IsStopEntry(log[j])
  }

  /** The `i`-th entry and no other publishes a terminal status. */
  predicate IsOnlyStop(log: seq<Entry>, i: nat) {
    i < |log| && IsStopEntry(log[i]) && forall j | 0 <= j < |log| && IsStopEntry(log[j]) :: j == i
  }

  lemma {:induction false} StopsAreCounted(log: seq<Entry>)
    ensures |TerminalEntries(log)| == 0 <==> forall i | 0 <= i < |log| :: !IsStopEntry(log[i])
    ensures |TerminalEntries(log)| > 1 <==> HasTwoStops(log)
    ensures forall i: nat | IsOnlyStop(log, i) :: TerminalEntries(log) == [log[i]]
  {
    if log != [] {
      var n := |log| - 1;
      StopsAreCounted(log[..n]);
      OneStopMore(log[..n], log[n]);
      assert log == log[..n] + [log[n]];
      forall i: nat | IsOnlyStop(log, i)
        ensures TerminalEntries(log) == [log[i]]
      {
        if i < n {
          assert IsOnlyStop(log[..n], i);
        } else {
          assert forall j | 0 <= j < n :: log[..n][j] == log[j] && !IsStopEntry(log[j]);
        }
      }
    }
  }

  lemma OneStopMore(log: seq<Entry>, next: Entry)
    ensures HasTwoStops(log + [next]) <==>
      HasTwoStops(log) || (IsStopEntry(next) && exists i :: 0 <= i < |log| && IsStopEntry(log[i]))
  {
    var all := log + [next];
    if HasTwoStops(log) {
      var i, j :| 0 <= i < j < |log| && IsStopEntry(log[i]) && IsStopEntry(log[j]);
      assert IsStopEntry(all[i]) && IsStopEntry(all[j]);
    }
    if i :| 0 <= i < |log| && IsStopEntry(log[i]) {
      assert IsStopEntry(next) ==> IsStopEntry(all[i]) && IsStopEntry(all[|log|]);
    }
  }

  // ----- what the log says the assistant said -----

  predicate IsSaid(entry: Entry) {
    entry.mine && entry.digest.Some? && entry.fact.RuntimeFact? && entry.fact.part.MessagePart?
  }

  /** The turn's own messages in the log are not empty, and one with each other and with what the turn holds. */
  predicate SpeaksAsOne(log: seq<Entry>, before: Option<string>) {
    && (forall i | 0 <= i < |log| && IsSaid(log[i]) ::
          log[i].fact.part.content != "" && (before.Some? ==> before.value == log[i].fact.part.content))
    && (forall i, j | 0 <= i < j < |log| && IsSaid(log[i]) && IsSaid(log[j]) ::
          log[i].fact.part.content == log[j].fact.part.content)
  }

  predicate IsVoice(log: seq<Entry>, before: Option<string>, said: Option<string>) {
    && (said.None? ==> before.None? && forall i | 0 <= i < |log| :: !IsSaid(log[i]))
    && (said.Some? ==> forall i | 0 <= i < |log| && IsSaid(log[i]) :: log[i].fact.part.content == said.value)
    && (said.Some? ==> before == said || exists i :: 0 <= i < |log| && IsSaid(log[i]))
  }

  lemma SpeaksOneMore(log: seq<Entry>, next: Entry, before: Option<string>, said: Option<string>)
    requires SpeaksAsOne(log, before) && IsVoice(log, before, said) && (before.Some? ==> said == before)
    ensures SpeaksAsOne(log + [next], before) <==>
      (IsSaid(next) ==> next.fact.part.content != "" && (said.Some? ==> said.value == next.fact.part.content))
    ensures SpeaksAsOne(log + [next], before) ==>
      IsVoice(log + [next], before, if IsSaid(next) then Some(next.fact.part.content) else said)
  {
    var all := log + [next];
    assert all[|log|] == next;
    assert forall i | 0 <= i < |log| :: all[i] == log[i];
    if i :| 0 <= i < |log| && IsSaid(log[i]) {
      assert IsSaid(all[i]);
    }
  }

  lemma SpeaksOneFewer(log: seq<Entry>, next: Entry, before: Option<string>)
    requires SpeaksAsOne(log + [next], before)
    ensures SpeaksAsOne(log, before)
  {
    assert forall i | 0 <= i < |log| :: (log + [next])[i] == log[i];
  }

  /** The pass over the log fails exactly if the turn's messages do not agree; otherwise it hears what they say. */
  lemma {:induction false} HearingIs(log: seq<Entry>, before: Option<string>, text: Option<Text>)
    ensures var heard := Hear(log, before, text);
      && (heard.Heard? <==> SpeaksAsOne(log, before))
      && (heard.Heard? ==> IsVoice(log, before, heard.assistant) && (before.Some? ==> heard.assistant == before)
                           && heard.result == Rebuilt(log))
  {
    if log != [] {
      var n := |log| - 1;
      HearingIs(log[..n], before, text);
      assert log == log[..n] + [log[n]];
      var heard := Hear(log[..n], before, text);
      if heard.Heard? {
        SpeaksOneMore(log[..n], log[n], before, heard.assistant);
      } else if SpeaksAsOne(log, before) {
        SpeaksOneFewer(log[..n], log[n], before);
      }
    }
  }

  // ----- corrupt turns -----

  /** The terminal entry can be where the turn goes on: it has a digest, and it is not behind what is saved nor, at
      the same cursor, another event. */
  predicate Continues(progress: Progress, entry: Entry)
    requires IsStopEntry(entry)
  {
    && entry.digest.Some? && entry.fact.cursor >= 1 && entry.fact.cursor >= progress.cursor
    && (entry.fact.cursor == progress.cursor ==>
          progress.cursor in progress.digests && progress.digests[progress.cursor] == entry.digest.value)
  }

  /** The turn failed as corrupt: its saved state is gone, its result is empty, the log and the message stay. */
  predicate FailedAsCorrupt(before: Durable, after: Durable) {
    && after.log == before.log && after.message == before.message
    && after.turn == TurnState(Progress(0, [], map[], Some(Text("", 0, false)), None), None)
    && after.standing == Ended(EndFailed, PhaseFailed) && after.result == Some([])
  }

  /** Two terminals in the log, one that cannot be gone on from, or messages that contradict each other: the run
      writes one state, and the turn has failed. */
  lemma CorruptTurnsFail(policy: Policy, d: Durable, stream: seq<Event>, ending: Ending)
    requires d.turn.outcome.None?
    requires HasTwoStops(d.log) || exists i: nat ::
      IsOnlyStop(d.log, i) && (!Continues(d.turn.progress, d.log[i]) || !SpeaksAsOne(d.log, d.turn.progress.assistant))
    ensures var states := Run(policy, d, stream, ending); |states| == 1 && FailedAsCorrupt(d, states[0])
  {
    StopsAreCounted(d.log);
    if !HasTwoStops(d.log) {
      var i: nat :| IsOnlyStop(d.log, i)
        && (!Continues(d.turn.progress, d.log[i]) || !SpeaksAsOne(d.log, d.turn.progress.assistant));
      HearingIs(d.log, d.turn.progress.assistant, d.turn.progress.text);
    }
  }

  /** What the turn's own entries say: the message, if one is held or logged. */
  predicate IsMessage(d: Durable, said: Option<string>) {
    IsVoice(d.log, d.turn.progress.assistant, said) && (d.turn.progress.assistant.Some? ==> said == d.turn.progress.assistant)
  }

  /** The turn settles by the status in its log, with what its entries show as its result. */
  predicate SettlesByLog(d: Durable, entry: Entry, last: Durable)
    requires IsStopEntry(entry)
  {
    && EndsByStatus(last, Change(entry.fact.part.status, true))
    && last.log[..|last.log| - 1] == d.log && last.result.value[..|last.result.value| - 1] == Rebuilt(d.log)
    && last.turn.progress.cursor == entry.fact.cursor
  }

  function ByTable(status: Status): Outcome {
    if status == Completed then Done else if status == Cancelled then RuntimeCancelled else RuntimeFailed
  }

  lemma FinishesByLog(d: Durable, told: Durable, entry: Entry, progress: Progress)
    requires IsStopEntry(entry) && NoTerminalKey(d.log) && told.log == d.log
    requires progress.result == Rebuilt(d.log) && progress.cursor == entry.fact.cursor
    ensures var f := Finish(told, progress, ByTable(entry.fact.part.status));
      |f| == 3 && f[2].message == told.message && SettlesByLog(d, entry, f[2])
  {
    FinishIs(told, progress, ByTable(entry.fact.part.status));
  }

  lemma RunRecovers(policy: Policy, d: Durable, stream: seq<Event>, ending: Ending, i: nat)
    requires d.turn.outcome.None? && IsOnlyStop(d.log, i)
    ensures Run(policy, d, stream, ending) == Recover(d, d.log[i])
  {
    StopsAreCounted(d.log);
  }

  /** The progress with which recovery settles the turn. */
  function Recovered(progress: Progress, entry: Entry, heard: Heard): Progress
    requires IsStopEntry(entry) && Continues(progress, entry) && heard.Heard?
  {
    Progress(entry.fact.cursor, heard.result, progress.digests[entry.fact.cursor := entry.digest.value], heard.text, heard.assistant)
  }

  lemma RecoveryGoesOn(d: Durable, entry: Entry)
    requires IsStopEntry(entry) && Continues(d.turn.progress, entry)
    requires Hear(d.log, d.turn.progress.assistant, d.turn.progress.text).Heard?
    ensures var heard := Hear(d.log, d.turn.progress.assistant, d.turn.progress.text);
      var next, outcome := Recovered(d.turn.progress, entry, heard), ByTable(entry.fact.part.status);
      Recover(d, entry) ==
        if heard.assistant.None? then Finish(d, next, outcome)
        else
          var told := WriteMessage(d, heard.assistant.value);
          if told.message != heard.assistant then [told, FailCorrupt(told)] else [told] + Finish(told, next, outcome)
  {}

  /** Recovery from the log: the turn settles by the status there, and tells the message its entries say; a
      stored message that says otherwise makes it fail as corrupt. */
  lemma RecoveredTurnsSettle(policy: Policy, d: Durable, stream: seq<Event>, ending: Ending, i: nat) returns (said: Option<string>)
    requires d.turn.outcome.None? && IsOnlyStop(d.log, i) && NoTerminalKey(d.log)
    requires Continues(d.turn.progress, d.log[i]) && SpeaksAsOne(d.log, d.turn.progress.assistant)
    ensures IsMessage(d, said)
    ensures var states := Run(policy, d, stream, ending);
      && states != []
      && var last := states[|states| - 1];
         if said.Some? && d.message.Some? && d.message != said then FailedAsCorrupt(d, last)
         else SettlesByLog(d, d.log[i], last) && last.message == if said.Some? then said else d.message
  {
    HearingIs(d.log, d.turn.progress.assistant, d.turn.progress.text);
    said := Hear(d.log, d.turn.progress.assistant, d.turn.progress.text).assistant;
    RunRecovers(policy, d, stream, ending, i);
    RecoveryEnds(d, d.log[i]);
  }

  lemma RecoveryEnds(d: Durable, entry: Entry)
    requires IsStopEntry(entry) && Continues(d.turn.progress, entry) && NoTerminalKey(d.log)
    requires var heard := Hear(d.log, d.turn.progress.assistant, d.turn.progress.text);
      heard.Heard? && heard.result == Rebuilt(d.log)
    ensures var said, states := Hear(d.log, d.turn.progress.assistant, d.turn.progress.text).assistant, Recover(d, entry);
      && states != []
      && var last := states[|states| - 1];
         if said.Some? && d.message.Some? && d.message != said then FailedAsCorrupt(d, last)
         else SettlesByLog(d, entry, last) && last.message == if said.Some? then said else d.message
  {
    var heard := Hear(d.log, d.turn.progress.assistant, d.turn.progress.text);
    RecoveryGoesOn(d, entry);
    FinishesByLog(d, if heard.assistant.None? then d else WriteMessage(d, heard.assistant.value), entry,
                  Recovered(d.turn.progress, entry, heard));
  }

  lemma FinishIs(d: Durable, progress: Progress, outcome: Outcome)
    requires NoTerminalKey(d.log)
    ensures var f := Finish(d, progress, outcome);
      && |f| == 3 && Reports(f[2], outcome) && f[2].message == d.message
      && f[2].log[..|f[2].log| - 1] == d.log && f[2].result.value[..|f[2].result.value| - 1] == progress.result
      && f[2].turn.progress.cursor == progress.cursor
  {
    var key, fact := TerminalKey(progress.cursor + 1), TerminalFact(outcome);
    assert Append(d.log, key, fact, None) == Some((d.log + [Entry(key, fact, true, None)], |d.log|));
  }

  // ----- attempts that are given back -----

  predicate EndAlike(a: seq<Durable>, b: seq<Durable>) {
    a != [] && b != [] && a[|a| - 1] == b[|b| - 1]
  }

  lemma EndAlikeBehind(before: seq<Durable>, a: seq<Durable>, b: seq<Durable>)
    requires EndAlike(a, b)
    ensures EndAlike(before + a, b)
  {}

  /** What the end of the stream leads to when all its events have been taken. */
  function TheEnd(s: Setting, assistant: Option<string>): seq<Durable>
    requires RunsOut(s)
  {
    var point := PointAt(s, |s.stream|).value;
    var d := Durable(point.log, point.progress.assistant, TurnState(point.progress, None), Claimed, None);
    AtEnd(d, assistant, point.progress, None, s.ending)
  }

  lemma EndIsReached(s: Setting, x: Durable, assistant: Option<string>)
    requires RunsOut(s) && Between(s, x, |s.stream|)
    ensures EndAlike(LoopFrom(s, x, assistant, |s.stream|), TheEnd(s, assistant))
  {}

  lemma {:induction false} RunsToTheEnd(s: Setting, x: Durable, assistant: Option<string>, i: nat)
    requires IsFresh(s.log) && RunsOut(s) && Between(s, x, i)
    ensures EndAlike(LoopFrom(s, x, assistant, i), TheEnd(s, assistant))
    decreases |s.stream| - i
  {
    if i == |s.stream| {
      EndIsReached(s, x, assistant);
    } else {
      EarlierPoints(s, i + 1, |s.stream|);
      AfterEventIsBetween(s, x, i);
      RunsToTheEnd(s, AfterEvent(s, x, i), assistant, i + 1);
      StepToTheEnd(s, x, assistant, i);
    }
  }

  lemma StepToTheEnd(s: Setting, x: Durable, assistant: Option<string>, i: nat)
    requires IsFresh(s.log) && RunsOut(s) && i < |s.stream| && Between(s, x, i) && PointAt(s, i + 1).Some?
    requires EndAlike(LoopFrom(s, AfterEvent(s, x, i), assistant, i + 1), TheEnd(s, assistant))
    ensures EndAlike(LoopFrom(s, x, assistant, i), TheEnd(s, assistant))
  {
    match Judge(s.policy, x.turn.progress, s.stream, i)
    case Skip =>
    case Reject =>
    case Advance(p) =>
      LoopAdvances(s, x, assistant, i, p);
      EndAlikeBehind(Take(x, x.turn.progress, s.stream[i], p).states,
                     LoopFrom(s, AfterEvent(s, x, i), assistant, i + 1), TheEnd(s, assistant));
  }

  /** A fresh attempt whose stream ends without a result keeps what it has published. If another attempt is asked
      for, the turn can be claimed again, with the message it was loaded with; after an exception too, as it was
      saved; a corrupt snapshot fails it. */
  lemma UnsettledAttemptsKeepTheTurn(s: Setting)
    requires IsFresh(s.log) && RunsOut(s) && !Conclusive(s.ending)
    ensures var states, point := Run(s.policy, Fresh(s), s.stream, s.ending), PointAt(s, |s.stream|).value;
      && states != []
      && var last := states[|states| - 1];
         && last.log == point.log && last.message == point.progress.assistant
         && (s.ending.Asks? ==> last.standing == Retryable && last.result.None?
                                && last.turn == TurnState(point.progress.(assistant := None), None))
         && (s.ending.Raises? ==> last.standing == Retryable && last.result.None? && last.turn == TurnState(point.progress, None))
         && (s.ending.Corrupts? ==> FailedAsCorrupt(last, last))
  {
    FreshStarts(s);
    RunsToTheEnd(s, Fresh(s), None, 0);
  }
}
