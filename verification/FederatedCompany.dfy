/** A federated turn in company: between any two moves of its worker others may append to the session's log, a
    pause or an intervention say. The turn then settles as it would have alone, but for its entries' places. */
module FederatedCompany {
  import opened Basics
  import opened FederatedTurn
  import opened FederatedMeaning
  import opened FederatedCrash
  import opened FederatedEquivalence
  import opened FederatedSteps

  // ----- what is alike -----

  /** An entry of others: neither tagged with an event of the turn nor one of its terminal statuses. */
  predicate IsOthers(entry: Entry) {
    entry.key.OtherKey? && !Tagged(entry) && !IsTerminalEntry(entry)
  }

  /** The turn's own entries among the first `n`. */
  function OwnTo(log: seq<Entry>, n: nat): seq<Entry>
    requires n <= |log|
  {
    if n == 0 then [] else OwnTo(log, n - 1) + if IsOthers(log[n - 1]) then [] else [log[n - 1]]
  }

  function Own(log: seq<Entry>): seq<Entry> {
    OwnTo(log, |log|)
  }

  /** The results say the same, but for the places. */
  predicate SameFacts(a: seq<Public>, b: seq<Public>) {
    |a| == |b| && forall i | 0 <= i < |a| :: a[i].fact == b[i].fact
  }

  predicate AlikeProgress(p: Progress, q: Progress) {
    && SameFacts(p.result, q.result)
    && p.cursor == q.cursor && p.digests == q.digests && p.text == q.text && p.assistant == q.assistant
  }

  predicate AlikeResult(a: Option<seq<Public>>, b: Option<seq<Public>>) {
    if a.Some? && b.Some? then SameFacts(a.value, b.value) else a == b
  }

  predicate Alike(x: Durable, y: Durable) {
    && Own(x.log) == Own(y.log) && x.message == y.message && x.standing == y.standing
    && AlikeProgress(x.turn.progress, y.turn.progress) && x.turn.outcome == y.turn.outcome
    && AlikeResult(x.result, y.result)
  }

  lemma {:induction false} OwnToInside(log: seq<Entry>, more: seq<Entry>, n: nat)
    requires n <= |log|
    ensures OwnTo(log + more, n) == OwnTo(log, n)
  {
    if n > 0 {
      OwnToInside(log, more, n - 1);
      assert (log + more)[n - 1] == log[n - 1];
    }
  }

  lemma OwnNext(log: seq<Entry>, entry: Entry)
    ensures Own(log + [entry]) == Own(log) + if IsOthers(entry) then [] else [entry]
  {
    OwnToInside(log, [entry], |log|);
  }

  lemma {:induction false} OthersAreNotOwn(log: seq<Entry>, others: seq<Entry>)
    requires forall k | 0 <= k < |others| :: IsOthers(others[k])
    ensures Own(log + others) == Own(log)
  {
    if others == [] {
      assert log + others == log;
    } else {
      var n := |others| - 1;
      OthersAreNotOwn(log, others[..n]);
      OwnNext(log + others[..n], others[n]);
      assert log + others == log + others[..n] + [others[n]];
    }
  }

  lemma ShowsAlike(a: seq<Public>, b: seq<Public>, fact: Fact, m: nat, n: nat)
    requires SameFacts(a, b)
    ensures SameFacts(a + Shows(fact, m), b + Shows(fact, n))
  {}

  // ----- the log's readers -----

  lemma FindsNext(log: seq<Entry>, entry: Entry, key: Key)
    ensures Find(log + [entry], key) == if Find(log, key) == |log| && entry.key != key then |log| + 1 else Find(log, key)
  {
    assert (log + [entry])[..|log|] == log;
  }

  lemma {:induction false} FindOwn(log: seq<Entry>, key: Key)
    requires !key.OtherKey?
    ensures var i, j := Find(log, key), Find(Own(log), key);
      && (i == |log| <==> j == |Own(log)|)
      && (i < |log| ==> log[i] == Own(log)[j])
  {
    if log != [] {
      var before, entry := log[..|log| - 1], log[|log| - 1];
      FindOwn(before, key);
      assert log == before + [entry];
      OwnNext(before, entry);
      FindsNext(before, entry, key);
      FindsNext(Own(before), entry, key);
      assert IsOthers(entry) ==> Own(log) == Own(before);
    }
  }

  lemma TerminalsNext(log: seq<Entry>, entry: Entry)
    ensures TerminalEntries(log + [entry]) == TerminalEntries(log) + if IsTerminalEntry(entry) then [entry] else []
  {
    assert (log + [entry])[..|log|] == log;
  }

  lemma {:induction false} TerminalsAreOwn(log: seq<Entry>)
    ensures TerminalEntries(log) == TerminalEntries(Own(log))
  {
    if log != [] {
      var before, entry := log[..|log| - 1], log[|log| - 1];
      TerminalsAreOwn(before);
      assert log == before + [entry];
      OwnNext(before, entry);
      TerminalsNext(before, entry);
      TerminalsNext(Own(before), entry);
      assert IsOthers(entry) ==> Own(log) == Own(before);
    }
  }

  predicate AlikeHeard(a: Heard, b: Heard) {
    if a.Heard? && b.Heard? then SameFacts(a.result, b.result) && a.assistant == b.assistant && a.text == b.text
    else a == b
  }

  function HearNext(heard: Heard, entry: Entry, n: nat): Heard {
    if heard.Garbled? || !Tagged(entry) then heard
    else
      var result := heard.result + Shows(entry.fact, n);
      if entry.fact.RuntimeFact? && entry.fact.part.MessagePart? then
        var content := entry.fact.part.content;
        if content == "" || (heard.assistant.Some? && heard.assistant.value != content) then Garbled
        else Heard(result, Some(content), if heard.text.Some? then Some(Text(content, |content|, true)) else None)
      else heard.(result := result)
  }

  lemma HearNextAlike(a: Heard, b: Heard, entry: Entry, m: nat, n: nat)
    requires AlikeHeard(a, b)
    ensures AlikeHeard(HearNext(a, entry, m), HearNext(b, entry, n))
  {
    if a.Heard? && Tagged(entry) {
      ShowsAlike(a.result, b.result, entry.fact, m, n);
    }
  }

  lemma HearsNext(log: seq<Entry>, entry: Entry, assistant: Option<string>, text: Option<Text>)
    ensures Hear(log + [entry], assistant, text) == HearNext(Hear(log, assistant, text), entry, |log|)
  {
    assert (log + [entry])[..|log|] == log;
  }

  lemma {:induction false} HearOwn(log: seq<Entry>, assistant: Option<string>, text: Option<Text>)
    ensures AlikeHeard(Hear(log, assistant, text), Hear(Own(log), assistant, text))
  {
    if log != [] {
      var before, entry := log[..|log| - 1], log[|log| - 1];
      HearOwn(before, assistant, text);
      assert log == before + [entry];
      OwnNext(before, entry);
      HearsNext(before, entry, assistant, text);
      if IsOthers(entry) {
        assert Own(log) == Own(before);
      } else {
        HearsNext(Own(before), entry, assistant, text);
        HearNextAlike(Hear(before, assistant, text), Hear(Own(before), assistant, text), entry, |before|, |Own(before)|);
      }
    }
  }

  lemma HearAlike(a: seq<Entry>, b: seq<Entry>, assistant: Option<string>, text: Option<Text>)
    requires Own(a) == Own(b)
    ensures AlikeHeard(Hear(a, assistant, text), Hear(b, assistant, text))
  {
    HearOwn(a, assistant, text);
    HearOwn(b, assistant, text);
  }

  // ----- one move -----

  predicate AlikeTurn(t: TurnState, u: TurnState) {
    AlikeProgress(t.progress, u.progress) && t.outcome == u.outcome
  }

  predicate AlikeWork(a: Work, b: Work) {
    AlikeProgress(a.progress, b.progress) && a.i == b.i && a.p == b.p
  }

  predicate AlikeLocal(l: Local, m: Local) {
    match l
    case Loaded(turn) => m.Loaded? && AlikeTurn(turn, m.turn)
    case Looping(progress, terminal, i) =>
      m.Looping? && AlikeProgress(progress, m.progress) && terminal == m.terminal && i == m.i
    case Looking(work, k, shown) => m.Looking? && AlikeWork(work, m.work) && k == m.k && SameFacts(shown, m.shown)
    case Inserting(work, k, shown) => m.Inserting? && AlikeWork(work, m.work) && k == m.k && SameFacts(shown, m.shown)
    case Saying(work, shown) => m.Saying? && AlikeWork(work, m.work) && SameFacts(shown, m.shown)
    case Saving(work, shown) => m.Saving? && AlikeWork(work, m.work) && SameFacts(shown, m.shown)
    case Retelling(progress, outcome) => m.Retelling? && AlikeProgress(progress, m.progress) && outcome == m.outcome
    case Finishing(progress, outcome) => m.Finishing? && AlikeProgress(progress, m.progress) && outcome == m.outcome
    case SealLooking(progress, outcome) => m.SealLooking? && AlikeProgress(progress, m.progress) && outcome == m.outcome
    case SealInserting(progress, outcome) =>
      m.SealInserting? && AlikeProgress(progress, m.progress) && outcome == m.outcome
    case Closing(progress, outcome) => m.Closing? && AlikeProgress(progress, m.progress) && outcome == m.outcome
    case Corrupting => m.Corrupting?
    case Releasing(release) =>
      m.Releasing? && (release.Some? <==> m.release.Some?) && (release.Some? ==> AlikeTurn(release.value, m.release.value))
    case Stopped => m.Stopped?
  }

  ghost predicate AlikeWorker(w: Worker, v: Worker) {
    w.script == v.script && w.said == v.said && AlikeLocal(w.local, v.local)
  }

  predicate AlikeMoved(m: Moved, n: Moved) {
    AlikeLocal(m.local, n.local) && Alike(m.d, n.d)
  }

  lemma RecoveringAlike(x: Durable, y: Durable, t: TurnState, u: TurnState, terminal: Entry)
    requires Alike(x, y) && AlikeTurn(t, u) && IsTerminalEntry(terminal)
    ensures AlikeLocal(Recovering(x, t, terminal), Recovering(y, u, terminal))
  {
    HearAlike(x.log, y.log, t.progress.assistant, t.progress.text);
  }

  lemma StartAlike(x: Durable, y: Durable, t: TurnState, u: TurnState)
    requires Alike(x, y) && AlikeTurn(t, u)
    ensures AlikeLocal(Starting(x, t), Starting(y, u))
  {
    TerminalsAreOwn(x.log);
    TerminalsAreOwn(y.log);
    var terminals := TerminalEntries(x.log);
    if |terminals| == 1 {
      RecoveringAlike(x, y, t, u, terminals[0]);
    }
  }

  lemma JudgeAlike(policy: Policy, p: Progress, q: Progress, stream: seq<Event>, i: nat)
    requires i < |stream| && AlikeProgress(p, q)
    ensures Judge(policy, p, stream, i) == Judge(policy, q, stream, i)
  {
    var e := stream[i];
    assert p.cursor == q.cursor && p.text == q.text;
    assert e.cursor in p.digests <==> e.cursor in q.digests;
  }

  lemma EventAlike(w: Worker, v: Worker, p: Progress, q: Progress, terminal: Option<Status>, i: nat)
    requires w.script == v.script && w.said == v.said && AlikeProgress(p, q)
    requires i <= |w.script.stream| && (terminal.Some? ==> terminal.value.IsTerminal())
    ensures AlikeLocal(NextEvent(w, p, terminal, i), NextEvent(v, q, terminal, i))
  {
    if i < |w.script.stream| {
      JudgeAlike(w.script.policy, p, q, w.script.stream, i);
    }
  }

  lemma FindAlike(x: Durable, y: Durable, key: Key)
    requires Alike(x, y) && !key.OtherKey?
    ensures var i, j := Find(x.log, key), Find(y.log, key);
      (i == |x.log| <==> j == |y.log|) && (i < |x.log| ==> x.log[i] == y.log[j])
  {
    FindOwn(x.log, key);
    FindOwn(y.log, key);
  }

  lemma LookAlike(script: Script, x: Durable, y: Durable, a: Work, b: Work, k: nat, r: seq<Public>, t: seq<Public>)
    requires Alike(x, y) && AlikeWork(a, b) && SameFacts(r, t) && WorkIsReady(script, a) && k <= |a.p.parts|
    ensures AlikeMoved(LookUpPart(script, x, a, k, r), LookUpPart(script, y, b, k, t))
  {
    if k < |a.p.parts| {
      var key, fact := PartKey(script, a, k), PartFact(script, a, k);
      FindAlike(x, y, key);
      ShowsAlike(r, t, fact, Find(x.log, key), Find(y.log, key));
    }
  }

  lemma InsertAlike(x: Durable, y: Durable, key: Key, fact: Fact, digest: Option<Event>)
    requires Alike(x, y) && !key.OtherKey?
    ensures var a, b := Insert(x.log, key, fact, digest), Insert(y.log, key, fact, digest);
      a.0[a.1] == b.0[b.1] && Alike(x.(log := a.0), y.(log := b.0))
  {
    FindAlike(x, y, key);
    var entry := Entry(key, fact, true, digest);
    OwnNext(x.log, entry);
    OwnNext(y.log, entry);
  }

  lemma PartAlike(script: Script, x: Durable, y: Durable, a: Work, b: Work, k: nat, r: seq<Public>, t: seq<Public>)
    requires Alike(x, y) && AlikeWork(a, b) && SameFacts(r, t) && WorkIsReady(script, a) && k < |a.p.parts|
    ensures AlikeMoved(InsertPart(script, x, a, k, r), InsertPart(script, y, b, k, t))
  {
    var key, fact, digest := PartKey(script, a, k), PartFact(script, a, k), Some(script.stream[a.i]);
    InsertAlike(x, y, key, fact, digest);
    var i, j := Insert(x.log, key, fact, digest), Insert(y.log, key, fact, digest);
    ShowsAlike(r, t, i.0[i.1].fact, i.1, j.1);
  }

  lemma WriteAlike(x: Durable, y: Durable, content: string)
    requires Alike(x, y)
    ensures Alike(WriteMessage(x, content), WriteMessage(y, content))
    ensures WriteMessage(x, content).message == WriteMessage(y, content).message
  {}

  lemma SayAlike(x: Durable, y: Durable, a: Work, b: Work, r: seq<Public>, t: seq<Public>)
    requires Alike(x, y) && AlikeWork(a, b) && SameFacts(r, t)
    ensures AlikeMoved(Say(x, a, r), Say(y, b, t))
  {
    if a.p.assistant.Some? {
      WriteAlike(x, y, a.p.assistant.value);
    }
  }

  lemma SaveAlike(script: Script, x: Durable, y: Durable, a: Work, b: Work, r: seq<Public>, t: seq<Public>)
    requires Alike(x, y) && AlikeWork(a, b) && SameFacts(r, t) && WorkIsReady(script, a)
    ensures AlikeMoved(Save(script, true, x, a, r), Save(script, true, y, b, t))
  {}

  lemma RetellAlike(x: Durable, y: Durable, p: Progress, q: Progress, outcome: Outcome)
    requires Alike(x, y) && AlikeProgress(p, q) && p.assistant.Some?
    ensures AlikeMoved(Retell(x, p, outcome), Retell(y, q, outcome))
  {
    WriteAlike(x, y, p.assistant.value);
  }

  lemma SealLookAlike(x: Durable, y: Durable, p: Progress, q: Progress, outcome: Outcome)
    requires Alike(x, y) && AlikeProgress(p, q)
    ensures AlikeMoved(LookUpSeal(x, p, outcome), LookUpSeal(y, q, outcome))
  {
    FindAlike(x, y, SealKey(p));
    ShowsAlike(p.result, q.result, TerminalFact(outcome), Find(x.log, SealKey(p)), Find(y.log, SealKey(p)));
  }

  lemma SealAlike(x: Durable, y: Durable, p: Progress, q: Progress, outcome: Outcome)
    requires Alike(x, y) && AlikeProgress(p, q)
    ensures AlikeMoved(InsertSeal(x, p, outcome), InsertSeal(y, q, outcome))
  {
    var key, fact := SealKey(p), TerminalFact(outcome);
    InsertAlike(x, y, key, fact, None);
    var i, j := Insert(x.log, key, fact, None), Insert(y.log, key, fact, None);
    ShowsAlike(p.result, q.result, i.0[i.1].fact, i.1, j.1);
  }

  lemma EndAlike(w: Worker, v: Worker, x: Durable, y: Durable)
    requires Ready(w) && Ready(v) && AlikeWorker(w, v) && Alike(x, y)
    requires w.local.Finishing? || w.local.Closing? || w.local.Corrupting? || w.local.Releasing? || w.local.Stopped?
    ensures AlikeMoved(Move(w, true, x), Move(v, true, y))
  {}

  /** Moves from states that are alike lead to states that are alike. */
  lemma MoveAlike(w: Worker, v: Worker, x: Durable, y: Durable)
    requires Ready(w) && Ready(v) && AlikeWorker(w, v) && Alike(x, y)
    ensures AlikeMoved(Move(w, true, x), Move(v, true, y))
  {
    var l := v.local;
    match w.local
    case Loaded(turn) => StartAlike(x, y, turn, l.turn);
    case Looping(progress, terminal, i) => EventAlike(w, v, progress, l.progress, terminal, i);
    case Looking(work, k, shown) => LookAlike(w.script, x, y, work, l.work, k, shown, l.shown);
    case Inserting(work, k, shown) => PartAlike(w.script, x, y, work, l.work, k, shown, l.shown);
    case Saying(work, shown) => SayAlike(x, y, work, l.work, shown, l.shown);
    case Saving(work, shown) => SaveAlike(w.script, x, y, work, l.work, shown, l.shown);
    case Retelling(progress, outcome) => RetellAlike(x, y, progress, l.progress, outcome);
    case SealLooking(progress, outcome) => SealLookAlike(x, y, progress, l.progress, outcome);
    case SealInserting(progress, outcome) => SealAlike(x, y, progress, l.progress, outcome);
    case _ => EndAlike(w, v, x, y);
  }

  // ----- whole plays -----

  /** What may happen to a turn: its worker moves, dies and is replaced, or others append. */
  datatype Act = Works | Crashes | OthersAppend(entry: Entry)

  /** A worker and the stores. */
  datatype Play = Play(w: Worker, d: Durable)

  predicate AllOthers(acts: seq<Act>) {
    forall i | 0 <= i < |acts| && acts[i].OthersAppend? :: IsOthers(acts[i].entry)
  }

  function Begin(s: Setting, d: Durable): Play {
    Play(Load(0, Script(s.policy, s.stream, s.ending), d.turn), d)
  }

  function NextPlay(s: Setting, x: Play, act: Act): Play
    requires Ready(x.w)
  {
    match act
    case Works => var m := Move(x.w, true, x.d); Play(After(x.w, m), m.d)
    case Crashes => if x.d.standing.Ended? then x else Begin(s, x.d.(standing := Claimed))
    case OthersAppend(entry) => x.(d := x.d.(log := x.d.log + [entry]))
  }

  lemma NextPlayIsReady(s: Setting, x: Play, act: Act)
    requires Ready(x.w)
    ensures Ready(NextPlay(s, x, act).w)
  {
    MoveIsReady(x.w, true, x.d);
  }

  function Played(s: Setting, x: Play, acts: seq<Act>): (r: Play)
    requires Ready(x.w)
    ensures Ready(r.w)
    decreases |acts|
  {
    if acts == [] then x
    else
      NextPlayIsReady(s, x, acts[0]);
      Played(s, NextPlay(s, x, acts[0]), acts[1..])
  }

  /** The same play without the others. */
  function WithoutOthers(acts: seq<Act>): (r: seq<Act>)
    ensures forall i | 0 <= i < |r| :: !r[i].OthersAppend?
  {
    if acts == [] then [] else (if acts[0].OthersAppend? then [] else [acts[0]]) + WithoutOthers(acts[1..])
  }

  ghost predicate AlikePlay(x: Play, y: Play) {
    Ready(x.w) && Ready(y.w) && AlikeWorker(x.w, y.w) && Alike(x.d, y.d)
  }

  lemma OthersJoin(x: Durable, y: Durable, entry: Entry)
    requires Alike(x, y) && IsOthers(entry)
    ensures Alike(x.(log := x.log + [entry]), y)
  {
    OwnNext(x.log, entry);
  }

  lemma NextAlike(s: Setting, x: Play, y: Play, act: Act)
    requires AlikePlay(x, y) && !act.OthersAppend?
    ensures AlikePlay(NextPlay(s, x, act), NextPlay(s, y, act))
  {
    NextPlayIsReady(s, x, act);
    NextPlayIsReady(s, y, act);
    MoveAlike(x.w, y.w, x.d, y.d);
  }

  /** In company the turn comes to what it would have come to alone, move for move. */
  lemma {:induction false} CompanyIsUnnoticed(s: Setting, x: Play, y: Play, acts: seq<Act>)
    requires AlikePlay(x, y) && AllOthers(acts)
    ensures AlikePlay(Played(s, x, acts), Played(s, y, WithoutOthers(acts)))
    decreases |acts|
  {
    if acts != [] {
      var act, rest := acts[0], acts[1..];
      assert forall i | 0 <= i < |rest| :: rest[i] == acts[i + 1];
      NextPlayIsReady(s, x, act);
      if act.OthersAppend? {
        OthersJoin(x.d, y.d, act.entry);
        CompanyIsUnnoticed(s, NextPlay(s, x, act), y, rest);
        assert WithoutOthers(acts) == WithoutOthers(rest);
      } else {
        NextAlike(s, x, y, act);
        CompanyIsUnnoticed(s, NextPlay(s, x, act), NextPlay(s, y, act), rest);
        assert WithoutOthers(acts)[1..] == WithoutOthers(rest);
      }
    }
  }

  lemma NextPlayKeepsTheLog(s: Setting, x: Play, act: Act)
    requires Ready(x.w)
    ensures x.d.log <= NextPlay(s, x, act).d.log
    ensures act.OthersAppend? ==> NextPlay(s, x, act).d.log == x.d.log + [act.entry]
  {}

  /** The log only grows, and has what others have appended. */
  lemma {:induction false} OthersAreKept(s: Setting, x: Play, acts: seq<Act>)
    requires Ready(x.w)
    ensures x.d.log <= Played(s, x, acts).d.log
    ensures forall k | 0 <= k < |acts| && acts[k].OthersAppend? :: acts[k].entry in Played(s, x, acts).d.log
    decreases |acts|
  {
    if acts != [] {
      var next, rest := NextPlay(s, x, acts[0]), acts[1..];
      NextPlayIsReady(s, x, acts[0]);
      NextPlayKeepsTheLog(s, x, acts[0]);
      OthersAreKept(s, next, rest);
      forall k | 0 <= k < |acts| && acts[k].OthersAppend?
        ensures acts[k].entry in Played(s, x, acts).d.log
      {
        if k == 0 {
          assert next.d.log[|x.d.log|] == acts[0].entry;
          assert Played(s, next, rest).d.log[|x.d.log|] == acts[0].entry;
        } else {
          assert acts[k] == rest[k - 1];
        }
      }
    }
  }
}
