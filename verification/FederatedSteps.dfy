/** The worker of a federated turn move by move: what `_process_federated_runtime_turn` does between two
    reads or writes of the stores, so that others can come in between. Left alone, the moves write exactly
    the states of `FederatedTurn.Run`. */
module FederatedSteps {
  import opened Basics
  import opened FederatedTurn

  /** What a worker runs: the runtime's stream, how it ends, and what may be published. */
  datatype Script = Script(policy: Policy, stream: seq<Event>, ending: Ending)

  /** The event that is being taken: the progress before it, its place in the stream, its projection. */
  datatype Work = Work(progress: Progress, i: nat, p: Projection)

  /** What a worker does next. An append looks its key up and then, in a transaction of its own, inserts. */
  datatype Local =
    | Loaded(turn: TurnState)
    | Looping(progress: Progress, terminal: Option<Status>, i: nat)
    | Looking(work: Work, k: nat, shown: seq<Public>)
    | Inserting(work: Work, k: nat, shown: seq<Public>)
    | Saying(work: Work, shown: seq<Public>)
    | Saving(work: Work, shown: seq<Public>)
    | Retelling(progress: Progress, outcome: Outcome)
    | Finishing(progress: Progress, outcome: Outcome)
    | SealLooking(progress: Progress, outcome: Outcome)
    | SealInserting(progress: Progress, outcome: Outcome)
    | Closing(progress: Progress, outcome: Outcome)
    | Corrupting
    | Releasing(release: Option<TurnState>)
    | Stopped

  /** `claim` is the claim under which the worker writes the turn; `said` the assistant message it loaded. */
  datatype Worker = Worker(claim: nat, script: Script, said: Option<string>, local: Local)

  predicate WorkIsReady(script: Script, work: Work) {
    work.i < |script.stream|
  }

  predicate Ready(w: Worker) {
    match w.local
    case Looping(_, terminal, i) => i <= |w.script.stream| && (terminal.Some? ==> terminal.value.IsTerminal())
    case Looking(work, k, _) => WorkIsReady(w.script, work) && k <= |work.p.parts|
    case Inserting(work, k, _) => WorkIsReady(w.script, work) && k < |work.p.parts|
    case Saying(work, _) => WorkIsReady(w.script, work)
    case Saving(work, _) => WorkIsReady(w.script, work)
    case Retelling(progress, _) => progress.assistant.Some?
    case _ => true
  }

  function Load(claim: nat, script: Script, turn: TurnState): (w: Worker)
    ensures Ready(w)
  {
    Worker(claim, script, turn.progress.assistant, Loaded(turn))
  }

  // ----- one move -----

  /** `states` holds the durable state if the move wrote one. */
  datatype Moved = Moved(local: Local, d: Durable, states: seq<Durable>)

  function Silently(local: Local, d: Durable): Moved {
    Moved(local, d, [])
  }

  function Writing(local: Local, d: Durable): Moved {
    Moved(local, d, [d])
  }

  /** A write that only the owner of the turn may do. */
  function Fenced(owned: bool, local: Local, d: Durable, next: Durable): Moved {
    if owned then Writing(local, next) else Silently(Stopped, d)
  }

  /** Recovery, from the log as it is read. */
  function Recovering(d: Durable, turn: TurnState, terminal: Entry): Local
    requires IsTerminalEntry(terminal)
  {
    var progress, cursor := turn.progress, terminal.fact.cursor;
    if cursor < 1 || terminal.digest.None? || cursor < progress.cursor then Corrupting
    else
      var digest := terminal.digest.value;
      if cursor == progress.cursor && !(cursor in progress.digests && progress.digests[cursor] == digest) then Corrupting
      else
        var heard := Hear(d.log, progress.assistant, progress.text);
        if heard.Garbled? then Corrupting
        else
          var next := Progress(cursor, heard.result, progress.digests[cursor := digest], heard.text, heard.assistant);
          var outcome := OutcomeOf(terminal.fact.part.status);
          if heard.assistant.None? then Finishing(next, outcome) else Retelling(next, outcome)
  }

  /** What a worker does first with the turn it has loaded. */
  function Starting(d: Durable, turn: TurnState): Local {
    if turn.outcome.Some? then Finishing(turn.progress, turn.outcome.value)
    else
      var terminals := TerminalEntries(d.log);
      if |terminals| > 1 then Corrupting
      else if |terminals| == 1 then Recovering(d, turn, terminals[0])
      else Looping(turn.progress, None, 0)
  }

  function AfterStream(w: Worker, progress: Progress, terminal: Option<Status>): Local
    requires terminal.Some? ==> terminal.value.IsTerminal()
  {
    match w.script.ending
    case Ends => Finishing(progress, if terminal.Some? then OutcomeOf(terminal.value) else RuntimeFailed)
    case Fails(category) => Finishing(progress, category)
    case Breaks => Finishing(progress, RuntimeFailed)
    case Asks => Releasing(Some(TurnState(progress.(assistant := w.said), None)))
    case Corrupts => Corrupting
    case Raises => Releasing(None)
  }

  /** The next event of the stream, or its end. */
  function NextEvent(w: Worker, progress: Progress, terminal: Option<Status>, i: nat): Local
    requires i <= |w.script.stream| && (terminal.Some? ==> terminal.value.IsTerminal())
  {
    if i == |w.script.stream| then AfterStream(w, progress, terminal)
    else
      match Judge(w.script.policy, progress, w.script.stream, i)
      case Skip => Looping(progress, terminal, i + 1)
      case Reject => Finishing(progress, RuntimeFailed)
      case Advance(p) =>
        if terminal.Some? then Finishing(progress, RuntimeFailed) else Looking(Work(progress, i, p), 0, progress.result)
  }

  function PartKey(script: Script, work: Work, k: nat): Key
    requires WorkIsReady(script, work)
  {
    RuntimeKey(script.stream[work.i].cursor, k)
  }

  function PartFact(script: Script, work: Work, k: nat): Fact
    requires WorkIsReady(script, work) && k < |work.p.parts|
  {
    RuntimeFact(script.stream[work.i].cursor, work.p.parts[k])
  }

  function SealKey(progress: Progress): Key {
    TerminalKey(progress.cursor + 1)
  }

  function LookUpPart(script: Script, d: Durable, work: Work, k: nat, shown: seq<Public>): Moved
    requires WorkIsReady(script, work) && k <= |work.p.parts|
  {
    if k == |work.p.parts| then Silently(Saying(work, shown), d)
    else
      var at, fact := Find(d.log, PartKey(script, work, k)), PartFact(script, work, k);
      if at == |d.log| then Silently(Inserting(work, k, shown), d)
      else if d.log[at].fact == fact then Writing(Looking(work, k + 1, shown + Shows(fact, at)), d)
      else Silently(Releasing(None), d)
  }

  /** An insert whose key has been taken since goes on with what is there. */
  function Insert(log: seq<Entry>, key: Key, fact: Fact, digest: Option<Event>): (r: (seq<Entry>, nat))
    ensures r.1 < |r.0|
  {
    var at := Find(log, key);
    (if at == |log| then log + [Entry(key, fact, true, digest)] else log, at)
  }

  function InsertPart(script: Script, d: Durable, work: Work, k: nat, shown: seq<Public>): Moved
    requires WorkIsReady(script, work) && k < |work.p.parts|
  {
    var (log, at) := Insert(d.log, PartKey(script, work, k), PartFact(script, work, k), Some(script.stream[work.i]));
    Writing(Looking(work, k + 1, shown + Shows(log[at].fact, at)), d.(log := log))
  }

  function Say(d: Durable, work: Work, shown: seq<Public>): Moved {
    var p, progress := work.p, work.progress;
    if p.assistant.None? then Silently(Saving(work, shown), d)
    else if progress.assistant.Some? && progress.assistant != p.assistant then
      Silently(Finishing(progress.(result := shown), RuntimeFailed), d)
    else
      var told := WriteMessage(d, p.assistant.value);
      Writing(if told.message != p.assistant then Corrupting else Saving(work, shown), told)
  }

  function Save(script: Script, owned: bool, d: Durable, work: Work, shown: seq<Public>): Moved
    requires WorkIsReady(script, work)
  {
    var e := script.stream[work.i];
    var outcome := if TerminalOf(work.p).Some? then Some(OutcomeOf(work.p.terminal.value)) else None;
    var next := Advanced(work.progress, e, work.p, shown);
    Fenced(owned, Looping(next, TerminalOf(work.p), work.i + 1), d, d.(turn := TurnState(next, outcome)))
  }

  function Retell(d: Durable, progress: Progress, outcome: Outcome): Moved
    requires progress.assistant.Some?
  {
    var told := WriteMessage(d, progress.assistant.value);
    Writing(if told.message != progress.assistant then Corrupting else Finishing(progress, outcome), told)
  }

  function LookUpSeal(d: Durable, progress: Progress, outcome: Outcome): Moved {
    var at, fact := Find(d.log, SealKey(progress)), TerminalFact(outcome);
    if at == |d.log| then Silently(SealInserting(progress, outcome), d)
    else if d.log[at].fact == fact then
      Writing(Closing(progress.(result := progress.result + Shows(fact, at)), outcome), d)
    else Silently(Releasing(None), d)
  }

  function InsertSeal(d: Durable, progress: Progress, outcome: Outcome): Moved {
    var (log, at) := Insert(d.log, SealKey(progress), TerminalFact(outcome), None);
    Writing(Closing(progress.(result := progress.result + Shows(log[at].fact, at)), outcome), d.(log := log))
  }

  function Closed(d: Durable, progress: Progress, outcome: Outcome): Durable {
    Durable(d.log, d.message, TurnState(progress, Some(outcome)), EndOf(outcome), Some(progress.result))
  }

  function Released(d: Durable, release: Option<TurnState>): Durable {
    d.(turn := if release.Some? then release.value else d.turn, standing := Retryable)
  }

  /** The worker's next move; `owned` says that its claim still stands. */
  function Move(w: Worker, owned: bool, d: Durable): Moved
    requires Ready(w)
  {
    match w.local
    case Loaded(turn) => Silently(Starting(d, turn), d)
    case Looping(progress, terminal, i) => Silently(NextEvent(w, progress, terminal, i), d)
    case Looking(work, k, shown) => LookUpPart(w.script, d, work, k, shown)
    case Inserting(work, k, shown) => InsertPart(w.script, d, work, k, shown)
    case Saying(work, shown) => Say(d, work, shown)
    case Saving(work, shown) => Save(w.script, owned, d, work, shown)
    case Retelling(progress, outcome) => Retell(d, progress, outcome)
    case Finishing(progress, outcome) =>
      Fenced(owned, SealLooking(progress, outcome), d, d.(turn := TurnState(progress, Some(outcome))))
    case SealLooking(progress, outcome) => LookUpSeal(d, progress, outcome)
    case SealInserting(progress, outcome) => InsertSeal(d, progress, outcome)
    case Closing(progress, outcome) => Fenced(owned, Stopped, d, Closed(d, progress, outcome))
    case Corrupting => Fenced(owned, Stopped, d, FailCorrupt(d))
    case Releasing(release) => Fenced(owned, Stopped, d, Released(d, release))
    case Stopped => Silently(Stopped, d)
  }

  function After(w: Worker, m: Moved): Worker {
    w.(local := m.local)
  }

  lemma MoveIsReady(w: Worker, owned: bool, d: Durable)
    requires Ready(w)
    ensures Ready(After(w, Move(w, owned, d)))
  {}

  lemma MoveWrites(w: Worker, owned: bool, d: Durable)
    requires Ready(w)
    ensures var m := Move(w, owned, d); if m.states == [] then m.d == d else m.states == [m.d]
  {}

  // ----- left alone, a worker does what a run does -----

  function RestOfLoop(w: Worker, d: Durable, progress: Progress, terminal: Option<Status>, i: nat): seq<Durable>
    requires i <= |w.script.stream| && (terminal.Some? ==> terminal.value.IsTerminal())
  {
    Loop(w.script.policy, d, w.said, progress, terminal, w.script.stream, i, w.script.ending)
  }

  function RestOfMessage(w: Worker, d: Durable, work: Work, shown: seq<Public>): seq<Durable>
    requires WorkIsReady(w.script, work)
  {
    var t := TakeMessage(d, work.progress, w.script.stream[work.i], work.p, shown);
    if t.saved.None? then t.states
    else t.states + RestOfLoop(w, t.saved.value, t.saved.value.turn.progress, TerminalOf(work.p), work.i + 1)
  }

  function RestOfParts(w: Worker, d: Durable, work: Work, k: nat, shown: seq<Public>): seq<Durable>
    requires WorkIsReady(w.script, work) && k <= |work.p.parts|
  {
    var a := AppendParts(d, w.script.stream[work.i], work.p.parts, k, shown);
    if a.clashed then a.states else a.states + RestOfMessage(w, d.(log := a.log), work, a.result)
  }

  function RestOfSave(w: Worker, d: Durable, work: Work, shown: seq<Public>): seq<Durable>
    requires WorkIsReady(w.script, work)
  {
    var saved := SaveAdvance(d, work.progress, w.script.stream[work.i], work.p, shown);
    [saved] + RestOfLoop(w, saved, saved.turn.progress, TerminalOf(work.p), work.i + 1)
  }

  function RestOfRecovery(d: Durable, progress: Progress, outcome: Outcome): seq<Durable>
    requires progress.assistant.Some?
  {
    var told := WriteMessage(d, progress.assistant.value);
    if told.message != progress.assistant then [told, FailCorrupt(told)] else [told] + Finish(told, progress, outcome)
  }

  function RestOfSeal(d: Durable, progress: Progress, outcome: Outcome): seq<Durable> {
    var fact := TerminalFact(outcome);
    var appended := Append(d.log, SealKey(progress), fact, None);
    if appended.None? then [d.(standing := Retryable)]
    else
      var (log, at) := appended.value;
      var next := d.(log := log);
      [next, Closed(next, progress.(result := progress.result + Shows(fact, at)), outcome)]
  }

  /** The states that are left for a worker to write, as the functions of a run give them. */
  function Rest(w: Worker, d: Durable): seq<Durable>
    requires Ready(w)
  {
    match w.local
    case Loaded(_) => Run(w.script.policy, d, w.script.stream, w.script.ending)
    case Looping(progress, terminal, i) => RestOfLoop(w, d, progress, terminal, i)
    case Looking(work, k, shown) => RestOfParts(w, d, work, k, shown)
    case Inserting(work, k, shown) => RestOfParts(w, d, work, k, shown)
    case Saying(work, shown) => RestOfMessage(w, d, work, shown)
    case Saving(work, shown) => RestOfSave(w, d, work, shown)
    case Retelling(progress, outcome) => RestOfRecovery(d, progress, outcome)
    case Finishing(progress, outcome) => Finish(d, progress, outcome)
    case SealLooking(progress, outcome) => RestOfSeal(d, progress, outcome)
    case SealInserting(progress, outcome) => RestOfSeal(d, progress, outcome)
    case Closing(progress, outcome) => [Closed(d, progress, outcome)]
    case Corrupting => [FailCorrupt(d)]
    case Releasing(release) => [Released(d, release)]
    case Stopped => []
  }

  /** What a worker that nobody interferes with knows of the stores. */
  predicate Alone(w: Worker, d: Durable)
    requires Ready(w)
  {
    && (w.local.Stopped? || d.standing.Claimed?)
    && match w.local
       case Loaded(turn) => turn == d.turn && w.said == turn.progress.assistant
       case Looping(_, terminal, _) => terminal.None? ==> d.turn.outcome.None?
       case Looking(_, _, _) => d.turn.outcome.None?
       case Inserting(work, k, _) => d.turn.outcome.None? && Find(d.log, PartKey(w.script, work, k)) == |d.log|
       case Saying(_, _) => d.turn.outcome.None?
       case Saving(_, _) => d.turn.outcome.None?
       case SealLooking(progress, outcome) => d.turn == TurnState(progress, Some(outcome))
       case SealInserting(progress, outcome) =>
         d.turn == TurnState(progress, Some(outcome)) && Find(d.log, SealKey(progress)) == |d.log|
       case _ => true
  }

  /** The move writes the first of the states that are left, or none. */
  predicate Follows(w: Worker, d: Durable)
    requires Ready(w)
  {
    var m := Move(w, true, d);
    && Ready(After(w, m)) && Alone(After(w, m), m.d)
    && Rest(w, d) == m.states + Rest(After(w, m), m.d)
  }

  lemma StartFollows(w: Worker, d: Durable)
    requires Ready(w) && Alone(w, d) && w.local.Loaded?
    ensures Follows(w, d)
  {
  }

  lemma StreamEndFollows(w: Worker, d: Durable)
    requires Ready(w) && Alone(w, d) && w.local.Looping? && w.local.i == |w.script.stream|
    ensures Follows(w, d)
  {
    var progress, terminal := w.local.progress, w.local.terminal;
    assert Move(w, true, d) == Silently(AfterStream(w, progress, terminal), d);
    assert Rest(w, d) == AtEnd(d, w.said, progress, terminal, w.script.ending);
  }

  lemma EventFollows(w: Worker, d: Durable)
    requires Ready(w) && Alone(w, d) && w.local.Looping? && w.local.i < |w.script.stream|
    ensures Follows(w, d)
  {
    var progress, terminal, i := w.local.progress, w.local.terminal, w.local.i;
    match Judge(w.script.policy, progress, w.script.stream, i)
    case Skip =>
      assert Move(w, true, d) == Silently(Looping(progress, terminal, i + 1), d);
    case Reject =>
      assert Move(w, true, d) == Silently(Finishing(progress, RuntimeFailed), d);
    case Advance(p) =>
      if terminal.Some? {
        assert Move(w, true, d) == Silently(Finishing(progress, RuntimeFailed), d);
      } else {
        TakingFollows(w, d, p);
      }
  }

  lemma LoopTakes(w: Worker, d: Durable, progress: Progress, i: nat, p: Projection)
    requires i < |w.script.stream| && Judge(w.script.policy, progress, w.script.stream, i) == Advance(p)
    ensures var t := Take(d, progress, w.script.stream[i], p);
      RestOfLoop(w, d, progress, None, i)
      == if t.saved.None? then t.states
         else t.states + RestOfLoop(w, t.saved.value, t.saved.value.turn.progress, TerminalOf(p), i + 1)
  {}

  lemma PartsThenMessage(a: seq<Durable>, b: seq<Durable>, c: seq<Durable>)
    ensures a + b + c == a + (b + c)
  {}

  lemma TakeIsParts(d: Durable, progress: Progress, e: Event, p: Projection)
    ensures var a := AppendParts(d, e, p.parts, 0, progress.result);
      var t := TakeMessage(d.(log := a.log), progress, e, p, a.result);
      Take(d, progress, e, p) == if a.clashed then Taking(a.states, None) else Taking(a.states + t.states, t.saved)
  {}

  lemma ClashedIsParts(w: Worker, d: Durable, progress: Progress, i: nat, p: Projection)
    requires i < |w.script.stream| && AppendParts(d, w.script.stream[i], p.parts, 0, progress.result).clashed
    ensures RestOfParts(w, d, Work(progress, i, p), 0, progress.result)
      == Take(d, progress, w.script.stream[i], p).states
    ensures Take(d, progress, w.script.stream[i], p).saved.None?
  {}

  lemma TakenIsParts(w: Worker, d: Durable, progress: Progress, i: nat, p: Projection)
    requires i < |w.script.stream| && !AppendParts(d, w.script.stream[i], p.parts, 0, progress.result).clashed
    ensures var t := Take(d, progress, w.script.stream[i], p);
      RestOfParts(w, d, Work(progress, i, p), 0, progress.result)
      == if t.saved.None? then t.states
         else t.states + RestOfLoop(w, t.saved.value, t.saved.value.turn.progress, TerminalOf(p), i + 1)
  {
    TakeIsParts(d, progress, w.script.stream[i], p);
    var a := AppendParts(d, w.script.stream[i], p.parts, 0, progress.result);
    var t := TakeMessage(d.(log := a.log), progress, w.script.stream[i], p, a.result);
    if t.saved.Some? {
      PartsThenMessage(a.states, t.states,
                       RestOfLoop(w, t.saved.value, t.saved.value.turn.progress, TerminalOf(p), i + 1));
    }
  }

  lemma LoopIsParts(w: Worker, d: Durable, progress: Progress, i: nat, p: Projection)
    requires i < |w.script.stream| && Judge(w.script.policy, progress, w.script.stream, i) == Advance(p)
    ensures RestOfLoop(w, d, progress, None, i) == RestOfParts(w, d, Work(progress, i, p), 0, progress.result)
  {
    LoopTakes(w, d, progress, i, p);
    if AppendParts(d, w.script.stream[i], p.parts, 0, progress.result).clashed {
      ClashedIsParts(w, d, progress, i, p);
    } else {
      TakenIsParts(w, d, progress, i, p);
    }
  }

  lemma TakingFollows(w: Worker, d: Durable, p: Projection)
    requires Ready(w) && Alone(w, d) && w.local.Looping? && w.local.i < |w.script.stream| && w.local.terminal.None?
    requires Judge(w.script.policy, w.local.progress, w.script.stream, w.local.i) == Advance(p)
    ensures Follows(w, d)
  {
    var progress, i := w.local.progress, w.local.i;
    var work := Work(progress, i, p);
    assert Move(w, true, d) == Silently(Looking(work, 0, progress.result), d);
    LoopIsParts(w, d, progress, i, p);
    assert [] + RestOfParts(w, d, work, 0, progress.result) == RestOfParts(w, d, work, 0, progress.result);
  }

  lemma LoopFollows(w: Worker, d: Durable)
    requires Ready(w) && Alone(w, d) && w.local.Looping?
    ensures Follows(w, d)
  {
    if w.local.i == |w.script.stream| {
      StreamEndFollows(w, d);
    } else {
      EventFollows(w, d);
    }
  }

  lemma PartFollows(w: Worker, d: Durable, work: Work, k: nat, shown: seq<Public>, log: seq<Entry>, at: nat)
    requires WorkIsReady(w.script, work) && k < |work.p.parts|
    requires Append(d.log, PartKey(w.script, work, k), PartFact(w.script, work, k), Some(w.script.stream[work.i]))
      == Some((log, at))
    ensures var next := d.(log := log);
      RestOfParts(w, d, work, k, shown)
      == [next] + RestOfParts(w, next, work, k + 1, shown + Shows(PartFact(w.script, work, k), at))
  {
    var e, next, more := w.script.stream[work.i], d.(log := log), shown + Shows(PartFact(w.script, work, k), at);
    AppendStep(d, e, work.p.parts, k, shown, log, at);
    var rest := AppendParts(next, e, work.p.parts, k + 1, more);
    if !rest.clashed {
      PartsThenMessage([next], rest.states, RestOfMessage(w, next.(log := rest.log), work, rest.result));
    }
  }

  lemma PartsAreDone(w: Worker, d: Durable, work: Work, shown: seq<Public>)
    requires WorkIsReady(w.script, work)
    ensures RestOfParts(w, d, work, |work.p.parts|, shown) == [] + RestOfMessage(w, d, work, shown)
  {}

  lemma ClashFollows(w: Worker, d: Durable, work: Work, k: nat, shown: seq<Public>)
    requires WorkIsReady(w.script, work) && k < |work.p.parts|
    requires Append(d.log, PartKey(w.script, work, k), PartFact(w.script, work, k), Some(w.script.stream[work.i])).None?
    ensures RestOfParts(w, d, work, k, shown) == [] + [Released(d, None)]
  {}

  lemma LookFollows(w: Worker, d: Durable)
    requires Ready(w) && Alone(w, d) && w.local.Looking?
    ensures Follows(w, d)
  {
    var work, k, shown := w.local.work, w.local.k, w.local.shown;
    if k == |work.p.parts| {
      PartsAreDone(w, d, work, shown);
    } else {
      var at := Find(d.log, PartKey(w.script, work, k));
      if at == |d.log| {
        assert [] + Rest(w, d) == Rest(w, d);
      } else if d.log[at].fact == PartFact(w.script, work, k) {
        PartFollows(w, d, work, k, shown, d.log, at);
        assert d.(log := d.log) == d;
      } else {
        ClashFollows(w, d, work, k, shown);
      }
    }
  }

  lemma InsertFollows(w: Worker, d: Durable)
    requires Ready(w) && Alone(w, d) && w.local.Inserting?
    ensures Follows(w, d)
  {
    var work, k, shown := w.local.work, w.local.k, w.local.shown;
    var entry := Entry(PartKey(w.script, work, k), PartFact(w.script, work, k), true, Some(w.script.stream[work.i]));
    PartFollows(w, d, work, k, shown, d.log + [entry], |d.log|);
  }

  lemma SilentFollows(w: Worker, d: Durable)
    requires Ready(w) && Alone(w, d) && w.local.Saying? && w.local.work.p.assistant.None?
    ensures Follows(w, d)
  {
    var work, shown := w.local.work, w.local.shown;
    assert Move(w, true, d) == Silently(Saving(work, shown), d);
    assert RestOfMessage(w, d, work, shown) == [] + RestOfSave(w, d, work, shown);
  }

  lemma ConflictFollows(w: Worker, d: Durable)
    requires Ready(w) && Alone(w, d) && w.local.Saying? && w.local.work.p.assistant.Some?
    requires var before := w.local.work.progress.assistant; before.Some? && before != w.local.work.p.assistant
    ensures Follows(w, d)
  {
    var work, shown := w.local.work, w.local.shown;
    var progress := work.progress.(result := shown);
    assert Move(w, true, d) == Silently(Finishing(progress, RuntimeFailed), d);
    assert RestOfMessage(w, d, work, shown) == [] + Finish(d, progress, RuntimeFailed);
  }

  lemma MessageFollows(w: Worker, d: Durable)
    requires Ready(w) && Alone(w, d) && w.local.Saying? && w.local.work.p.assistant.Some?
    requires var before := w.local.work.progress.assistant; before.None? || before == w.local.work.p.assistant
    ensures Follows(w, d)
  {
    var work, shown := w.local.work, w.local.shown;
    var told := WriteMessage(d, work.p.assistant.value);
    if told.message != work.p.assistant {
      assert Move(w, true, d) == Writing(Corrupting, told);
      assert RestOfMessage(w, d, work, shown) == [told] + [FailCorrupt(told)];
    } else {
      assert Move(w, true, d) == Writing(Saving(work, shown), told);
      assert RestOfMessage(w, d, work, shown) == [told] + RestOfSave(w, told, work, shown);
    }
  }

  lemma SayFollows(w: Worker, d: Durable)
    requires Ready(w) && Alone(w, d) && w.local.Saying?
    ensures Follows(w, d)
  {
    var before := w.local.work.progress.assistant;
    if w.local.work.p.assistant.None? {
      SilentFollows(w, d);
    } else if before.Some? && before != w.local.work.p.assistant {
      ConflictFollows(w, d);
    } else {
      MessageFollows(w, d);
    }
  }

  lemma SaveFollows(w: Worker, d: Durable)
    requires Ready(w) && Alone(w, d) && w.local.Saving?
    ensures Follows(w, d)
  {
  }

  lemma EndFollows(w: Worker, d: Durable)
    requires Ready(w) && Alone(w, d)
    requires w.local.Retelling? || w.local.Finishing? || w.local.SealLooking? || w.local.SealInserting?
    ensures Follows(w, d)
  {
  }

  lemma MoveFollows(w: Worker, d: Durable)
    requires Ready(w) && Alone(w, d)
    ensures Follows(w, d)
  {
    match w.local
    case Loaded(_) => StartFollows(w, d);
    case Looping(_, _, _) => LoopFollows(w, d);
    case Looking(_, _, _) => LookFollows(w, d);
    case Inserting(_, _, _) => InsertFollows(w, d);
    case Saying(_, _) => SayFollows(w, d);
    case Saving(_, _) => SaveFollows(w, d);
    case Retelling(_, _) => EndFollows(w, d);
    case Finishing(_, _) => EndFollows(w, d);
    case SealLooking(_, _) => EndFollows(w, d);
    case SealInserting(_, _) => EndFollows(w, d);
    case _ =>
  }
}
