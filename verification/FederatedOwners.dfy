/** Many workers on one federated turn: a claim can expire and be given to another worker while the one before
    goes on. The writes of the turn are fenced by the claim, the appends to the log are not, and others append
    at any time. If every claim is loaded by one worker, the turn still settles once. */
module FederatedOwners {
  import opened Basics
  import opened FederatedTurn
  import opened FederatedSteps
  import opened FederatedSafety

  /** The stores, the number of the latest claim, and all workers that ever loaded the turn. */
  datatype System = System(d: Durable, claim: nat, workers: seq<Worker>)

  /** What may happen next, in any order. A load takes the claim that stands at the time. */
  datatype Act =
    | Claim
    | TurnLoad(script: Script)
    | WorkerMove(j: nat)
    | OthersAppend(entry: Entry)

  predicate AllReady(workers: seq<Worker>) {
    forall j | 0 <= j < |workers| :: Ready(workers[j])
  }

  predicate Owns(sys: System, w: Worker) {
    w.claim == sys.claim && sys.d.standing.Claimed?
  }

  predicate Possible(act: Act) {
    act.OthersAppend? ==> IsForeign(act.entry)
  }

  function MoveIn(sys: System, j: nat): Moved
    requires AllReady(sys.workers) && j < |sys.workers|
  {
    Move(sys.workers[j], Owns(sys, sys.workers[j]), sys.d)
  }

  function Next(sys: System, act: Act): System
    requires AllReady(sys.workers)
  {
    match act
    case Claim => if sys.d.standing.Ended? then sys else sys.(d := sys.d.(standing := Claimed), claim := sys.claim + 1)
    case TurnLoad(script) =>
      if !sys.d.standing.Claimed? then sys else sys.(workers := sys.workers + [Load(sys.claim, script, sys.d.turn)])
    case WorkerMove(j) =>
      if j >= |sys.workers| then sys
      else
        var m := MoveIn(sys, j);
        sys.(d := m.d, workers := sys.workers[j := After(sys.workers[j], m)])
    case OthersAppend(entry) => sys.(d := sys.d.(log := sys.d.log + [entry]))
  }

  lemma NextIsReady(sys: System, act: Act)
    requires AllReady(sys.workers)
    ensures AllReady(Next(sys, act).workers)
  {
    if act.WorkerMove? && act.j < |sys.workers| {
      MoveIsReady(sys.workers[act.j], Owns(sys, sys.workers[act.j]), sys.d);
    }
  }

  function Reached(sys: System, acts: seq<Act>): (r: System)
    requires AllReady(sys.workers)
    ensures AllReady(r.workers)
    decreases |acts|
  {
    if acts == [] then sys
    else
      NextIsReady(sys, acts[0]);
      Reached(Next(sys, acts[0]), acts[1..])
  }

  predicate LoadedOnce(workers: seq<Worker>) {
    forall i, j | 0 <= i < j < |workers| :: workers[i].claim != workers[j].claim
  }

  // ----- what every reachable system keeps -----

  predicate Seals(l: Local) {
    l.SealLooking? || l.SealInserting? || l.Closing?
  }

  predicate HasSeal(log: seq<Entry>) {
    exists i :: 0 <= i < |log| && IsSeal(log[i])
  }

  predicate AnySeals(workers: seq<Worker>) {
    exists j :: 0 <= j < |workers| && Seals(workers[j].local)
  }

  /** Some worker is past the save of an outcome, or was and has sealed the log. */
  predicate Committed(log: seq<Entry>, workers: seq<Worker>) {
    HasSeal(log) || AnySeals(workers)
  }

  predicate SameEnd(progress: Progress, outcome: Outcome, turn: TurnState) {
    turn.outcome == Some(outcome) && turn.progress.cursor == progress.cursor
  }

  /** A worker past its save has the stored outcome and cursor, and one that closes has sealed the log. */
  predicate Bound(l: Local, turn: TurnState, sealed: bool) {
    && (Seals(l) ==> SameEnd(l.progress, l.outcome, turn))
    && (l.Closing? ==> sealed)
  }

  /** A worker that can only settle the turn as it is stored. */
  predicate Decided(l: Local, turn: TurnState) {
    || l.Stopped? || l == Releasing(None) || Seals(l)
    || (l.Finishing? && SameEnd(l.progress, l.outcome, turn))
    || (l.Loaded? && l.turn.outcome.Some?)
  }

  predicate WorkerAgrees(w: Worker, claim: nat, turn: TurnState, sealed: bool, committed: bool) {
    && w.claim <= claim
    && Bound(w.local, turn, sealed)
    && (w.claim == claim && w.local.Loaded? ==> w.local.turn == turn)
    && (w.claim == claim && committed ==> Decided(w.local, turn))
  }

  predicate EndAgrees(d: Durable) {
    d.standing.Ended? ==>
      if d.turn.outcome.Some? then d.standing == EndOf(d.turn.outcome.value) && HasSeal(d.log)
      else Unsealed(d.log) && d.result == Some([])
  }

  predicate WorkersAgree(sys: System) {
    forall j | 0 <= j < |sys.workers| ::
      WorkerAgrees(sys.workers[j], sys.claim, sys.d.turn, HasSeal(sys.d.log), Committed(sys.d.log, sys.workers))
  }

  predicate Kept(sys: System) {
    && AllReady(sys.workers) && LoadedOnce(sys.workers) && WorkersAgree(sys)
    && AtMostOneSeal(sys.d.log) && SealsAgree(sys.d.log, sys.d.turn) && EndAgrees(sys.d)
    && (sys.d.standing.Ended? && sys.d.turn.outcome.None? ==> !AnySeals(sys.workers))
  }

  lemma KeptIsSafe(sys: System)
    requires Kept(sys)
    ensures Safe(sys.d)
  {}

  // ----- the ways in which a move changes the system -----

  /** Worker j goes on to another local state. */
  function WithLocal(sys: System, j: nat, l: Local): System
    requires j < |sys.workers|
  {
    sys.(workers := sys.workers[j := sys.workers[j].(local := l)])
  }

  lemma LocalChanges(sys: System, j: nat, l: Local)
    requires Kept(sys) && j < |sys.workers| && Ready(sys.workers[j].(local := l)) && !l.Loaded?
    requires Seals(l) ==> Seals(sys.workers[j].local)
    requires Bound(l, sys.d.turn, HasSeal(sys.d.log))
    requires sys.workers[j].claim == sys.claim && Committed(sys.d.log, sys.workers) ==> Decided(l, sys.d.turn)
    ensures Kept(WithLocal(sys, j, l))
  {
    var next := WithLocal(sys, j, l);
    assert AnySeals(next.workers) ==> AnySeals(sys.workers) by {
      if i :| 0 <= i < |next.workers| && Seals(next.workers[i].local) {
        assert Seals(sys.workers[i].local);
      }
    }
    forall i | 0 <= i < |next.workers|
      ensures WorkerAgrees(next.workers[i], next.claim, next.d.turn, HasSeal(next.d.log),
                           Committed(next.d.log, next.workers))
    {
      assert WorkerAgrees(sys.workers[i], sys.claim, sys.d.turn, HasSeal(sys.d.log), Committed(sys.d.log, sys.workers));
    }
  }

  /** A worker that has saved its outcome commits the turn to it. */
  lemma Commits(sys: System, j: nat)
    requires Kept(sys) && j < |sys.workers| && Owns(sys, sys.workers[j]) && sys.workers[j].local.Finishing?
    requires SameEnd(sys.workers[j].local.progress, sys.workers[j].local.outcome, sys.d.turn)
    ensures var l := sys.workers[j].local; Kept(WithLocal(sys, j, SealLooking(l.progress, l.outcome)))
  {
    var l := sys.workers[j].local;
    var next := WithLocal(sys, j, SealLooking(l.progress, l.outcome));
    forall i | 0 <= i < |next.workers|
      ensures WorkerAgrees(next.workers[i], next.claim, next.d.turn, HasSeal(next.d.log),
                           Committed(next.d.log, next.workers))
    {
      assert WorkerAgrees(sys.workers[i], sys.claim, sys.d.turn, HasSeal(sys.d.log), Committed(sys.d.log, sys.workers));
      assert i != j ==> sys.workers[i].claim != sys.workers[j].claim;
    }
  }

  predicate IsQuiet(entry: Entry) {
    !IsSeal(entry) && !entry.key.TerminalKey?
  }

  lemma LogGrows(sys: System, entry: Entry, message: Option<string>)
    requires Kept(sys) && IsQuiet(entry)
    ensures Kept(sys.(d := sys.d.(log := sys.d.log + [entry], message := message)))
  {
    var log, grown := sys.d.log, sys.d.log + [entry];
    QuietSeals(log, entry);
  }

  lemma QuietSeals(log: seq<Entry>, entry: Entry)
    requires IsQuiet(entry)
    ensures HasSeal(log + [entry]) <==> HasSeal(log)
  {
    var grown := log + [entry];
    if i :| 0 <= i < |log| && IsSeal(log[i]) {
      assert IsSeal(grown[i]);
    }
    if i :| 0 <= i < |grown| && IsSeal(grown[i]) {
      assert IsSeal(log[i]);
    }
  }

  lemma MessageChanges(sys: System, message: Option<string>)
    requires Kept(sys)
    ensures Kept(sys.(d := sys.d.(message := message)))
  {}

  /** A worker past its save seals the log, which has no seal yet. */
  lemma SealAdded(sys: System, j: nat)
    requires Kept(sys) && j < |sys.workers| && Seals(sys.workers[j].local)
    requires Find(sys.d.log, SealKey(sys.workers[j].local.progress)) == |sys.d.log|
    ensures var l := sys.workers[j].local;
      var log := sys.d.log + [Entry(SealKey(l.progress), TerminalFact(l.outcome), true, None)];
      Kept(sys.(d := sys.d.(log := log))) && HasSeal(log)
  {
    var l := sys.workers[j].local;
    var log, seal := sys.d.log, Entry(SealKey(l.progress), TerminalFact(l.outcome), true, None);
    var sealed := log + [seal];
    assert IsSeal(sealed[|log|]);
    assert WorkerAgrees(sys.workers[j], sys.claim, sys.d.turn, HasSeal(log), Committed(log, sys.workers));
    forall i | 0 <= i < |log|
      ensures !IsSeal(log[i])
    {
      assert log[i].key != SealKey(l.progress);
    }
    var next := sys.(d := sys.d.(log := sealed));
    forall i | 0 <= i < |next.workers|
      ensures WorkerAgrees(next.workers[i], next.claim, next.d.turn, HasSeal(sealed), Committed(sealed, next.workers))
    {
      assert WorkerAgrees(sys.workers[i], sys.claim, sys.d.turn, HasSeal(log), Committed(log, sys.workers));
    }
  }

  lemma SealIsThere(sys: System, at: nat)
    requires Kept(sys) && at < |sys.d.log| && sys.d.log[at].key.TerminalKey?
    ensures HasSeal(sys.d.log)
  {
    assert IsSeal(sys.d.log[at]);
  }

  /** The owner writes the turn; once committed, only as it is. */
  lemma TurnChanges(sys: System, j: nat, d: Durable)
    requires Kept(sys) && j < |sys.workers| && Owns(sys, sys.workers[j]) && !sys.workers[j].local.Loaded?
    requires d.log == sys.d.log && EndAgrees(d)
    requires Committed(sys.d.log, sys.workers) ==>
      && d.turn.outcome == sys.d.turn.outcome && d.turn.progress.cursor == sys.d.turn.progress.cursor
    requires d.standing.Ended? && d.turn.outcome.None? ==> !AnySeals(sys.workers)
    ensures Kept(sys.(d := d))
  {
    var next := sys.(d := d);
    forall i | 0 <= i < |next.workers|
      ensures WorkerAgrees(next.workers[i], next.claim, d.turn, HasSeal(d.log), Committed(d.log, next.workers))
    {
      assert WorkerAgrees(sys.workers[i], sys.claim, sys.d.turn, HasSeal(sys.d.log), Committed(sys.d.log, sys.workers));
      assert i != j ==> sys.workers[i].claim != sys.workers[j].claim;
    }
    forall i | 0 <= i < |d.log|
      ensures (IsSeal(d.log[i]) <==> d.log[i].key.TerminalKey?) && (IsSeal(d.log[i]) ==> SealAgrees(d.log[i], d.turn))
    {
      assert IsSeal(d.log[i]) ==> SealAgrees(d.log[i], sys.d.turn) && HasSeal(d.log);
    }
  }

  // ----- every move -----

  lemma WorkerIs(sys: System, j: nat)
    requires Kept(sys) && j < |sys.workers|
    ensures var w := sys.workers[j];
      WorkerAgrees(w, sys.claim, sys.d.turn, HasSeal(sys.d.log), Committed(sys.d.log, sys.workers))
  {}

  /** The moves that read, and the message writes: nothing that the invariant speaks of changes. */
  lemma QuietMove(sys: System, j: nat)
    requires Kept(sys) && j < |sys.workers|
    requires var l := sys.workers[j].local;
      l.Loaded? || l.Looping? || l.Looking? || l.Saying? || l.Retelling? || l.Stopped?
    ensures Kept(Next(sys, WorkerMove(j)))
  {
    WorkerIs(sys, j);
    var m := MoveIn(sys, j);
    MoveIsReady(sys.workers[j], Owns(sys, sys.workers[j]), sys.d);
    MessageChanges(sys, m.d.message);
    var said := sys.(d := sys.d.(message := m.d.message));
    assert m.d == said.d;
    LocalChanges(said, j, m.local);
  }

  lemma PartMove(sys: System, j: nat)
    requires Kept(sys) && j < |sys.workers| && sys.workers[j].local.Inserting?
    ensures Kept(Next(sys, WorkerMove(j)))
  {
    WorkerIs(sys, j);
    var w, m := sys.workers[j], MoveIn(sys, j);
    var work, k := w.local.work, w.local.k;
    var entry := Entry(PartKey(w.script, work, k), PartFact(w.script, work, k), true, Some(w.script.stream[work.i]));
    LogGrows(sys, entry, sys.d.message);
    var grown := if m.d.log == sys.d.log then sys else sys.(d := sys.d.(log := sys.d.log + [entry]));
    assert m.d == grown.d;
    WorkerIs(grown, j);
    LocalChanges(grown, j, m.local);
  }

  lemma SaveMove(sys: System, j: nat)
    requires Kept(sys) && j < |sys.workers| && sys.workers[j].local.Saving?
    ensures Kept(Next(sys, WorkerMove(j)))
  {
    WorkerIs(sys, j);
    var w, m := sys.workers[j], MoveIn(sys, j);
    if Owns(sys, w) {
      TurnChanges(sys, j, m.d);
      WorkerIs(sys.(d := m.d), j);
    }
    LocalChanges(sys.(d := m.d), j, m.local);
  }

  lemma FinishMove(sys: System, j: nat)
    requires Kept(sys) && j < |sys.workers| && sys.workers[j].local.Finishing?
    ensures Kept(Next(sys, WorkerMove(j)))
  {
    WorkerIs(sys, j);
    var w, m := sys.workers[j], MoveIn(sys, j);
    if Owns(sys, w) {
      TurnChanges(sys, j, m.d);
      Commits(sys.(d := m.d), j);
    } else {
      LocalChanges(sys, j, m.local);
    }
  }

  lemma SealLookMove(sys: System, j: nat)
    requires Kept(sys) && j < |sys.workers| && sys.workers[j].local.SealLooking?
    ensures Kept(Next(sys, WorkerMove(j)))
  {
    WorkerIs(sys, j);
    var m, at := MoveIn(sys, j), Find(sys.d.log, SealKey(sys.workers[j].local.progress));
    if at < |sys.d.log| {
      SealIsThere(sys, at);
    }
    LocalChanges(sys, j, m.local);
  }

  lemma SealInsertMove(sys: System, j: nat)
    requires Kept(sys) && j < |sys.workers| && sys.workers[j].local.SealInserting?
    ensures Kept(Next(sys, WorkerMove(j)))
  {
    WorkerIs(sys, j);
    var m, at := MoveIn(sys, j), Find(sys.d.log, SealKey(sys.workers[j].local.progress));
    if at < |sys.d.log| {
      SealIsThere(sys, at);
      LocalChanges(sys, j, m.local);
    } else {
      SealAdded(sys, j);
      LocalChanges(sys.(d := m.d), j, m.local);
    }
  }

  lemma EndMove(sys: System, j: nat)
    requires Kept(sys) && j < |sys.workers|
    requires var l := sys.workers[j].local; l.Closing? || l.Corrupting? || l.Releasing?
    ensures Kept(Next(sys, WorkerMove(j)))
  {
    WorkerIs(sys, j);
    var w, m := sys.workers[j], MoveIn(sys, j);
    if Owns(sys, w) {
      TurnChanges(sys, j, m.d);
      WorkerIs(sys.(d := m.d), j);
    }
    LocalChanges(sys.(d := m.d), j, m.local);
  }

  lemma MoveKeeps(sys: System, j: nat)
    requires Kept(sys) && j < |sys.workers|
    ensures Kept(Next(sys, WorkerMove(j)))
  {
    match sys.workers[j].local
    case Inserting(_, _, _) => PartMove(sys, j);
    case Saving(_, _) => SaveMove(sys, j);
    case Finishing(_, _) => FinishMove(sys, j);
    case SealLooking(_, _) => SealLookMove(sys, j);
    case SealInserting(_, _) => SealInsertMove(sys, j);
    case Closing(_, _) => EndMove(sys, j);
    case Corrupting => EndMove(sys, j);
    case Releasing(_) => EndMove(sys, j);
    case _ => QuietMove(sys, j);
  }

  lemma LoadKeeps(sys: System, script: Script)
    requires Kept(sys) && LoadedOnce(Next(sys, TurnLoad(script)).workers)
    ensures Kept(Next(sys, TurnLoad(script)))
  {
  }

  lemma ClaimKeeps(sys: System)
    requires Kept(sys)
    ensures Kept(Next(sys, Claim))
  {
  }

  lemma NextKeeps(sys: System, act: Act)
    requires Kept(sys) && Possible(act) && LoadedOnce(Next(sys, act).workers)
    ensures Kept(Next(sys, act))
  {
    match act
    case Claim => ClaimKeeps(sys);
    case TurnLoad(script) => LoadKeeps(sys, script);
    case WorkerMove(j) =>
      if j < |sys.workers| {
        MoveKeeps(sys, j);
      }
    case OthersAppend(entry) => LogGrows(sys, entry, sys.d.message);
  }

  // ----- every schedule -----

  /** Workers stay, with their claims. */
  lemma {:induction false} WorkersStay(sys: System, acts: seq<Act>)
    requires AllReady(sys.workers)
    ensures var reached := Reached(sys, acts);
      && |sys.workers| <= |reached.workers|
      && forall i | 0 <= i < |sys.workers| :: reached.workers[i].claim == sys.workers[i].claim
    decreases |acts|
  {
    if acts != [] {
      NextIsReady(sys, acts[0]);
      WorkersStay(Next(sys, acts[0]), acts[1..]);
    }
  }

  lemma LoadedOnceBefore(sys: System, acts: seq<Act>)
    requires AllReady(sys.workers) && LoadedOnce(Reached(sys, acts).workers)
    ensures LoadedOnce(sys.workers)
  {
    WorkersStay(sys, acts);
  }

  lemma {:induction false} SettlesOnce(sys: System, acts: seq<Act>)
    requires Kept(sys) && (forall k | 0 <= k < |acts| :: Possible(acts[k]))
    requires LoadedOnce(Reached(sys, acts).workers)
    ensures Kept(Reached(sys, acts))
    decreases |acts|
  {
    if acts != [] {
      NextIsReady(sys, acts[0]);
      LoadedOnceBefore(Next(sys, acts[0]), acts[1..]);
      NextKeeps(sys, acts[0]);
      SettlesOnce(Next(sys, acts[0]), acts[1..]);
    }
  }

  function Begin(d: Durable): System {
    System(d, 0, [])
  }

  /** For every interleaving of any number of workers, of claims and loads, and of the appends of others: if
      no claim is loaded twice, the log has at most one terminal event of the turn, and it agrees with the
      stored outcome and cursor. */
  lemma OneTerminalForManyOwners(d: Durable, acts: seq<Act>)
    requires Safe(d) && (forall k | 0 <= k < |acts| :: Possible(acts[k]))
    requires LoadedOnce(Reached(Begin(d), acts).workers)
    ensures Safe(Reached(Begin(d), acts).d)
  {
    SettlesOnce(Begin(d), acts);
    KeptIsSafe(Reached(Begin(d), acts));
  }

  // ----- a claim that is loaded twice -----

  lemma {:induction false} ReachedOneMore(sys: System, acts: seq<Act>, act: Act)
    requires AllReady(sys.workers)
    ensures Reached(sys, acts + [act]) == Next(Reached(sys, acts), act)
    decreases |acts|
  {
    if acts == [] {
      assert [act][1..] == [];
      NextIsReady(sys, act);
      assert acts + [act] == [act];
    } else {
      NextIsReady(sys, acts[0]);
      ReachedOneMore(Next(sys, acts[0]), acts[1..], act);
      assert (acts + [act])[1..] == acts[1..] + [act];
    }
  }

  function MovesOf(j: nat, n: nat): seq<Act> {
    if n == 0 then [] else MovesOf(j, n - 1) + [WorkerMove(j)]
  }

  function With(sys: System, j: nat, w: Worker, d: Durable): System
    requires j < |sys.workers|
  {
    sys.(d := d, workers := sys.workers[j := w])
  }

  lemma OwnMove(sys: System, j: nat, w: Worker, d: Durable)
    requires AllReady(sys.workers) && j < |sys.workers| && Ready(w) && w.claim == sys.claim && d.standing.Claimed?
    ensures AllReady(With(sys, j, w, d).workers)
    ensures var m := Move(w, true, d); Next(With(sys, j, w, d), WorkerMove(j)) == With(sys, j, After(w, m), m.d)
  {
    var now, m := With(sys, j, w, d), Move(w, true, d);
    assert now.workers[j] == w && MoveIn(now, j) == m;
    assert now.workers[j := After(w, m)] == sys.workers[j := After(w, m)];
  }

  /** Where a worker and the stores are. */
  datatype Spot = Spot(local: Local, d: Durable)

  /** One move that nobody comes between, with the claim standing. */
  predicate StepsTo(w: Worker, a: Spot, b: Spot) {
    && Ready(w.(local := a.local)) && a.d.standing.Claimed?
    && var m := Move(w.(local := a.local), true, a.d); m.local == b.local && m.d == b.d
  }

  predicate Path(w: Worker, path: seq<Spot>) {
    |path| > 0 && forall k: nat | k < |path| - 1 :: StepsTo(w, path[k], path[k + 1])
  }

  lemma {:induction false} PathIsReached(sys: System, j: nat, path: seq<Spot>, n: nat)
    requires AllReady(sys.workers) && j < |sys.workers| && sys.workers[j].claim == sys.claim
    requires n < |path| && Path(sys.workers[j], path) && path[0] == Spot(sys.workers[j].local, sys.d)
    ensures Reached(sys, MovesOf(j, n)) == With(sys, j, sys.workers[j].(local := path[n].local), path[n].d)
  {
    if n == 0 {
      assert sys.workers[j := sys.workers[j]] == sys.workers;
    } else {
      PathIsReached(sys, j, path, n - 1);
      ReachedOneMore(sys, MovesOf(j, n - 1), WorkerMove(j));
      assert StepsTo(sys.workers[j], path[n - 1], path[n - 1 + 1]);
      OwnMove(sys, j, sys.workers[j].(local := path[n - 1].local), path[n - 1].d);
    }
  }

  const NEW_TURN := Durable([], None, TurnState(START, None), Claimed, None)
  const COMPLETED := Event(1, Change(Completed, true))
  const FAILED_SEAL := Entry(TerminalKey(1), TurnFailed(RuntimeFailed), true, None)

  /** A worker whose stream is empty saves a failure and seals the log with it. */
  function FailingPath(): seq<Spot> {
    var d := NEW_TURN;
    var saved := d.(turn := TurnState(START, Some(RuntimeFailed)));
    var shown := START.(result := [Public(1, TurnFailed(RuntimeFailed))]);
    [Spot(Loaded(d.turn), d), Spot(Looping(START, None, 0), d), Spot(Finishing(START, RuntimeFailed), d),
     Spot(SealLooking(START, RuntimeFailed), saved), Spot(SealInserting(START, RuntimeFailed), saved),
     Spot(Closing(shown, RuntimeFailed), saved.(log := [FAILED_SEAL]))]
  }

  lemma FailingWorker(claim: nat, policy: Policy)
    ensures Path(Load(claim, Script(policy, [], Ends), NEW_TURN.turn), FailingPath())
  {
    var w, path := Load(claim, Script(policy, [], Ends), NEW_TURN.turn), FailingPath();
    assert StepsTo(w, path[0], path[1]);
    assert StepsTo(w, path[1], path[2]);
    assert StepsTo(w, path[2], path[3]);
    assert StepsTo(w, path[3], path[4]);
    assert StepsTo(w, path[4], path[5]);
  }

  const STATUS_PART := Entry(RuntimeKey(1, 0), RuntimeFact(1, StatusPart(Completed)), true, Some(COMPLETED))
  const DONE_SEAL := Entry(TerminalKey(2), TurnFinished, true, None)
  const DONE_WORK := Work(START, 0, Projection([StatusPart(Completed)], None, Some(Completed), Some(SILENCE)))

  function DoneProgress(): Progress {
    Advanced(START, COMPLETED, DONE_WORK.p, [Public(2, RuntimeFact(1, StatusPart(Completed)))])
  }

  /** Behind it, a worker that loaded before it and whose runtime completes. */
  function DonePath(): seq<Spot> {
    var d := NEW_TURN.(log := [FAILED_SEAL], turn := TurnState(START, Some(RuntimeFailed)));
    var grown := d.(log := [FAILED_SEAL, STATUS_PART]);
    var next, shown := DoneProgress(), [Public(2, RuntimeFact(1, StatusPart(Completed)))];
    var saved := grown.(turn := TurnState(next, Some(Done)));
    [Spot(Loaded(NEW_TURN.turn), d), Spot(Looping(START, None, 0), d), Spot(Looking(DONE_WORK, 0, []), d),
     Spot(Inserting(DONE_WORK, 0, []), d), Spot(Looking(DONE_WORK, 1, shown), grown),
     Spot(Saying(DONE_WORK, shown), grown), Spot(Saving(DONE_WORK, shown), grown),
     Spot(Looping(next, Some(Completed), 1), saved), Spot(Finishing(next, Done), saved),
     Spot(SealLooking(next, Done), saved), Spot(SealInserting(next, Done), saved),
     Spot(Closing(next.(result := shown + [Public(3, TurnFinished)]), Done),
          saved.(log := [FAILED_SEAL, STATUS_PART, DONE_SEAL]))]
  }

  lemma DoneWorkerStarts(claim: nat, policy: Policy)
    ensures var w, path := Load(claim, Script(policy, [COMPLETED], Ends), NEW_TURN.turn), DonePath();
      StepsTo(w, path[0], path[1])
  {
    assert [FAILED_SEAL][..0] == [] && TerminalEntries([FAILED_SEAL]) == TerminalEntries([]);
  }

  lemma DoneWorkerJudges(claim: nat, policy: Policy)
    ensures var w, path := Load(claim, Script(policy, [COMPLETED], Ends), NEW_TURN.turn), DonePath();
      StepsTo(w, path[1], path[2])
  {
    assert Judge(policy, START, [COMPLETED], 0) == Advance(DONE_WORK.p);
  }

  lemma DoneWorkerTakes(claim: nat, policy: Policy)
    ensures var w, path := Load(claim, Script(policy, [COMPLETED], Ends), NEW_TURN.turn), DonePath();
      forall k: nat | 2 <= k < 7 :: StepsTo(w, path[k], path[k + 1])
  {
    var w, path := Load(claim, Script(policy, [COMPLETED], Ends), NEW_TURN.turn), DonePath();
    assert StepsTo(w, path[2], path[3]);
    assert StepsTo(w, path[3], path[4]);
    assert StepsTo(w, path[4], path[5]);
    assert StepsTo(w, path[5], path[6]);
    assert StepsTo(w, path[6], path[7]);
  }

  lemma DoneWorkerEnds(claim: nat, policy: Policy)
    ensures var w, path := Load(claim, Script(policy, [COMPLETED], Ends), NEW_TURN.turn), DonePath();
      forall k: nat | 7 <= k < 11 :: StepsTo(w, path[k], path[k + 1])
  {
    var w, path := Load(claim, Script(policy, [COMPLETED], Ends), NEW_TURN.turn), DonePath();
    assert StepsTo(w, path[7], path[8]);
    assert StepsTo(w, path[8], path[9]);
    assert StepsTo(w, path[9], path[10]);
    assert StepsTo(w, path[10], path[11]);
  }

  lemma DoneWorker(claim: nat, policy: Policy)
    ensures Path(Load(claim, Script(policy, [COMPLETED], Ends), NEW_TURN.turn), DonePath())
  {
    DoneWorkerStarts(claim, policy);
    DoneWorkerJudges(claim, policy);
    DoneWorkerTakes(claim, policy);
    DoneWorkerEnds(claim, policy);
  }

  lemma {:induction false} ReachedTogether(sys: System, a: seq<Act>, b: seq<Act>)
    requires AllReady(sys.workers)
    ensures Reached(sys, a + b) == Reached(Reached(sys, a), b)
    decreases |b|
  {
    if b == [] {
      assert a + b == a;
    } else {
      var n := |b| - 1;
      ReachedTogether(sys, a, b[..n]);
      ReachedOneMore(sys, a + b[..n], b[n]);
      ReachedOneMore(Reached(sys, a), b[..n], b[n]);
      assert a + b == a + b[..n] + [b[n]] && b == b[..n] + [b[n]];
    }
  }

  /** One worker claims and comes late, another claims after it, and both load the turn under the second
      claim: the fence does not tell them apart. */
  function TwoLoads(policy: Policy): seq<Act> {
    [Claim, Claim, TurnLoad(Script(policy, [], Ends)), TurnLoad(Script(policy, [COMPLETED], Ends))]
  }

  lemma TwoLoadsReach(policy: Policy)
    ensures Reached(Begin(NEW_TURN), TwoLoads(policy)) == System(NEW_TURN, 2,
      [Load(2, Script(policy, [], Ends), NEW_TURN.turn), Load(2, Script(policy, [COMPLETED], Ends), NEW_TURN.turn)])
  {
    var acts, sys := TwoLoads(policy), Begin(NEW_TURN);
    assert acts[1..] == [Claim] + acts[2..] && acts[2..] == [acts[2]] + acts[3..] && acts[3..] == [acts[3]];
    assert Next(Next(sys, Claim), Claim) == System(NEW_TURN, 2, []);
    var one := Next(System(NEW_TURN, 2, []), acts[2]);
    assert Reached(sys, acts) == Reached(Next(sys, Claim), acts[1..]);
    assert Reached(Next(sys, Claim), acts[1..]) == Reached(System(NEW_TURN, 2, []), acts[2..]);
    assert Reached(System(NEW_TURN, 2, []), acts[2..]) == Reached(one, acts[3..]);
    assert acts[3..][1..] == [];
    assert Reached(one, acts[3..]) == Next(one, acts[3]);
  }

  /** That no claim is loaded twice is needed: otherwise the log can get two terminal events. */
  lemma LateLoadBreaksSafety(policy: Policy)
    ensures var acts := TwoLoads(policy) + MovesOf(0, 5) + MovesOf(1, 11);
      !AtMostOneSeal(Reached(Begin(NEW_TURN), acts).d.log)
  {
    var sys := Reached(Begin(NEW_TURN), TwoLoads(policy));
    TwoLoadsReach(policy);
    FailingWorker(2, policy);
    PathIsReached(sys, 0, FailingPath(), 5);
    var failed := Reached(sys, MovesOf(0, 5));
    DoneWorker(2, policy);
    PathIsReached(failed, 1, DonePath(), 11);
    ReachedTogether(Begin(NEW_TURN), TwoLoads(policy), MovesOf(0, 5));
    ReachedTogether(Begin(NEW_TURN), TwoLoads(policy) + MovesOf(0, 5), MovesOf(1, 11));
    var log := Reached(failed, MovesOf(1, 11)).d.log;
    assert log == [FAILED_SEAL, STATUS_PART, DONE_SEAL];
    assert IsSeal(log[0]) && IsSeal(log[2]);
  }
}
