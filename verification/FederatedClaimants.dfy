/** What the workers of a federated turn do in the system of `FederatedOwners`: one that claims the turn and is left
    alone runs it to the end of a run; an ended turn stays as it ended; and nothing that is appended is lost. */
module FederatedClaimants {
  import opened Basics
  import opened FederatedTurn
  import opened FederatedSteps
  import opened FederatedOwners
  import FederatedSettlement

  // ----- a worker that is left alone -----

  lemma {:induction false} MovesFromFront(j: nat, n: nat)
    ensures MovesOf(j, n + 1) == [WorkerMove(j)] + MovesOf(j, n)
  {
    if n > 0 {
      MovesFromFront(j, n - 1);
    }
  }

  lemma ReachedFrom(sys: System, act: Act, rest: seq<Act>)
    requires AllReady(sys.workers)
    ensures AllReady(Next(sys, act).workers) && Reached(sys, [act] + rest) == Reached(Next(sys, act), rest)
  {
    NextIsReady(sys, act);
    assert ([act] + rest)[1..] == rest;
  }

  /** The state that the rest of a worker's writes ends in. */
  function EndOfRest(w: Worker, d: Durable): Durable
    requires Ready(w)
  {
    AfterWrites(d, Rest(w, d), |Rest(w, d)|)
  }

  lemma MoveKeepsTheEnd(w: Worker, d: Durable)
    requires Ready(w) && Alone(w, d)
    ensures var m := Move(w, true, d);
      Ready(After(w, m)) && Alone(After(w, m), m.d) && EndOfRest(After(w, m), m.d) == EndOfRest(w, d)
  {
    var m := Move(w, true, d);
    MoveFollows(w, d);
    MoveWrites(w, true, d);
    var rest := Rest(After(w, m), m.d);
    assert m.states == [] ==> [] + rest == rest;
    if |Rest(w, d)| > 0 {
      FederatedSettlement.WritesLater(d, m.states, m.d, rest, |Rest(w, d)|);
    }
  }

  /** It makes all its moves, and the turn is what the functions of a run say. */
  lemma {:induction false} MovesToTheEnd(sys: System, j: nat) returns (n: nat)
    requires AllReady(sys.workers) && j < |sys.workers| && sys.workers[j].claim == sys.claim
    requires Alone(sys.workers[j], sys.d)
    ensures Reached(sys, MovesOf(j, n)).d == EndOfRest(sys.workers[j], sys.d)
    decreases FederatedSettlement.EventsLeft(sys.workers[j]), FederatedSettlement.Phase(sys.workers[j].local),
              FederatedSettlement.PartsLeft(sys.workers[j])
  {
    var w := sys.workers[j];
    if w.local.Stopped? {
      n := 0;
    } else {
      var next := Next(sys, WorkerMove(j));
      NextIsReady(sys, WorkerMove(j));
      MoveKeepsTheEnd(w, sys.d);
      FederatedSettlement.MoveIsNearer(w, sys.d);
      var k := MovesToTheEnd(next, j);
      MovesFromFront(j, k);
      ReachedFrom(sys, WorkerMove(j), MovesOf(j, k));
      n := k + 1;
    }
  }

  /** A turn that has not ended can be claimed and loaded, and the worker, if nobody comes between its moves, brings
      it to the end of a whole run. */
  lemma SoleWorkerRuns(sys: System, script: Script) returns (n: nat)
    requires AllReady(sys.workers) && !sys.d.standing.Ended?
    ensures var claimed := sys.d.(standing := Claimed);
      var states := Run(script.policy, claimed, script.stream, script.ending);
      Reached(sys, [Claim] + ([TurnLoad(script)] + MovesOf(|sys.workers|, n))).d == AfterWrites(claimed, states, |states|)
  {
    var claimed, j := Next(sys, Claim), |sys.workers|;
    NextIsReady(sys, Claim);
    var loaded := Next(claimed, TurnLoad(script));
    NextIsReady(claimed, TurnLoad(script));
    n := MovesToTheEnd(loaded, j);
    ReachedFrom(claimed, TurnLoad(script), MovesOf(j, n));
    ReachedFrom(sys, Claim, [TurnLoad(script)] + MovesOf(j, n));
  }

  // ----- what nobody changes -----

  predicate SameEnding(a: Durable, b: Durable) {
    b.standing == a.standing && b.turn == a.turn && b.result == a.result
  }

  lemma UnownedMoveKeepsTheEnding(w: Worker, d: Durable)
    requires Ready(w)
    ensures SameEnding(d, Move(w, false, d).d)
  {}

  /** A turn that has ended stays ended, with its outcome and result, whatever its workers and others do. */
  lemma {:induction false} EndedTurnsStay(sys: System, acts: seq<Act>)
    requires AllReady(sys.workers) && sys.d.standing.Ended?
    ensures SameEnding(sys.d, Reached(sys, acts).d)
    decreases |acts|
  {
    if acts != [] {
      NextIsReady(sys, acts[0]);
      if acts[0].WorkerMove? && acts[0].j < |sys.workers| {
        UnownedMoveKeepsTheEnding(sys.workers[acts[0].j], sys.d);
      }
      EndedTurnsStay(Next(sys, acts[0]), acts[1..]);
    }
  }

  lemma MoveGrowsTheLog(w: Worker, owned: bool, d: Durable)
    requires Ready(w)
    ensures d.log <= Move(w, owned, d).d.log
  {}

  lemma NextGrowsTheLog(sys: System, act: Act)
    requires AllReady(sys.workers)
    ensures sys.d.log <= Next(sys, act).d.log
    ensures act.OthersAppend? ==> Next(sys, act).d.log == sys.d.log + [act.entry]
  {
    if act.WorkerMove? && act.j < |sys.workers| {
      MoveGrowsTheLog(sys.workers[act.j], Owns(sys, sys.workers[act.j]), sys.d);
    }
  }

  /** The log only grows, and has what others have appended. */
  lemma {:induction false} NothingIsLost(sys: System, acts: seq<Act>)
    requires AllReady(sys.workers)
    ensures sys.d.log <= Reached(sys, acts).d.log
    ensures forall k | 0 <= k < |acts| && acts[k].OthersAppend? :: acts[k].entry in Reached(sys, acts).d.log
    decreases |acts|
  {
    if acts != [] {
      var next, rest := Next(sys, acts[0]), acts[1..];
      NextIsReady(sys, acts[0]);
      NextGrowsTheLog(sys, acts[0]);
      NothingIsLost(next, rest);
      forall k | 0 <= k < |acts| && acts[k].OthersAppend?
        ensures acts[k].entry in Reached(sys, acts).d.log
      {
        if k == 0 {
          assert next.d.log[|sys.d.log|] == acts[0].entry;
          assert Reached(next, rest).d.log[|sys.d.log|] == acts[0].entry;
        } else {
          assert acts[k] == rest[k - 1];
        }
      }
    }
  }
}
