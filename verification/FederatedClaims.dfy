/** Claims of a stored turn: the crash equivalence, brought to the worker. */
module FederatedClaims {
  import opened FederatedTurn
  import opened FederatedMeaning
  import opened FederatedCrash
  import opened FederatedOutcomes
  import opened FederatedWorker

  ghost predicate FineFrom(s: Setting, history: seq<Durable>, n: nat)
    requires Conclusive(s.ending)
  {
    n <= |history| && forall k | n <= k < |history| :: Fine(s, history[k])
  }

  lemma CompletesBehind(s: Setting, history: seq<Durable>, states: seq<Durable>)
    requires Conclusive(s.ending) && Completes(s, states)
    ensures FineFrom(s, history + states, |history|)
    ensures Arrived(s, (history + states)[|history + states| - 1])
  {
    var all := history + states;
    forall k | |history| <= k < |all|
      ensures Fine(s, all[k])
    {
      assert all[k] == states[k - |history|];
    }
  }

  /** A claim from any state that a crash can have left behind settles the turn as the fold of its events
      says, which is what the runtime told, and leaves only such states behind on its way. */
  method SettleTurn(store: TurnStore, s: Setting)
    requires IsFresh(s.log) && Conclusive(s.ending) && Undisturbed(s) && Fine(s, store.Now()) && !store.standing.Ended?
    modifies store
    ensures Arrived(s, store.Now()) && EndsAsTold(s, store.Now())
    ensures FineFrom(s, store.history, old(|store.history|))
  {
    ghost var d, start := store.Now(), store.history;
    FineRunCompletes(s, d);
    CompletesBehind(s, start, Run(s.policy, d, s.stream, s.ending));
    store.ProcessTurn(s.policy, s.stream, s.ending);
    SettledTurnsTell(s, store.Now());
  }
}
