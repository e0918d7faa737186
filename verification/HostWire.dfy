/** The rules of the Host v2 event wire, as both runtime hosts keep them: the events of a query carry one
    identity and the cursors 1, 2, 3 and so on, and its terminal event is its last. */
module HostWire {
  datatype Identity = Identity(run: string, term: string, step: string)

  /** An event as the rules see it. */
  datatype Event = Event(identity: Identity, cursor: nat, terminal: bool)

  /** A query's first event has cursor 1 and comes where no query is open; the others continue it. */
  predicate MayFollow(before: seq<Event>, next: Event) {
    if next.cursor == 1 then before != [] ==> before[|before| - 1].terminal
    else
      && before != []
      && var last := before[|before| - 1];
         !last.terminal && next.identity == last.identity && next.cursor == last.cursor + 1
  }

  predicate FollowsAt(events: seq<Event>, i: nat)
    requires i < |events|
  {
    MayFollow(events[..i], events[i])
  }

  predicate Lawful(events: seq<Event>) {
    forall i: nat | i < |events| :: FollowsAt(events, i)
  }

  lemma LawfulNext(events: seq<Event>, next: Event)
    requires Lawful(events) && MayFollow(events, next)
    ensures Lawful(events + [next])
  {
    forall i: nat | i < |events + [next]|
      ensures FollowsAt(events + [next], i)
    {
      assert i < |events| ==> FollowsAt(events, i);
      assert (events + [next])[..i] == events[..i];
    }
  }

  /** Where the query of the `i`-th event starts. */
  function StartOf(events: seq<Event>, i: nat): (s: nat)
    requires i < |events|
    ensures s <= i
  {
    if events[i].cursor == 1 || i == 0 then i else StartOf(events, i - 1)
  }

  /** A query's events have its identity and the cursors 1, 2, 3 and so on, and none but the last is terminal. */
  lemma {:induction false} CursorsRunFromOne(events: seq<Event>, i: nat)
    requires Lawful(events) && i < |events|
    ensures var s := StartOf(events, i);
      && events[s].cursor == 1 && events[i].cursor == i - s + 1
      && forall k | s <= k < i :: events[k].identity == events[i].identity && !events[k].terminal
  {
    assert FollowsAt(events, i);
    if events[i].cursor != 1 {
      CursorsRunFromOne(events, i - 1);
      assert events[..i][|events[..i]| - 1] == events[i - 1];
    }
  }

  /** A corollary for every wire of a host: a terminal event is the last of its query, and what comes next
      starts another. */
  lemma TerminalEndsQuery(events: seq<Event>, i: nat)
    requires Lawful(events) && i + 1 < |events| && events[i].terminal
    ensures events[i + 1].cursor == 1
  {
    assert FollowsAt(events, i + 1);
    assert events[..i + 1][|events[..i + 1]| - 1] == events[i];
  }

  /** The events of the query that the `i`-th event belongs to, up to that event. */
  function QueryUpTo(events: seq<Event>, i: nat): (query: seq<Event>)
    requires i < |events|
    ensures |query| == i - StartOf(events, i) + 1
    ensures forall k | 0 <= k < |query| :: query[k] == events[StartOf(events, i) + k]
  {
    events[StartOf(events, i)..i + 1]
  }
}
