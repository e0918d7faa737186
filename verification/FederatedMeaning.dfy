/** What a federated turn means: a plain fold of the runtime's events that knows no store, no keys and
    no crashes, and what holds at every point of that fold. */
module FederatedMeaning {
  import opened Basics
  import opened FederatedTurn

  /** A turn of a session, before anything of it is published. */
  datatype Setting = Setting(policy: Policy, log: seq<Entry>, stream: seq<Event>, ending: Ending)

  /** The log and the progress after some of the events. */
  datatype Point = Point(log: seq<Entry>, progress: Progress)

  // ----- the reference -----

  function EntryOf(e: Event, part: Part, k: nat): Entry {
    Entry(RuntimeKey(e.cursor, k), RuntimeFact(e.cursor, part), true, Some(e))
  }

  /** The log entries of the first `n` parts. */
  function Written(e: Event, parts: seq<Part>, n: nat): (r: seq<Entry>)
    requires n <= |parts|
    ensures |r| == n && forall k | 0 <= k < n :: r[k] == EntryOf(e, parts[k], k)
  {
    if n == 0 then [] else Written(e, parts, n - 1) + [EntryOf(e, parts[n - 1], n - 1)]
  }

  function Grown(log: seq<Entry>, e: Event, parts: seq<Part>, n: nat): (r: seq<Entry>)
    requires n <= |parts|
    ensures |r| == |log| + n
    ensures forall i | 0 <= i < |log| :: r[i] == log[i]
    ensures forall k | 0 <= k < n :: r[|log| + k] == EntryOf(e, parts[k], k)
  {
    log + Written(e, parts, n)
  }

  lemma GrowsByOne(log: seq<Entry>, e: Event, parts: seq<Part>, n: nat)
    requires n < |parts|
    ensures Grown(log, e, parts, n + 1) == Grown(log, e, parts, n) + [EntryOf(e, parts[n], n)]
  {}

  /** What the first `n` parts show, the first one being the log's entry number `at`. */
  function Publics(at: nat, e: Event, parts: seq<Part>, n: nat): seq<Public>
    requires n <= |parts|
  {
    if n == 0 then []
    else Publics(at, e, parts, n - 1) + Shows(RuntimeFact(e.cursor, parts[n - 1]), at + n - 1)
  }

  function Extend(point: Point, e: Event, p: Projection): Point {
    var result := point.progress.result + Publics(|point.log|, e, p.parts, |p.parts|);
    Point(Grown(point.log, e, p.parts, |p.parts|), Advanced(point.progress, e, p, result))
  }

  function Seal(point: Point, outcome: Outcome): Entry {
    Entry(TerminalKey(point.progress.cursor + 1), TerminalFact(outcome), true, None)
  }

  /** The turn settled with `outcome` at a point. */
  function Settled(point: Point, outcome: Outcome): Durable {
    var result := point.progress.result + [Public(|point.log| + 1, TerminalFact(outcome))];
    Durable(point.log + [Seal(point, outcome)], point.progress.assistant,
            TurnState(point.progress.(result := result), Some(outcome)), EndOf(outcome), Some(result))
  }

  /** Endings that settle the turn. */
  predicate Conclusive(ending: Ending) {
    ending.Ends? || ending.Fails? || ending.Breaks?
  }

  function OutcomeAtEnd(ending: Ending, terminal: Option<Status>): Outcome
    requires Conclusive(ending) && (terminal.Some? ==> terminal.value.IsTerminal())
  {
    match ending
    case Ends => if terminal.Some? then OutcomeOf(terminal.value) else RuntimeFailed
    case Fails(category) => category
    case _ => RuntimeFailed
  }

  /** How the turn ends: the first terminal event settles it, or the first error, or the stream's end. */
  function Meaning(s: Setting, point: Point, i: nat): Durable
    requires i <= |s.stream| && Conclusive(s.ending)
    decreases |s.stream| - i
  {
    if i == |s.stream| then Settled(point, OutcomeAtEnd(s.ending, None))
    else
      match Judge(s.policy, point.progress, s.stream, i)
      case Skip => Meaning(s, point, i + 1)
      case Reject => Settled(point, RuntimeFailed)
      case Advance(p) =>
        var next := Extend(point, s.stream[i], p);
        if TerminalOf(p).Some? then Settled(next, OutcomeOf(p.terminal.value)) else Meaning(s, next, i + 1)
  }

  /** The point before the `i`-th event, if the turn is not settled by then. */
  function PointAt(s: Setting, i: nat): Option<Point>
    requires i <= |s.stream|
  {
    if i == 0 then Some(Point(s.log, START))
    else
      var before := PointAt(s, i - 1);
      if before.None? then None
      else
        match Judge(s.policy, before.value.progress, s.stream, i - 1)
        case Skip => before
        case Reject => None
        case Advance(p) => if TerminalOf(p).Some? then None else Some(Extend(before.value, s.stream[i - 1], p))
  }

  predicate ReachesTerminal(s: Setting, t: nat) {
    && t < |s.stream| && PointAt(s, t).Some?
    && var v := Judge(s.policy, PointAt(s, t).value.progress, s.stream, t);
       v.Advance? && TerminalOf(v.projection).Some?
  }

  function TerminalAt(s: Setting, t: nat): (r: Status)
    requires ReachesTerminal(s, t)
    ensures r.IsTerminal()
  {
    TerminalOf(Judge(s.policy, PointAt(s, t).value.progress, s.stream, t).projection).value
  }

  predicate OnlyRepeats(stream: seq<Event>, t: nat)
    requires t < |stream|
  {
    forall k | t < k < |stream| :: stream[k] == stream[t]
  }

  /** What the loop makes of the stream's end once the `t`-th event has brought a terminal. */
  function OutcomeAfter(stream: seq<Event>, t: nat, ending: Ending, terminal: Status): Outcome
    requires t < |stream| && Conclusive(ending) && terminal.IsTerminal()
  {
    if OnlyRepeats(stream, t) then OutcomeAtEnd(ending, Some(terminal)) else RuntimeFailed
  }

  /** If the stream brings a terminal, nothing behind it leads to another outcome: it only repeats the
      terminal event and then ends, or its failure amounts to the same. */
  ghost predicate Undisturbed(s: Setting)
    requires Conclusive(s.ending)
  {
    forall t: nat | ReachesTerminal(s, t) ::
      OutcomeAfter(s.stream, t, s.ending, TerminalAt(s, t)) == OutcomeOf(TerminalAt(s, t))
  }

  predicate IsFresh(log: seq<Entry>) {
    forall i | 0 <= i < |log| :: log[i].key.OtherKey? && !Tagged(log[i]) && !IsTerminalEntry(log[i])
  }

  /** Everything but the buffered text, which recovery rebuilds in a normal form. */
  function Blind(d: Durable): Durable {
    d.(turn := d.turn.(progress := d.turn.progress.(text := None)))
  }

  function Fresh(s: Setting): Durable {
    Durable(s.log, None, TurnState(START, None), Claimed, None)
  }

  // ----- what projections are like -----

  predicate TextAgrees(t: Text, said: Option<string>) {
    if t.completed then t.body != "" && said == Some(t.body) else said == None
  }

  predicate IsStop(part: Part) {
    part.StatusPart? && part.status.IsTerminal()
  }

  predicate Says(parts: seq<Part>, said: Option<string>) {
    forall k | 0 <= k < |parts| && parts[k].MessagePart? :: parts[k].content != "" && said == Some(parts[k].content)
  }

  /** A terminal status comes last among its event's parts. */
  predicate StopsLast(parts: seq<Part>, terminal: Option<Status>) {
    && (terminal.Some? ==> |parts| > 0 && IsStop(parts[|parts| - 1]) && parts[|parts| - 1].status == terminal.value)
    && forall k | 0 <= k < |parts| && IsStop(parts[k]) :: terminal.Some? && k == |parts| - 1
  }

  function SaidAfter(p: Projection, said: Option<string>): Option<string> {
    if p.assistant.Some? then p.assistant else said
  }

  lemma ProjectionFacts(policy: Policy, body: Body, t: Text, said: Option<string>)
    requires TextAgrees(t, said) && Project(policy, body, Some(t)).Some?
    ensures var p := Project(policy, body, Some(t)).value;
      && p.text.Some? && TextAgrees(p.text.value, SaidAfter(p, said))
      && (said.Some? ==> SaidAfter(p, said) == said)
      && Says(p.parts, SaidAfter(p, said))
      && (SaidAfter(p, said) != said ==> exists k :: 0 <= k < |p.parts| && p.parts[k].MessagePart?)
      && StopsLast(p.parts, TerminalOf(p))
  {
    var p := Project(policy, body, Some(t)).value;
    if SaidAfter(p, said) != said {
      var k := if p.parts[0].MessagePart? then 0 else 1;
      assert p.parts[k].MessagePart?;
    }
  }

  // ----- what the points are like -----

  predicate KeysUpTo(log: seq<Entry>, cursor: nat) {
    forall i | 0 <= i < |log| :: !log[i].key.TerminalKey? && (log[i].key.RuntimeKey? ==> log[i].key.cursor <= cursor)
  }

  predicate NoStops(log: seq<Entry>) {
    forall i | 0 <= i < |log| :: !IsTerminalEntry(log[i])
  }

  predicate SaysOnly(entry: Entry, said: Option<string>) {
    Tagged(entry) && entry.fact.RuntimeFact? && entry.fact.part.MessagePart? ==>
      entry.fact.part.content != "" && said == Some(entry.fact.part.content)
  }

  predicate LogSays(log: seq<Entry>, said: Option<string>) {
    forall i | 0 <= i < |log| :: SaysOnly(log[i], said)
  }

  /** What the turn's own entries of a log show. */
  function Rebuilt(log: seq<Entry>): seq<Public> {
    if log == [] then []
    else
      var n := |log| - 1;
      Rebuilt(log[..n]) + if Tagged(log[n]) then Shows(log[n].fact, n) else []
  }

  predicate Remembers(progress: Progress, e: Event) {
    e.cursor <= progress.cursor && e.cursor in progress.digests && progress.digests[e.cursor] == e
  }

  predicate RemembersAll(progress: Progress, stream: seq<Event>, i: nat)
    requires i <= |stream|
  {
    forall k | 0 <= k < i :: Remembers(progress, stream[k])
  }

  ghost predicate InOrder(stream: seq<Event>, i: nat)
    requires i <= |stream|
  {
    forall j, k | 0 <= j < k < i && k == j + 1 :: stream[j].cursor <= stream[k].cursor <= stream[j].cursor + 1
  }

  ghost predicate Sound(s: Setting, i: nat, point: Point)
    requires i <= |s.stream|
  {
    var progress := point.progress;
    && KeysUpTo(point.log, progress.cursor)
    && NoStops(point.log)
    && LogSays(point.log, progress.assistant)
    && Rebuilt(point.log) == progress.result
    && progress.text.Some? && TextAgrees(progress.text.value, progress.assistant)
    && RemembersAll(progress, s.stream, i) && InOrder(s.stream, i)
  }

  lemma {:induction false} FreshRebuildsNothing(log: seq<Entry>)
    requires IsFresh(log)
    ensures Rebuilt(log) == []
  {
    if log != [] {
      FreshRebuildsNothing(log[..|log| - 1]);
    }
  }

  lemma {:induction false} RebuiltGrows(log: seq<Entry>, e: Event, parts: seq<Part>, n: nat)
    requires n <= |parts|
    ensures Rebuilt(Grown(log, e, parts, n)) == Rebuilt(log) + Publics(|log|, e, parts, n)
  {
    if n == 0 {
      assert Grown(log, e, parts, 0) == log;
    } else {
      var entry, shows := EntryOf(e, parts[n - 1], n - 1), Shows(RuntimeFact(e.cursor, parts[n - 1]), |log| + n - 1);
      calc {
        Rebuilt(Grown(log, e, parts, n));
        { GrowsByOne(log, e, parts, n - 1); }
        Rebuilt(Grown(log, e, parts, n - 1) + [entry]);
        { RebuiltOneMore(Grown(log, e, parts, n - 1), entry); }
        Rebuilt(Grown(log, e, parts, n - 1)) + shows;
        { RebuiltGrows(log, e, parts, n - 1); }
        Rebuilt(log) + Publics(|log|, e, parts, n - 1) + shows;
        { ShownAssociates(Rebuilt(log), Publics(|log|, e, parts, n - 1), shows); }
        Rebuilt(log) + Publics(|log|, e, parts, n);
      }
    }
  }

  lemma ShownAssociates(a: seq<Public>, b: seq<Public>, c: seq<Public>)
    ensures a + b + c == a + (b + c)
  {}

  lemma RebuiltOneMore(log: seq<Entry>, entry: Entry)
    ensures Rebuilt(log + [entry]) == Rebuilt(log) + if Tagged(entry) then Shows(entry.fact, |log|) else []
  {
    assert (log + [entry])[..|log|] == log;
  }

  /** The next cursor's entries keep the log as a point's log should be. */
  lemma LogGrows(log: seq<Entry>, e: Event, parts: seq<Part>, said: Option<string>, after: Option<string>)
    requires KeysUpTo(log, e.cursor) && LogSays(log, said) && (said.Some? ==> after == said) && Says(parts, after)
    ensures KeysUpTo(Grown(log, e, parts, |parts|), e.cursor)
    ensures LogSays(Grown(log, e, parts, |parts|), after)
  {
    var grown := Grown(log, e, parts, |parts|);
    forall i | 0 <= i < |grown|
      ensures SaysOnly(grown[i], after)
      ensures !grown[i].key.TerminalKey? && (grown[i].key.RuntimeKey? ==> grown[i].key.cursor <= e.cursor)
    {
      if |log| <= i {
        assert grown[i] == EntryOf(e, parts[i - |log|], i - |log|);
      } else {
        assert grown[i] == log[i] && SaysOnly(log[i], said);
      }
    }
  }

  lemma NoStopsGrow(log: seq<Entry>, e: Event, parts: seq<Part>)
    requires NoStops(log) && StopsLast(parts, None)
    ensures NoStops(Grown(log, e, parts, |parts|))
  {
    var grown := Grown(log, e, parts, |parts|);
    forall i | 0 <= i < |grown|
      ensures !IsTerminalEntry(grown[i])
    {
      if |log| <= i {
        assert grown[i] == EntryOf(e, parts[i - |log|], i - |log|);
      }
    }
  }

  /** One event keeps a point sound. */
  lemma ExtendIsSound(s: Setting, i: nat, point: Point, p: Projection)
    requires i < |s.stream| && Sound(s, i, point)
    requires Judge(s.policy, point.progress, s.stream, i) == Advance(p)
    ensures var next := Extend(point, s.stream[i], p);
      && KeysUpTo(next.log, next.progress.cursor) && LogSays(next.log, next.progress.assistant)
      && Rebuilt(next.log) == next.progress.result
      && next.progress.text.Some? && TextAgrees(next.progress.text.value, next.progress.assistant)
      && (point.progress.assistant.Some? ==> next.progress.assistant == point.progress.assistant)
      && StopsLast(p.parts, TerminalOf(p))
      && (TerminalOf(p).None? ==> NoStops(next.log))
  {
    var e, before := s.stream[i], point.progress;
    ProjectionFacts(s.policy, e.body, before.text.value, before.assistant);
    LogGrows(point.log, e, p.parts, before.assistant, SaidAfter(p, before.assistant));
    RebuiltGrows(point.log, e, p.parts, |p.parts|);
    if TerminalOf(p).None? {
      NoStopsGrow(point.log, e, p.parts);
    }
  }

  lemma ExtendRemembers(s: Setting, i: nat, point: Point, p: Projection)
    requires i < |s.stream| && Sound(s, i, point)
    requires Judge(s.policy, point.progress, s.stream, i) == Advance(p)
    ensures RemembersAll(Extend(point, s.stream[i], p).progress, s.stream, i + 1)
    ensures InOrder(s.stream, i + 1)
  {
    var next := Extend(point, s.stream[i], p).progress;
    forall k | 0 <= k < i + 1
      ensures Remembers(next, s.stream[k])
    {
      if k < i {
        assert Remembers(point.progress, s.stream[k]);
      }
    }
  }

  lemma {:induction false} PointsAreSound(s: Setting, i: nat)
    requires i <= |s.stream| && IsFresh(s.log) && PointAt(s, i).Some?
    ensures Sound(s, i, PointAt(s, i).value)
  {
    if i == 0 {
      FreshRebuildsNothing(s.log);
    } else {
      PointsAreSound(s, i - 1);
      NextIsSound(s, i - 1, PointAt(s, i - 1).value);
    }
  }

  lemma NextIsSound(s: Setting, i: nat, point: Point)
    requires i < |s.stream| && Sound(s, i, point)
    ensures match Judge(s.policy, point.progress, s.stream, i)
      case Skip => Sound(s, i + 1, point)
      case Reject => true
      case Advance(p) => TerminalOf(p).None? ==> Sound(s, i + 1, Extend(point, s.stream[i], p))
  {
    match Judge(s.policy, point.progress, s.stream, i)
    case Skip =>
    case Reject =>
    case Advance(p) =>
      ExtendIsSound(s, i, point, p);
      ExtendRemembers(s, i, point, p);
  }

  lemma {:induction false} MeaningAt(s: Setting, i: nat)
    requires i <= |s.stream| && Conclusive(s.ending) && PointAt(s, i).Some?
    ensures Meaning(s, PointAt(s, i).value, i) == Meaning(s, Point(s.log, START), 0)
  {
    if i > 0 {
      MeaningAt(s, i - 1);
    }
  }
}
