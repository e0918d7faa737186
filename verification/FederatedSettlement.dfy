/** How a federated turn settles, move by move: crashes and the appends of others may come between any two
    moves of the worker. */
module FederatedSettlement {
  import opened Basics
  import opened FederatedTurn
  import opened FederatedMeaning
  import opened FederatedCrash
  import opened FederatedEquivalence
  import opened FederatedSteps
  import opened FederatedCompany

  // ----- a play alone stays on the way to the goal -----

  /** What is left to write leads to the goal, or the goal is reached. */
  ghost predicate OnCourse(s: Setting, x: Play)
    requires Conclusive(s.ending)
  {
    && Ready(x.w) && Alone(x.w, x.d) && x.w.script == Script(s.policy, s.stream, s.ending)
    && if x.d.standing.Ended? then Arrived(s, x.d) && x.w.local.Stopped?
       else Fine(s, x.d) && Completes(s, Rest(x.w, x.d))
  }

  lemma FineIsClaimed(s: Setting, x: Durable)
    requires Conclusive(s.ending) && Fine(s, x) && !x.standing.Ended?
    ensures x.standing.Claimed?
  {}

  lemma BeginsOnCourse(s: Setting, x: Durable)
    requires IsFresh(s.log) && Conclusive(s.ending) && Undisturbed(s) && Fine(s, x) && !x.standing.Ended?
    ensures OnCourse(s, Begin(s, x))
  {
    FineIsClaimed(s, x);
    FineRunCompletes(s, x);
  }

  lemma CompletesLater(s: Setting, first: Durable, rest: seq<Durable>)
    requires Conclusive(s.ending) && Completes(s, [first] + rest)
    ensures Fine(s, first) && (if rest == [] then Arrived(s, first) else Completes(s, rest))
  {
    var all := [first] + rest;
    assert all[0] == first && all[|all| - 1] == if rest == [] then first else rest[|rest| - 1];
    assert forall i | 0 <= i < |rest| :: rest[i] == all[i + 1];
  }

  lemma MovesOnCourse(s: Setting, x: Play)
    requires Conclusive(s.ending) && OnCourse(s, x)
    ensures OnCourse(s, NextPlay(s, x, Works))
  {
    MoveFollows(x.w, x.d);
    MoveWrites(x.w, true, x.d);
    var m := Move(x.w, true, x.d);
    var w, rest := After(x.w, m), Rest(After(x.w, m), m.d);
    if !x.d.standing.Ended? {
      if m.states == [] {
        assert [] + rest == rest;
      } else {
        CompletesLater(s, m.d, rest);
      }
    }
  }

  lemma NextOnCourse(s: Setting, x: Play, act: Act)
    requires IsFresh(s.log) && Conclusive(s.ending) && Undisturbed(s) && OnCourse(s, x) && !act.OthersAppend?
    ensures OnCourse(s, NextPlay(s, x, act))
  {
    if act.Works? {
      MovesOnCourse(s, x);
    } else if !x.d.standing.Ended? {
      FineIsClaimed(s, x.d);
      assert x.d.(standing := Claimed) == x.d;
      BeginsOnCourse(s, x.d);
    }
  }

  lemma {:induction false} StaysOnCourse(s: Setting, x: Play, acts: seq<Act>)
    requires IsFresh(s.log) && Conclusive(s.ending) && Undisturbed(s) && OnCourse(s, x)
    requires forall i | 0 <= i < |acts| :: !acts[i].OthersAppend?
    ensures OnCourse(s, Played(s, x, acts))
    decreases |acts|
  {
    if acts != [] {
      NextOnCourse(s, x, acts[0]);
      StaysOnCourse(s, NextPlay(s, x, acts[0]), acts[1..]);
    }
  }

  // ----- a worker comes to its end -----

  /** How many events are to come, how far into one the worker is, and how many parts of it are to come. */
  function EventsLeft(w: Worker): nat
    requires Ready(w)
  {
    match w.local
    case Loaded(_) => |w.script.stream| + 2
    case Looping(_, _, i) => |w.script.stream| - i + 1
    case Looking(work, _, _) => |w.script.stream| - work.i
    case Inserting(work, _, _) => |w.script.stream| - work.i
    case Saying(work, _) => |w.script.stream| - work.i
    case Saving(work, _) => |w.script.stream| - work.i
    case _ => 0
  }

  function Phase(l: Local): nat {
    match l
    case Looking(_, _, _) => 8
    case Inserting(_, _, _) => 8
    case Saying(_, _) => 7
    case Saving(_, _) => 6
    case Retelling(_, _) => 5
    case Finishing(_, _) => 4
    case SealLooking(_, _) => 3
    case SealInserting(_, _) => 2
    case Stopped => 0
    case _ => 1
  }

  function PartsLeft(w: Worker): nat
    requires Ready(w)
  {
    match w.local
    case Looking(work, k, _) => 2 * (|work.p.parts| - k) + 1
    case Inserting(work, k, _) => 2 * (|work.p.parts| - k)
    case _ => 0
  }

  predicate Nearer(v: Worker, w: Worker)
    requires Ready(v) && Ready(w)
  {
    || EventsLeft(v) < EventsLeft(w)
    || (EventsLeft(v) == EventsLeft(w) && Phase(v.local) < Phase(w.local))
    || (EventsLeft(v) == EventsLeft(w) && Phase(v.local) == Phase(w.local) && PartsLeft(v) < PartsLeft(w))
  }

  lemma MoveIsNearer(w: Worker, d: Durable)
    requires Ready(w) && !w.local.Stopped?
    ensures Ready(After(w, Move(w, true, d))) && Nearer(After(w, Move(w, true, d)), w)
  {
    MoveIsReady(w, true, d);
  }

  function WorksOn(n: nat): seq<Act> {
    if n == 0 then [] else [Works] + WorksOn(n - 1)
  }

  lemma WritesLater(d: Durable, states: seq<Durable>, next: Durable, rest: seq<Durable>, n: nat)
    requires n > 0 && if states == [] then next == d else states == [next]
    ensures AfterWrites(d, states + rest, n) == AfterWrites(next, rest, n - |states|)
  {
    assert states == [] ==> states + rest == rest;
  }

  lemma OneMoreWork(s: Setting, x: Play, n: nat)
    requires Ready(x.w) && Ready(NextPlay(s, x, Works).w)
    ensures Played(s, x, WorksOn(n + 1)) == Played(s, NextPlay(s, x, Works), WorksOn(n))
  {
    assert WorksOn(n + 1)[1..] == WorksOn(n);
  }

  lemma WorkFollows(s: Setting, x: Play, n: nat)
    requires Ready(x.w) && Alone(x.w, x.d) && n > 0
    ensures var y, m := NextPlay(s, x, Works), Move(x.w, true, x.d);
      && Ready(y.w) && Alone(y.w, y.d) && |m.states| <= n
      && AfterWrites(x.d, Rest(x.w, x.d), n) == AfterWrites(y.d, Rest(y.w, y.d), n - |m.states|)
  {
    var m := Move(x.w, true, x.d);
    MoveFollows(x.w, x.d);
    MoveWrites(x.w, true, x.d);
    WritesLater(x.d, m.states, m.d, Rest(After(x.w, m), m.d), n);
  }

  /** Left alone, a worker can be stopped after any of its writes. */
  lemma {:induction false} StopsAfter(s: Setting, x: Play, n: nat) returns (k: nat)
    requires Ready(x.w) && Alone(x.w, x.d)
    ensures Played(s, x, WorksOn(k)).d == AfterWrites(x.d, Rest(x.w, x.d), n)
    decreases EventsLeft(x.w), Phase(x.w.local), PartsLeft(x.w)
  {
    if n == 0 || x.w.local.Stopped? {
      k := 0;
    } else {
      var m := Move(x.w, true, x.d);
      MoveIsNearer(x.w, x.d);
      WorkFollows(s, x, n);
      var j := StopsAfter(s, NextPlay(s, x, Works), n - |m.states|);
      OneMoreWork(s, x, j);
      k := j + 1;
    }
  }

  // ----- crashes and company anywhere -----

  function Start(s: Setting): Play {
    Begin(s, Fresh(s))
  }

  lemma StartsOnCourse(s: Setting)
    requires IsFresh(s.log) && Conclusive(s.ending) && Undisturbed(s)
    ensures OnCourse(s, Start(s))
  {
    FreshStarts(s);
    assert Between(s, Fresh(s), 0);
    BeginsOnCourse(s, Fresh(s));
  }

  lemma BlindAlike(x: Durable, y: Durable, z: Durable)
    requires Alike(x, y) && Blind(y) == Blind(z)
    ensures Alike(Blind(x), Blind(z))
  {}

  /** With nothing but repeats behind the terminal event: however the worker's moves, its crashes and the appends
      of others interleave, a turn that has ended has ended as the fold of its events says. */
  lemma SettlesInCompany(s: Setting, acts: seq<Act>)
    requires IsFresh(s.log) && Conclusive(s.ending) && Undisturbed(s) && AllOthers(acts)
    ensures var d := Played(s, Start(s), acts).d; d.standing.Ended? ==> Alike(Blind(d), Blind(Goal(s)))
  {
    StartsOnCourse(s);
    CompanyIsUnnoticed(s, Start(s), Start(s), acts);
    StaysOnCourse(s, Start(s), WithoutOthers(acts));
    var x, y := Played(s, Start(s), acts).d, Played(s, Start(s), WithoutOthers(acts)).d;
    if x.standing.Ended? {
      BlindAlike(x, y, Goal(s));
    }
  }

  lemma {:induction false} PlayedTogether(s: Setting, x: Play, a: seq<Act>, b: seq<Act>)
    requires Ready(x.w)
    ensures Played(s, x, a + b) == Played(s, Played(s, x, a), b)
    decreases |a|
  {
    if a == [] {
      assert a + b == b;
    } else {
      NextPlayIsReady(s, x, a[0]);
      PlayedTogether(s, NextPlay(s, x, a[0]), a[1..], b);
      assert (a + b)[1..] == a[1..] + b;
    }
  }

  lemma {:induction false} WorksAreAlone(n: nat)
    ensures WithoutOthers(WorksOn(n)) == WorksOn(n) && AllOthers(WorksOn(n))
  {
    if n > 0 {
      WorksAreAlone(n - 1);
      assert WorksOn(n)[1..] == WorksOn(n - 1);
    }
  }

  /** And it can always end: from wherever it is, the worker only has to go on. */
  lemma CanAlwaysSettle(s: Setting, acts: seq<Act>) returns (n: nat)
    requires IsFresh(s.log) && Conclusive(s.ending) && Undisturbed(s) && AllOthers(acts)
    ensures Played(s, Start(s), acts + WorksOn(n)).d.standing.Ended?
  {
    var x, y := Played(s, Start(s), acts), Played(s, Start(s), WithoutOthers(acts));
    StartsOnCourse(s);
    CompanyIsUnnoticed(s, Start(s), Start(s), acts);
    StaysOnCourse(s, Start(s), WithoutOthers(acts));
    if y.d.standing.Ended? {
      n := 0;
      assert acts + WorksOn(0) == acts;
    } else {
      n := StopsAfter(s, y, |Rest(y.w, y.d)|);
      WorksAreAlone(n);
      CompanyIsUnnoticed(s, x, y, WorksOn(n));
      PlayedTogether(s, Start(s), acts, WorksOn(n));
    }
  }

  /** Crashes and company anywhere make no difference, but for the places of the turn's entries in the log. */
  ghost predicate CompanyIsInvisible(s: Setting) {
    forall acts | AllOthers(acts) && Played(s, Start(s), acts).d.standing.Ended? ::
      Alike(Blind(Played(s, Start(s), acts).d), Blind(CrashRuns(s, Fresh(s), [])))
  }

  lemma CrashBetween(s: Setting, x: Play, a: seq<Act>, b: seq<Act>)
    requires Ready(x.w)
    ensures Ready(NextPlay(s, Played(s, x, a), Crashes).w)
    ensures Played(s, x, a + [Crashes] + b) == Played(s, NextPlay(s, Played(s, x, a), Crashes), b)
  {
    PlayedTogether(s, x, a + [Crashes], b);
    PlayedTogether(s, x, a, [Crashes]);
    assert [Crashes][1..] == [];
  }

  lemma StopsAtWrite(s: Setting, m: nat) returns (j: nat)
    requires IsFresh(s.log) && m < |Run(s.policy, Fresh(s), s.stream, s.ending)|
    ensures Played(s, Start(s), WorksOn(j)).d == Run(s.policy, Fresh(s), s.stream, s.ending)[m]
  {
    j := StopsAfter(s, Start(s), m + 1);
  }

  lemma RunsToTheEnd(s: Setting, d: Durable) returns (k: nat)
    requires d.standing.Claimed?
    ensures Played(s, Begin(s, d), WorksOn(k)).d == CrashRuns(s, d, [])
  {
    k := StopsAfter(s, Begin(s, d), |Run(s.policy, d, s.stream, s.ending)|);
  }

  /** A crash after the write `m`, played move by move. */
  lemma CrashIsPlayed(s: Setting, m: nat) returns (acts: seq<Act>)
    requires IsFresh(s.log) && EndsOtherwise(s, m)
    ensures AllOthers(acts)
    ensures Played(s, Start(s), acts).d == CrashRuns(s, Run(s.policy, Fresh(s), s.stream, s.ending)[m], [])
  {
    var stopped := Run(s.policy, Fresh(s), s.stream, s.ending)[m];
    var j := StopsAtWrite(s, m);
    var k := RunsToTheEnd(s, stopped);
    acts := WorksOn(j) + [Crashes] + WorksOn(k);
    WorksAreAlone(j);
    WorksAreAlone(k);
    CrashBetween(s, Start(s), WorksOn(j), WorksOn(k));
    assert stopped.(standing := Claimed) == stopped;
  }

  /** Company is invisible exactly when crashes are: when nothing behind the terminal event leads to another
      outcome than the terminal's. */
  lemma CompanyEquivalence(s: Setting)
    requires IsFresh(s.log) && Conclusive(s.ending)
    ensures CompanyIsInvisible(s) <==> Undisturbed(s)
  {
    FreshStarts(s);
    if Undisturbed(s) {
      CrashesChangeNothing(s, Fresh(s), []);
      forall acts | AllOthers(acts) && Played(s, Start(s), acts).d.standing.Ended?
        ensures Alike(Blind(Played(s, Start(s), acts).d), Blind(CrashRuns(s, Fresh(s), [])))
      {
        SettlesInCompany(s, acts);
      }
    } else {
      var t: nat :| ReachesTerminal(s, t)
        && OutcomeAfter(s.stream, t, s.ending, TerminalAt(s, t)) != OutcomeOf(TerminalAt(s, t));
      DisturbanceShows(s, t);
      var m: nat :| EndsOtherwise(s, m);
      var acts := CrashIsPlayed(s, m);
      assert Blind(Played(s, Start(s), acts).d).turn.outcome != Blind(CrashRuns(s, Fresh(s), [])).turn.outcome;
    }
  }
}
