/** Replay of a conversation log as Server-Sent Events frames:
    `_event_frames` and `_parse_last_event_id` of mvp/src/workbench/api/conversations.py. */
module EventReplay {
  import opened Basics

  datatype SessionStatus = Paused | Running | OtherStatus

  /** What an event contributes to the suppression state; `byCommand` tells that a status
      payload carries a command id, so that it is not an explicit resume. */
  datatype Kind =
    | StatusChanged(status: SessionStatus, byCommand: bool)
    | TurnQueued
    | TurnRetryable
    | TurnFinished(pausedResponse: bool)
    | TurnFailed(pausedResponse: bool)
    | OtherKind

  /** A logged event with the JSON text of its public projections. */
  datatype Event = Event(sequence: nat, kind: Kind, cause: Option<string>, views: seq<string>)

  datatype Cursor = Cursor(sequence: int, index: int)

  datatype Frame = Frame(cursor: Cursor, data: string)

  /** The running suppression state of a replay. */
  datatype State = State(paused: bool, terminalCauses: set<string>)

  const FRESH := State(false, {})
  const BEGINNING := Cursor(0, -1)
  const LEGACY_INDEX: int := 0x7FFF_FFFF

  predicate Before(a: Cursor, b: Cursor) {
    a.sequence < b.sequence || (a.sequence == b.sequence && a.index < b.index)
  }

  predicate IsTerminal(e: Event) {
    e.kind.TurnFinished? || e.kind.TurnFailed?
  }

  predicate IsExplicitResume(e: Event) {
    e.kind.StatusChanged? && e.kind.status == Running && !e.kind.byCommand
  }

  /** The event pauses the session, either outright or as a turn that ended paused. */
  predicate Pauses(e: Event) {
    || (e.kind.StatusChanged? && e.kind.status == Paused)
    || (IsTerminal(e) && e.kind.pausedResponse)
  }

  /** Sequences are positive and strictly increasing. */
  ghost predicate ValidLog(log: seq<Event>) {
    && (forall i | 0 <= i < |log| :: log[i].sequence > 0)
    && (forall i, j | 0 <= i < j < |log| :: log[i].sequence < log[j].sequence)
  }

  // ----- the replay as a function of the log -----

  predicate Stale(st: State, e: Event) {
    match e.kind
    case StatusChanged(status, byCommand) => status == Running && st.paused && byCommand
    case TurnQueued => st.paused || (e.cause.Some? && e.cause.value in st.terminalCauses)
    case TurnRetryable => st.paused || (e.cause.Some? && e.cause.value in st.terminalCauses)
    case _ => false
  }

  function Absorb(st: State, e: Event): State {
    match e.kind
    case StatusChanged(status, byCommand) =>
      if status == Paused then st.(paused := true)
      else if status == Running && !byCommand then st.(paused := false)
      else st
    case TurnFinished(pausedResponse) =>
      State(st.paused || pausedResponse, st.terminalCauses + if e.cause.Some? then {e.cause.value} else {})
    case TurnFailed(pausedResponse) =>
      State(st.paused || pausedResponse, st.terminalCauses + if e.cause.Some? then {e.cause.value} else {})
    case _ => st
  }

  function AbsorbAll(st: State, log: seq<Event>): State
    decreases log
  {
    if log == [] then st else AbsorbAll(Absorb(st, log[0]), log[1..])
  }

  function ViewsFrom(e: Event, i: nat): seq<Frame>
    requires i <= |e.views|
    decreases |e.views| - i
  {
    if i == |e.views| then [] else [Frame(Cursor(e.sequence, i), e.views[i])] + ViewsFrom(e, i + 1)
  }

  /** The frames whose cursor lies behind c. */
  function Behind(frames: seq<Frame>, c: Cursor): seq<Frame> {
    if frames == [] then []
    else (if Before(c, frames[0].cursor) then [frames[0]] else []) + Behind(frames[1..], c)
  }

  function Shown(st: State, e: Event): seq<Frame> {
    if Stale(st, e) then [] else ViewsFrom(e, 0)
  }

  /** The full replay of a log that is read from suppression state st on. */
  function Replay(log: seq<Event>, st: State): seq<Frame> {
    if log == [] then []
    else Shown(st, log[0]) + Replay(log[1..], Absorb(st, log[0]))
  }

  // ----- what the replay shows -----

  /** The declarative suppression rule for event k: the session is paused when some earlier event
      paused it and none in between resumed it explicitly; a turn is over when an earlier terminal
      event names the same cause. */
  ghost predicate PausedAt(log: seq<Event>, k: nat)
    requires k <= |log|
  {
    exists j :: 0 <= j < k && Pauses(log[j]) && forall i | j < i < k :: !IsExplicitResume(log[i])
  }

  ghost predicate EndedAt(log: seq<Event>, k: nat, cause: string)
    requires k <= |log|
  {
    exists j :: 0 <= j < k && IsTerminal(log[j]) && log[j].cause == Some(cause)
  }

  ghost predicate Suppressed(log: seq<Event>, k: nat)
    requires k < |log|
  {
    match log[k].kind
    case StatusChanged(status, byCommand) => status == Running && byCommand && PausedAt(log, k)
    case TurnQueued => PausedAt(log, k) || (log[k].cause.Some? && EndedAt(log, k, log[k].cause.value))
    case TurnRetryable => PausedAt(log, k) || (log[k].cause.Some? && EndedAt(log, k, log[k].cause.value))
    case _ => false
  }

  lemma {:induction false} AbsorbOneMore(st: State, log: seq<Event>, e: Event)
    ensures AbsorbAll(st, log + [e]) == Absorb(AbsorbAll(st, log), e)
    decreases log
  {
    if log == [] {
      assert [e][1..] == [];
    } else {
      AbsorbOneMore(Absorb(st, log[0]), log[1..], e);
      assert (log + [e])[1..] == log[1..] + [e];
    }
  }

  /** The running state is the declarative rule. */
  lemma {:induction false} StateIsTheRule(log: seq<Event>, k: nat)
    requires k <= |log|
    ensures var st := AbsorbAll(FRESH, log[..k]);
            (st.paused <==> PausedAt(log, k)) && forall c :: c in st.terminalCauses <==> EndedAt(log, k, c)
  {
    if k > 0 {
      StateIsTheRule(log, k - 1);
      AbsorbOneMore(FRESH, log[..k - 1], log[k - 1]);
      assert log[..k] == log[..k - 1] + [log[k - 1]];
      if PausedAt(log, k - 1) && !IsExplicitResume(log[k - 1]) {
        var j :| 0 <= j < k - 1 && Pauses(log[j]) && forall i | j < i < k - 1 :: !IsExplicitResume(log[i]);
        assert forall i | j < i < k :: !IsExplicitResume(log[i]);
      }
      if PausedAt(log, k) && !Pauses(log[k - 1]) {
        var j :| 0 <= j < k && Pauses(log[j]) && forall i | j < i < k :: !IsExplicitResume(log[i]);
        assert !IsExplicitResume(log[k - 1]);
      }
    }
  }

  lemma AppendAssociates(a: seq<Frame>, b: seq<Frame>, c: seq<Frame>)
    ensures a + (b + c) == (a + b) + c
  {
  }

  /** Appending events to the log only appends frames. */
  lemma {:induction false} ReplayExtends(log: seq<Event>, more: seq<Event>, st: State)
    ensures Replay(log + more, st) == Replay(log, st) + Replay(more, AbsorbAll(st, log))
    decreases log
  {
    if log == [] {
      assert log + more == more;
    } else {
      var st' := Absorb(st, log[0]);
      ReplayExtends(log[1..], more, st');
      assert (log + more)[1..] == log[1..] + more;
      AppendAssociates(Shown(st, log[0]), Replay(log[1..], st'), Replay(more, AbsorbAll(st', log[1..])));
    }
  }

  lemma {:induction false} BehindDistributes(a: seq<Frame>, b: seq<Frame>, c: Cursor)
    ensures Behind(a + b, c) == Behind(a, c) + Behind(b, c)
  {
    if a == [] {
      assert a + b == b;
    } else {
      BehindDistributes(a[1..], b, c);
      assert (a + b)[1..] == a[1..] + b;
      AppendAssociates(if Before(c, a[0].cursor) then [a[0]] else [], Behind(a[1..], c), Behind(b, c));
    }
  }

  lemma {:induction false} ViewsAt(e: Event, i: nat)
    requires i <= |e.views|
    ensures |ViewsFrom(e, i)| == |e.views| - i
    ensures forall k | 0 <= k < |e.views| - i :: ViewsFrom(e, i)[k] == Frame(Cursor(e.sequence, i + k), e.views[i + k])
    decreases |e.views| - i
  {
    if i < |e.views| {
      ViewsAt(e, i + 1);
    }
  }

  lemma {:induction false} NothingBehind(frames: seq<Frame>, c: Cursor)
    requires forall i | 0 <= i < |frames| :: !Before(c, frames[i].cursor)
    ensures Behind(frames, c) == []
  {
    if frames != [] {
      NothingBehind(frames[1..], c);
    }
  }

  lemma {:induction false} AllBehind(frames: seq<Frame>, c: Cursor)
    requires forall i | 0 <= i < |frames| :: Before(c, frames[i].cursor)
    ensures Behind(frames, c) == frames
  {
    if frames != [] {
      AllBehind(frames[1..], c);
    }
  }

  /** The replay of one more event. */
  lemma ReplayStep(log: seq<Event>, k: nat)
    requires k < |log|
    ensures var st := AbsorbAll(FRESH, log[..k]);
            && AbsorbAll(FRESH, log[..k + 1]) == Absorb(st, log[k])
            && Replay(log[..k + 1], FRESH)
               == Replay(log[..k], FRESH) + Shown(st, log[k])
  {
    var st := AbsorbAll(FRESH, log[..k]);
    assert log[..k + 1] == log[..k] + [log[k]];
    AbsorbOneMore(FRESH, log[..k], log[k]);
    ReplayExtends(log[..k], [log[k]], FRESH);
    var tail: seq<Event> := [log[k]][1..];
    assert tail == [];
    assert Replay([log[k]], st) == Shown(st, log[k]) + Replay(tail, Absorb(st, log[k]));
  }

  lemma EarlierEventAddsNothing(e: Event, after: Cursor)
    ensures e.sequence < after.sequence ==> Behind(ViewsFrom(e, 0), after) == []
  {
    if e.sequence < after.sequence {
      ViewsAt(e, 0);
      NothingBehind(ViewsFrom(e, 0), after);
    }
  }

  method ProjectBehind(e: Event, after: Cursor) returns (frames: seq<Frame>)
    ensures frames == Behind(ViewsFrom(e, 0), after)
  {
    frames := [];
    for i := 0 to |e.views|
      invariant frames + Behind(ViewsFrom(e, i), after) == Behind(ViewsFrom(e, 0), after)
    {
      var cursor := Cursor(e.sequence, i);
      if !Before(after, cursor) {
        continue;
      }
      frames := frames + [Frame(cursor, e.views[i])];
    }
  }

  /** The source's replay loop. Reading from a cursor on gives exactly the frames of the full
      replay behind that cursor, although projection of earlier events is skipped. */
  method EventFrames(log: seq<Event>, after: Cursor) returns (frames: seq<Frame>)
    ensures frames == Behind(Replay(log, FRESH), after)
  {
    frames := [];
    var paused := false;
    var terminalCauses: set<string> := {};
    for k := 0 to |log|
      invariant State(paused, terminalCauses) == AbsorbAll(FRESH, log[..k])
      invariant frames == Behind(Replay(log[..k], FRESH), after)
    {
      var event := log[k];
      ReplayStep(log, k);
      ghost var st := State(paused, terminalCauses);
      var stale := false;
      if event.kind.StatusChanged? {
        if event.kind.status == Paused {
          paused := true;
        } else if event.kind.status == Running {
          var explicitResume := !event.kind.byCommand;
          stale := paused && !explicitResume;
          if explicitResume {
            paused := false;
          }
        }
      } else if event.kind.TurnQueued? || event.kind.TurnRetryable? {
        stale := paused || (event.cause.Some? && event.cause.value in terminalCauses);
      }
      if IsTerminal(event) {
        if event.cause.Some? {
          terminalCauses := terminalCauses + {event.cause.value};
        }
        paused := paused || event.kind.pausedResponse;
      }
      assert State(paused, terminalCauses) == Absorb(st, event) && stale == Stale(st, event);
      BehindDistributes(Replay(log[..k], FRESH), Shown(st, event), after);
      if stale || event.sequence < after.sequence {
        EarlierEventAddsNothing(event, after);
        continue;
      }
      var projected := ProjectBehind(event, after);
      frames := frames + projected;
    }
    assert log[..|log|] == log;
  }

  /** The frame is a projection of the event. */
  predicate IsViewOf(e: Event, f: Frame) {
    && f.cursor.sequence == e.sequence
    && 0 <= f.cursor.index < |e.views|
    && f.data == e.views[f.cursor.index]
  }

  lemma ViewsAreAll(e: Event, f: Frame)
    ensures f in ViewsFrom(e, 0) <==> IsViewOf(e, f)
  {
    ViewsAt(e, 0);
    if IsViewOf(e, f) {
      assert ViewsFrom(e, 0)[f.cursor.index] == f;
    }
  }

  lemma StaleIsSuppressed(log: seq<Event>, k: nat)
    requires k < |log|
    ensures Stale(AbsorbAll(FRESH, log[..k]), log[k]) <==> Suppressed(log, k)
  {
    StateIsTheRule(log, k);
  }

  ghost predicate ShownAt(log: seq<Event>, k: nat, f: Frame)
    requires k < |log|
  {
    !Suppressed(log, k) && IsViewOf(log[k], f)
  }

  lemma ShownIsTheRule(log: seq<Event>, k: nat, f: Frame)
    requires k < |log|
    ensures f in Shown(AbsorbAll(FRESH, log[..k]), log[k]) <==> ShownAt(log, k, f)
  {
    StaleIsSuppressed(log, k);
    ViewsAreAll(log[k], f);
  }

  ghost predicate ShownUpTo(log: seq<Event>, k: nat, f: Frame)
    requires k <= |log|
  {
    exists j :: 0 <= j < k && ShownAt(log, j, f)
  }

  lemma ShownOneMore(log: seq<Event>, k: nat, f: Frame)
    requires k < |log|
    ensures ShownUpTo(log, k + 1, f) <==> ShownUpTo(log, k, f) || ShownAt(log, k, f)
  {
  }

  lemma ReplayHasOneMore(log: seq<Event>, k: nat, f: Frame)
    requires k < |log|
    ensures f in Replay(log[..k + 1], FRESH) <==> f in Replay(log[..k], FRESH) || ShownAt(log, k, f)
  {
    ReplayStep(log, k);
    ShownIsTheRule(log, k, f);
  }

  /** Exactly the projections of the events that are not suppressed are replayed. */
  lemma {:induction false} ReplayShows(log: seq<Event>, k: nat, f: Frame)
    requires k <= |log|
    ensures f in Replay(log[..k], FRESH) <==> ShownUpTo(log, k, f)
  {
    if k > 0 {
      ReplayShows(log, k - 1, f);
      ReplayHasOneMore(log, k - 1, f);
      ShownOneMore(log, k - 1, f);
    }
  }

  predicate Increasing(frames: seq<Frame>) {
    forall i, j | 0 <= i < j < |frames| :: Before(frames[i].cursor, frames[j].cursor)
  }

  /** Every frame belongs to a sequence from 1 to n. */
  predicate Within(frames: seq<Frame>, n: nat) {
    forall i | 0 <= i < |frames| :: 1 <= frames[i].cursor.sequence <= n && frames[i].cursor.index >= 0
  }

  lemma AppendLater(a: seq<Frame>, b: seq<Frame>, n: nat, m: nat)
    requires Increasing(a) && Within(a, n) && n < m
    requires Increasing(b) && forall i | 0 <= i < |b| :: b[i].cursor.sequence == m && b[i].cursor.index >= 0
    ensures Increasing(a + b) && Within(a + b, m)
  {
  }

  function LastSequence(log: seq<Event>): nat {
    if log == [] then 0 else log[|log| - 1].sequence
  }

  /** Frame cursors strictly increase, and stay within the sequences of the log. */
  lemma {:induction false} ReplayIncreases(log: seq<Event>, k: nat)
    requires ValidLog(log) && k <= |log|
    ensures Increasing(Replay(log[..k], FRESH)) && Within(Replay(log[..k], FRESH), LastSequence(log[..k]))
  {
    if k > 0 {
      ReplayIncreases(log, k - 1);
      ReplayStep(log, k - 1);
      var e := log[k - 1];
      ViewsAt(e, 0);
      assert LastSequence(log[..k]) == e.sequence;
      assert LastSequence(log[..k - 1]) < e.sequence;
      AppendLater(Replay(log[..k - 1], FRESH), Shown(AbsorbAll(FRESH, log[..k - 1]), e), LastSequence(log[..k - 1]), e.sequence);
    }
  }
}
