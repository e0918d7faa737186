/** The paged replay: byte-bounded pages cut by `stream` and `_parse_last_event_id` of
    mvp/src/workbench/api/conversations.py, and the client that puts them together again,
    `conversationApi.events` of mvp/canvas-spike/src/renderer/api.ts. */
module PagedReplay {
  import opened Basics
  import opened EventReplay
  import Decimal
  import Utf8

  // ----- the wire text -----

  predicate Addressable(c: Cursor) {
    c.sequence >= 0 && c.index >= 0
  }

  /** Serialised JSON: not empty, and on one line. */
  predicate IsJsonLine(data: string) {
    |data| > 0 && '\n' !in data
  }

  predicate Sendable(frames: seq<Frame>) {
    forall i | 0 <= i < |frames| :: Addressable(frames[i].cursor) && IsJsonLine(frames[i].data)
  }

  function CursorText(c: Cursor): (s: string)
    requires Addressable(c)
  {
    Decimal.Text(c.sequence) + ":" + Decimal.Text(c.index)
  }

  function FrameBody(f: Frame): string
    requires Addressable(f.cursor)
  {
    "id: " + CursorText(f.cursor) + "\n" + ("data: " + f.data)
  }

  function PageText(frames: seq<Frame>): string
    requires Sendable(frames)
  {
    if frames == [] then "" else FrameBody(frames[0]) + "\n\n" + PageText(frames[1..])
  }

  /** What a frame and a page take on the wire. */
  function FrameBytes(f: Frame): nat
    requires Addressable(f.cursor)
  {
    |Utf8.Encode(FrameBody(f) + "\n\n")|
  }

  function PageBytes(frames: seq<Frame>): nat
    requires Sendable(frames)
  {
    |Utf8.Encode(PageText(frames))|
  }

  lemma {:induction false} PageTextGrows(frames: seq<Frame>, next: Frame)
    requires Sendable(frames) && Addressable(next.cursor) && Sendable(frames + [next])
    ensures PageText(frames + [next]) == PageText(frames) + (FrameBody(next) + "\n\n")
  {
    var all := frames + [next];
    if frames == [] {
      assert all == [next] && all[1..] == [];
    } else {
      assert all[0] == frames[0] && all[1..] == frames[1..] + [next];
      PageTextGrows(frames[1..], next);
    }
  }

  /** A page takes what its frames take. */
  lemma PageBytesGrow(frames: seq<Frame>, next: Frame)
    requires Sendable(frames) && Addressable(next.cursor) && Sendable(frames + [next])
    ensures PageBytes(frames + [next]) == PageBytes(frames) + FrameBytes(next)
  {
    PageTextGrows(frames, next);
    Utf8.EncodeJoins(PageText(frames), FrameBody(next) + "\n\n");
  }

  // ----- the resume cursor -----

  /** The position of the first occurrence of c, or the length. */
  function IndexOf(s: string, c: char): (p: nat)
    ensures p <= |s| && (p < |s| ==> s[p] == c)
    ensures forall i | 0 <= i < p :: s[i] != c
  {
    if s == [] || s[0] == c then 0 else 1 + IndexOf(s[1..], c)
  }

  function ReadInt(s: string): Option<int> {
    if Decimal.IsNumeral(s) then Some(Decimal.Value(s) as int)
    else if |s| > 0 && s[0] == '-' && Decimal.IsNumeral(s[1..]) then Some(-(Decimal.Value(s[1..]) as int))
    else None
  }

  /** No id starts at the beginning; a bare number is a legacy sequence cursor; otherwise sequence:index. */
  function ParseLastEventId(value: Option<string>): Option<Cursor> {
    if value.None? || value.value == "" then Some(BEGINNING)
    else
      var s := value.value;
      var p := IndexOf(s, ':');
      if p == |s| then
        var sequence := ReadInt(s);
        if sequence.None? then None else Some(Cursor(sequence.value, LEGACY_INDEX))
      else
        var sequence, index := ReadInt(s[..p]), ReadInt(s[p + 1..]);
        if sequence.None? || index.None? then None else Some(Cursor(sequence.value, index.value))
  }

  /** The router refuses negative cursors before it serves a page. */
  function RequestCursor(value: Option<string>): Option<Cursor> {
    var c := ParseLastEventId(value);
    if c.None? || c.value.sequence < 0 || c.value.index < -1 then None else c
  }

  lemma IndexOfFirst(s: string, c: char, p: nat)
    requires p < |s| && s[p] == c && forall i | 0 <= i < p :: s[i] != c
    ensures IndexOf(s, c) == p
  {
  }

  lemma NumeralHas(s: string, c: char)
    requires Decimal.IsNumeral(s) && !Decimal.IsDigit(c)
    ensures c !in s
  {
  }

  /** The id of a frame, sent back as Last-Event-ID, is read as the frame's own cursor. */
  lemma CursorRoundTrip(c: Cursor)
    requires Addressable(c)
    ensures RequestCursor(Some(CursorText(c))) == Some(c)
  {
    var a, b := Decimal.Text(c.sequence), Decimal.Text(c.index);
    var s := CursorText(c);
    NumeralHas(a, ':');
    assert forall i | 0 <= i < |a| :: s[i] == a[i];
    IndexOfFirst(s, ':', |a|);
    assert s[..|a|] == a && s[|a| + 1..] == b;
    Decimal.ValueOfText(c.sequence);
    Decimal.ValueOfText(c.index);
  }

  /** The text reads as the number: digits, perhaps behind a minus sign. */
  predicate Reads(s: string, n: int) {
    || (Decimal.IsNumeral(s) && n == Decimal.Value(s))
    || (|s| > 1 && s[0] == '-' && Decimal.IsNumeral(s[1..]) && n == -(Decimal.Value(s[1..]) as int))
  }

  /** The text is two numbers with a colon between them. */
  predicate ReadsBoth(s: string, p: nat, sequence: int, index: int) {
    p < |s| && s[p] == ':' && Reads(s[..p], sequence) && Reads(s[p + 1..], index)
  }

  lemma NoColonInside(s: string, n: int)
    requires Reads(s, n)
    ensures ':' !in s
  {
    if !Decimal.IsNumeral(s) {
      NumeralHas(s[1..], ':');
      assert s == [s[0]] + s[1..];
    }
  }

  lemma ReadIntReads(s: string, n: int)
    ensures Reads(s, n) <==> ReadInt(s) == Some(n)
  {}

  lemma OneColon(s: string, p: nat, sequence: int, index: int)
    requires ReadsBoth(s, p, sequence, index)
    ensures IndexOf(s, ':') == p
  {
    NoColonInside(s[..p], sequence);
    forall i | 0 <= i < p
      ensures s[i] != ':'
    {
      assert s[i] == s[..p][i];
    }
  }

  /** Which ids are cursors, and which: none and the empty one stand before everything, a number at the end of its
      event, and a pair of numbers for itself; what would be negative is refused. */
  ghost predicate IsCursor(id: Option<string>, c: Cursor) {
    if id.None? || id.value == "" then c == Cursor(0, -1)
    else
      && c.sequence >= 0 && c.index >= -1
      && ((Reads(id.value, c.sequence) && c.index == 2147483647)
          || exists p: nat :: ReadsBoth(id.value, p, c.sequence, c.index))
  }

  lemma RequestCursorIs(id: Option<string>, c: Cursor)
    ensures RequestCursor(id) == Some(c) <==> IsCursor(id, c)
  {
    if id.Some? && id.value != "" {
      var s := id.value;
      var p := IndexOf(s, ':');
      if p < |s| {
        ReadIntReads(s[..p], c.sequence);
        ReadIntReads(s[p + 1..], c.index);
        assert RequestCursor(id) == Some(c) ==> ReadsBoth(s, p, c.sequence, c.index);
      } else {
        ReadIntReads(s, c.sequence);
      }
      if Reads(s, c.sequence) {
        NoColonInside(s, c.sequence);
      }
      if q: nat :| ReadsBoth(s, q, c.sequence, c.index) {
        OneColon(s, q, c.sequence, c.index);
      }
    }
  }

  // ----- the client's reading of a page -----

  /** An event as the client sees it: the frame's id and its data. */
  datatype ClientEvent = ClientEvent(cursor: Option<string>, data: string)

  function Lines(text: string): seq<string> {
    var p := IndexOf(text, '\n');
    if p == |text| then [text] else [text[..p]] + Lines(text[p + 1..])
  }

  function BlankLine(text: string): (p: nat)
    ensures p <= |text|
    ensures p < |text| ==> p + 1 < |text| && text[p] == '\n' == text[p + 1]
    ensures forall i | 0 <= i < p && i + 1 < |text| :: text[i] != '\n' || text[i + 1] != '\n'
  {
    if |text| < 2 then |text|
    else if text[0] == '\n' && text[1] == '\n' then 0
    else 1 + BlankLine(text[1..])
  }

  function Blocks(text: string): seq<string> {
    var p := BlankLine(text);
    if p == |text| then [text] else [text[..p]] + Blocks(text[p + 2..])
  }

  /** The rest of the first line that starts with the prefix. */
  function Field(lines: seq<string>, prefix: string): Option<string> {
    if lines == [] then None
    else if prefix <= lines[0] then Some(lines[0][|prefix|..])
    else Field(lines[1..], prefix)
  }

  function ReadBlocks(blocks: seq<string>): seq<ClientEvent> {
    if blocks == [] then []
    else
      var lines := Lines(blocks[0]);
      var data := Field(lines, "data: ");
      (if blocks[0] == "" || data.None? || data.value == "" then []
       else [ClientEvent(Field(lines, "id: "), data.value)]) + ReadBlocks(blocks[1..])
  }

  function ReadPage(text: string): seq<ClientEvent> {
    ReadBlocks(Blocks(text))
  }

  function AsReceived(f: Frame): ClientEvent
    requires Addressable(f.cursor)
  {
    ClientEvent(Some(CursorText(f.cursor)), f.data)
  }

  /** What the client should read from the frames. */
  function Received(frames: seq<Frame>): seq<ClientEvent>
    requires Sendable(frames)
  {
    seq(|frames|, i requires 0 <= i < |frames| => AsReceived(frames[i]))
  }

  lemma BlankLineFirst(text: string, p: nat)
    requires p + 1 < |text| && text[p] == '\n' == text[p + 1]
    requires forall i | 0 <= i < p :: text[i] != '\n' || text[i + 1] != '\n'
    ensures BlankLine(text) == p
  {
  }

  /** Only the end of the id line is a newline, and the data line that follows is not empty. */
  lemma BodyNewlines(f: Frame, i: nat)
    requires Addressable(f.cursor) && IsJsonLine(f.data) && i < |FrameBody(f)|
    ensures FrameBody(f)[i] == '\n' ==> i == |"id: " + CursorText(f.cursor)|
  {
    var head, tail := "id: " + CursorText(f.cursor), "data: " + f.data;
    assert FrameBody(f) == head + "\n" + tail;
    assert '\n' !in head by {
      NumeralHas(Decimal.Text(f.cursor.sequence), '\n');
      NumeralHas(Decimal.Text(f.cursor.index), '\n');
    }
    assert '\n' !in tail;
    if i < |head| {
      assert FrameBody(f)[i] == head[i];
    } else if i > |head| {
      assert FrameBody(f)[i] == tail[i - |head| - 1];
    }
  }

  lemma BodyIsOneBlock(f: Frame, rest: string)
    requires Addressable(f.cursor) && IsJsonLine(f.data)
    ensures Blocks(FrameBody(f) + "\n\n" + rest) == [FrameBody(f)] + Blocks(rest)
  {
    var body := FrameBody(f);
    var text := body + "\n\n" + rest;
    var n := |"id: " + CursorText(f.cursor)|;
    assert body[n + 1] == 'd' && n + 1 < |body| - 1;
    forall i | 0 <= i < |body| ensures text[i] != '\n' || text[i + 1] != '\n' {
      BodyNewlines(f, i);
      assert text[i] == body[i];
      if i + 1 < |body| {
        assert text[i + 1] == body[i + 1];
      }
    }
    BlankLineFirst(text, |body|);
    assert text[..|body|] == body && text[|body| + 2..] == rest;
  }

  lemma LinesOfBody(f: Frame)
    requires Addressable(f.cursor) && IsJsonLine(f.data)
    ensures Lines(FrameBody(f)) == ["id: " + CursorText(f.cursor), "data: " + f.data]
  {
    var body, head, tail := FrameBody(f), "id: " + CursorText(f.cursor), "data: " + f.data;
    forall i | 0 <= i < |body| ensures body[i] == '\n' ==> i == |head| {
      BodyNewlines(f, i);
    }
    IndexOfFirst(body, '\n', |head|);
    assert body[..|head|] == head && body[|head| + 1..] == tail;
    assert '\n' !in tail;
    assert IndexOf(tail, '\n') == |tail|;
  }

  lemma FieldsOfBody(f: Frame)
    requires Addressable(f.cursor) && IsJsonLine(f.data)
    ensures Field(Lines(FrameBody(f)), "id: ") == Some(CursorText(f.cursor))
    ensures Field(Lines(FrameBody(f)), "data: ") == Some(f.data)
  {
    LinesOfBody(f);
    var head, tail := "id: " + CursorText(f.cursor), "data: " + f.data;
    assert head[0] == 'i' && "data: "[0] == 'd';
    assert !("data: " <= head);
    assert [head, tail][1..] == [tail];
    assert head[4..] == CursorText(f.cursor);
  }

  lemma ReadOneBlock(f: Frame, blocks: seq<string>)
    requires Addressable(f.cursor) && IsJsonLine(f.data)
    ensures ReadBlocks([FrameBody(f)] + blocks) == [AsReceived(f)] + ReadBlocks(blocks)
  {
    FieldsOfBody(f);
    var all := [FrameBody(f)] + blocks;
    assert all[0] == FrameBody(f) && all[1..] == blocks;
  }

  function Bodies(frames: seq<Frame>): seq<string>
    requires Sendable(frames)
  {
    if frames == [] then [""] else [FrameBody(frames[0])] + Bodies(frames[1..])
  }

  lemma {:induction false} BlocksOfPage(frames: seq<Frame>)
    requires Sendable(frames)
    ensures Blocks(PageText(frames)) == Bodies(frames)
  {
    if frames != [] {
      BlocksOfPage(frames[1..]);
      BodyIsOneBlock(frames[0], PageText(frames[1..]));
    } else {
      assert Blocks("") == [""];
    }
  }

  lemma {:induction false} ReadBodies(frames: seq<Frame>)
    requires Sendable(frames)
    ensures ReadBlocks(Bodies(frames)) == Received(frames)
  {
    if frames != [] {
      ReadBodies(frames[1..]);
      ReadOneBlock(frames[0], Bodies(frames[1..]));
      assert Received(frames) == [AsReceived(frames[0])] + Received(frames[1..]);
    } else {
      assert [""][1..] == [];
    }
  }

  /** Whatever frames a page carries, the client reads exactly their ids and data. */
  lemma PageRoundTrip(frames: seq<Frame>)
    requires Sendable(frames)
    ensures ReadPage(PageText(frames)) == Received(frames)
  {
    BlocksOfPage(frames);
    ReadBodies(frames);
  }

  // ----- one page -----

  datatype PageResult = Page(frames: seq<Frame>) | FrameTooLarge

  /** What the log holds behind the cursor. */
  function Pending(log: seq<Event>, after: Cursor): seq<Frame> {
    Behind(Replay(log, FRESH), after)
  }

  /** A page holds the longest run of pending frames that fits; only an oversized first frame is refused. */
  predicate IsPageOf(all: seq<Frame>, pageBytes: nat, r: PageResult)
    requires Sendable(all)
  {
    match r
    case FrameTooLarge => all != [] && FrameBytes(all[0]) > pageBytes
    case Page(frames) =>
      && frames <= all && PageBytes(frames) <= pageBytes
      && (frames != all ==> PageBytes(frames) + FrameBytes(all[|frames|]) > pageBytes)
      && (all != [] ==> frames != [])
  }

  /** The longest run of frames that fits the page; an oversized first frame is refused. */
  method ServePage(log: seq<Event>, after: Cursor, pageBytes: nat) returns (r: PageResult)
    requires Sendable(Pending(log, after))
    ensures IsPageOf(Pending(log, after), pageBytes, r)
  {
    var all := EventFrames(log, after);
    r := CutPage(all, pageBytes);
  }

  lemma PageBytesStep(all: seq<Frame>, k: nat)
    requires Sendable(all) && k < |all|
    ensures PageBytes(all[..k + 1]) == PageBytes(all[..k]) + FrameBytes(all[k])
  {
    assert all[..k + 1] == all[..k] + [all[k]];
    PageBytesGrow(all[..k], all[k]);
  }

  method CutPage(all: seq<Frame>, pageBytes: nat) returns (r: PageResult)
    requires Sendable(all)
    ensures IsPageOf(all, pageBytes, r)
  {
    var frames: seq<Frame> := [];
    var used := 0;
    for k := 0 to |all|
      invariant frames == all[..k]
      invariant used == PageBytes(all[..k]) && used <= pageBytes
    {
      var size := FrameBytes(all[k]);
      PageBytesStep(all, k);
      if used + size > pageBytes {
        if frames == [] {
          return FrameTooLarge;
        }
        return Page(frames);
      }
      frames := frames + [all[k]];
      used := used + size;
    }
    return Page(frames);
  }

  // ----- resuming behind what was already read -----

  /** Behind a cursor lies a suffix of an increasing replay. */
  lemma {:induction false} BehindIsSuffix(frames: seq<Frame>, c: Cursor) returns (n: nat)
    requires Increasing(frames)
    ensures n <= |frames| && Behind(frames, c) == frames[n..]
    ensures forall i | 0 <= i < n :: !Before(c, frames[i].cursor)
    ensures forall i | n <= i < |frames| :: Before(c, frames[i].cursor)
  {
    if frames == [] {
      n := 0;
    } else if Before(c, frames[0].cursor) {
      AllBehind(frames, c);
      n := 0;
    } else {
      n := BehindIsSuffix(frames[1..], c);
      n := n + 1;
    }
  }

  /** Where a reader stands that has read `got` behind the cursor. */
  function Standing(start: Cursor, got: seq<Frame>): Cursor {
    if got == [] then start else got[|got| - 1].cursor
  }

  /** Having read the first frames behind a cursor, the last of them resumes with exactly the rest. */
  lemma ResumeContinues(frames: seq<Frame>, start: Cursor, got: seq<Frame>)
    requires Increasing(frames) && got <= Behind(frames, start)
    ensures Behind(frames, start) == got + Behind(frames, Standing(start, got))
  {
    if got != [] {
      var n := BehindIsSuffix(frames, start);
      var c := Standing(start, got);
      var m := BehindIsSuffix(frames, c);
      var k := n + |got|;
      assert frames[k - 1] == frames[n..][|got| - 1] == got[|got| - 1];
      assert c == frames[k - 1].cursor && !Before(c, c);
      assert k < |frames| ==> Before(c, frames[k].cursor);
      assert m == k;
      assert frames[n..] == frames[n..k] + frames[k..];
      assert got == frames[n..k];
    } else {
      assert got + Behind(frames, start) == Behind(frames, start);
    }
  }

  /** A longer log shows the same frames first. */
  lemma GrowthKeepsFrames(log: seq<Event>, longer: seq<Event>, c: Cursor)
    requires log <= longer
    ensures Pending(log, c) <= Pending(longer, c)
  {
    var more := longer[|log|..];
    assert longer == log + more;
    ReplayExtends(log, more, FRESH);
    BehindDistributes(Replay(log, FRESH), Replay(more, AbsorbAll(FRESH, log)), c);
  }

  /** A read without an id, or with an empty one, is a read of everything. */
  lemma FirstReadIsEverything(log: seq<Event>, id: Option<string>)
    requires ValidLog(log) && (id.None? || id.value == "")
    ensures RequestCursor(id).Some? && Pending(log, RequestCursor(id).value) == Replay(log, FRESH)
  {
    assert log[..|log|] == log;
    ReplayIncreases(log, |log|);
    AllBehind(Replay(log, FRESH), RequestCursor(id).value);
  }

  /** The frames from `k` on are those of later events, or of the same one with a number that no projection has. */
  predicate LaterFrom(frames: seq<Frame>, k: nat, n: nat) {
    && k <= |frames|
    && (forall i | 0 <= i < k :: frames[i].cursor.sequence <= n)
    && (forall i | k <= i < |frames| :: frames[i].cursor.sequence > n)
  }

  /** A bare number resumes behind its event: exactly the frames of later events are left. No event has so many
      projections that their numbers reach 2147483648. */
  lemma LegacyIdResumesBehindItsEvent(log: seq<Event>, n: nat) returns (k: nat)
    requires ValidLog(log) && forall e | e in log :: |e.views| <= 2147483648
    ensures RequestCursor(Some(Decimal.Text(n))).Some?
    ensures LaterFrom(Replay(log, FRESH), k, n)
    ensures Pending(log, RequestCursor(Some(Decimal.Text(n))).value) == Replay(log, FRESH)[k..]
  {
    var id, c := Some(Decimal.Text(n)), Cursor(n, 2147483647);
    Decimal.ValueOfText(n);
    RequestCursorIs(id, c);
    var all := Replay(log, FRESH);
    assert log[..|log|] == log;
    ReplayIncreases(log, |log|);
    k := BehindIsSuffix(all, c);
    assert Pending(log, RequestCursor(id).value) == all[k..];
    forall i | 0 <= i < |all|
      ensures Before(c, all[i].cursor) <==> all[i].cursor.sequence > n
    {
      ReplayShows(log, |log|, all[i]);
    }
    assert LaterFrom(all, k, n);
  }

  // ----- the client's loop -----

  datatype Outcome =
    | History(events: seq<ClientEvent>)
    | TooLarge(events: seq<ClientEvent>)
    | CursorInvalid(events: seq<ClientEvent>)
    | BadRequest

  predicate Fits(frames: seq<Frame>, pageBytes: nat)
    requires Sendable(frames)
  {
    forall i | 0 <= i < |frames| :: FrameBytes(frames[i]) <= pageBytes
  }

  /** Every projection of every event is a line of JSON. */
  predicate WritesJson(log: seq<Event>) {
    forall i, k | 0 <= i < |log| && 0 <= k < |log[i].views| :: IsJsonLine(log[i].views[k])
  }

  lemma FramesAreSendable(log: seq<Event>, c: Cursor)
    requires ValidLog(log) && WritesJson(log)
    ensures Increasing(Replay(log, FRESH)) && Sendable(Pending(log, c))
  {
    assert log[..|log|] == log;
    ReplayIncreases(log, |log|);
    var all := Replay(log, FRESH);
    var n := BehindIsSuffix(all, c);
    forall i | 0 <= i < |all|
      ensures Addressable(all[i].cursor) && IsJsonLine(all[i].data)
    {
      ReplayShows(log, |log|, all[i]);
    }
  }

  /** logAt(k) is the log when request k is served; it only grows, and `final` bounds the growth
      seen by one (finite) run. */
  ghost predicate Growing(logAt: nat -> seq<Event>, final: seq<Event>) {
    && ValidLog(final) && WritesJson(final)
    && (forall i, j | 0 <= i <= j :: logAt(i) <= logAt(j))
    && (forall i :: logAt(i) <= final)
  }

  lemma PrefixFacts(log: seq<Event>, final: seq<Event>, c: Cursor)
    requires ValidLog(final) && log <= final && WritesJson(final)
    ensures ValidLog(log) && Increasing(Replay(log, FRESH))
    ensures Pending(log, c) <= Pending(final, c) && Sendable(Pending(log, c))
  {
    assert forall i | 0 <= i < |log| :: log[i] == final[i];
    FramesAreSendable(final, c);
    FramesAreSendable(log, c);
    GrowthKeepsFrames(log, final, c);
  }

  lemma {:induction false} PageFits(frames: seq<Frame>, k: nat)
    requires Sendable(frames) && k < |frames|
    ensures FrameBytes(frames[k]) <= PageBytes(frames)
    decreases |frames|
  {
    var n := |frames| - 1;
    PageBytesStep(frames, n);
    assert frames[..n + 1] == frames;
    if k < n {
      PageFits(frames[..n], k);
    }
  }

  /** `got` is a first part of what the log shows behind the start, and it fits page by page. */
  ghost predicate Reading(log: seq<Event>, start: Cursor, got: seq<Frame>, pageBytes: nat) {
    && Increasing(Replay(log, FRESH))
    && got <= Pending(log, start) && Sendable(Pending(log, start)) && Sendable(got)
    && Fits(got, pageBytes)
  }

  /** The result of a read: the whole history of the log as it was at the last request, or the part
      before the first frame that no page can hold. */
  ghost predicate IsHistoryOf(log: seq<Event>, start: Cursor, pageBytes: nat, o: Outcome)
    requires Sendable(Pending(log, start))
  {
    var all := Pending(log, start);
    match o
    case History(events) => Fits(all, pageBytes) && events == Received(all)
    case TooLarge(events) =>
      exists n :: 0 <= n < |all| && Fits(all[..n], pageBytes) && FrameBytes(all[n]) > pageBytes
                  && events == Received(all[..n])
    case _ => false
  }

  lemma PageRefused(log: seq<Event>, start: Cursor, got: seq<Frame>, pageBytes: nat)
    requires Reading(log, start, got, pageBytes)
    requires Sendable(Pending(log, Standing(start, got)))
    requires IsPageOf(Pending(log, Standing(start, got)), pageBytes, FrameTooLarge)
    ensures IsHistoryOf(log, start, pageBytes, TooLarge(Received(got)))
  {
    ResumeContinues(Replay(log, FRESH), start, got);
    var all := Pending(log, start);
    assert all[..|got|] == got;
    assert all[|got|] == Pending(log, Standing(start, got))[0];
  }

  lemma PageIsLast(log: seq<Event>, start: Cursor, got: seq<Frame>, pageBytes: nat)
    requires Reading(log, start, got, pageBytes)
    requires Sendable(Pending(log, Standing(start, got)))
    requires IsPageOf(Pending(log, Standing(start, got)), pageBytes, Page([]))
    ensures IsHistoryOf(log, start, pageBytes, History(Received(got)))
  {
    ResumeContinues(Replay(log, FRESH), start, got);
    assert got + [] == got;
  }

  lemma PageAdvances(frames: seq<Frame>, at: Cursor, page: seq<Frame>)
    requires Increasing(frames) && page != [] && page <= Behind(frames, at)
    ensures Before(at, page[|page| - 1].cursor)
  {
    var n := BehindIsSuffix(frames, at);
    var last := |page| - 1;
    assert page[last] == Behind(frames, at)[last] == frames[n + last];
  }

  lemma PageExtends(log: seq<Event>, start: Cursor, got: seq<Frame>, pageBytes: nat, page: seq<Frame>)
    requires Reading(log, start, got, pageBytes)
    requires Sendable(Pending(log, Standing(start, got))) && page != []
    requires IsPageOf(Pending(log, Standing(start, got)), pageBytes, Page(page))
    ensures Reading(log, start, got + page, pageBytes)
    ensures Before(Standing(start, got), page[|page| - 1].cursor)
    ensures Received(got + page) == Received(got) + Received(page)
    ensures Standing(start, got + page) == page[|page| - 1].cursor
  {
    var frames, rest := Replay(log, FRESH), Pending(log, Standing(start, got));
    PageIsPrefix(rest, pageBytes, page);
    ResumeContinues(frames, start, got);
    PageAdvances(frames, Standing(start, got), page);
    PageFollows(Pending(log, start), got, rest, page, pageBytes);
    StandingBehind(start, got, page);
  }

  lemma PageIsPrefix(all: seq<Frame>, pageBytes: nat, page: seq<Frame>)
    requires Sendable(all) && IsPageOf(all, pageBytes, Page(page))
    ensures page <= all && Sendable(page) && PageBytes(page) <= pageBytes
  {}

  lemma StandingBehind(start: Cursor, got: seq<Frame>, page: seq<Frame>)
    requires page != []
    ensures Standing(start, got + page) == page[|page| - 1].cursor
  {}

  lemma PageFollows(all: seq<Frame>, got: seq<Frame>, rest: seq<Frame>, page: seq<Frame>, pageBytes: nat)
    requires Sendable(all) && all == got + rest && Sendable(got) && Sendable(page) && Fits(got, pageBytes)
    requires page <= rest && PageBytes(page) <= pageBytes
    ensures got + page <= all && Sendable(got + page) && Fits(got + page, pageBytes)
    ensures Received(got + page) == Received(got) + Received(page)
  {
    forall i | 0 <= i < |page| ensures FrameBytes(page[i]) <= pageBytes {
      PageFits(page, i);
    }
  }

  /** A longer log keeps a reader where it is. */
  lemma ReadingGrows(log: seq<Event>, longer: seq<Event>, start: Cursor, got: seq<Frame>, pageBytes: nat)
    requires Reading(log, start, got, pageBytes) && log <= longer
    requires Increasing(Replay(longer, FRESH)) && Sendable(Pending(longer, start))
    ensures Reading(longer, start, got, pageBytes)
  {
    GrowthKeepsFrames(log, longer, start);
  }

  /** The id of a frame further on was never seen: everything seen reads as a cursor not behind `at`. */
  ghost predicate SeenSoFar(cursors: set<string>, at: Cursor) {
    forall t | t in cursors :: RequestCursor(Some(t)).Some? && !Before(at, RequestCursor(Some(t)).value)
  }

  lemma NextIdIsNew(cursors: set<string>, at: Cursor, next: Cursor)
    requires SeenSoFar(cursors, at) && Addressable(next) && Before(at, next)
    ensures CursorText(next) !in cursors && CursorText(next) != ""
    ensures RequestCursor(Some(CursorText(next))) == Some(next)
    ensures SeenSoFar(cursors + {CursorText(next)}, next)
  {
    CursorRoundTrip(next);
  }

  /** Where the client stands between two requests. */
  datatype Client = Client(events: seq<ClientEvent>, cursor: Option<string>, cursors: set<string>)

  ghost predicate ClientAt(c: Client, start: Cursor, got: seq<Frame>) {
    && Sendable(got) && c.events == Received(got)
    && RequestCursor(c.cursor) == Some(Standing(start, got))
    && SeenSoFar(c.cursors, Standing(start, got))
    && (got != [] ==> CursorText(got[|got| - 1].cursor) in c.cursors)
  }

  function Advanced(c: Client, page: seq<Frame>): Client
    requires Sendable(page) && page != []
  {
    var id := CursorText(page[|page| - 1].cursor);
    Client(c.events + Received(page), Some(id), c.cursors + {id})
  }

  /** Reading a page brings a new id and moves the client behind its last frame. */
  lemma ClientMoves(c: Client, start: Cursor, got: seq<Frame>, page: seq<Frame>)
    requires ClientAt(c, start, got) && Sendable(page) && page != []
    requires Before(Standing(start, got), page[|page| - 1].cursor)
    requires Sendable(got + page) && Received(got + page) == Received(got) + Received(page)
    requires Standing(start, got + page) == page[|page| - 1].cursor
    ensures var id := CursorText(page[|page| - 1].cursor); id !in c.cursors && id != ""
    ensures ClientAt(Advanced(c, page), start, got + page)
  {
    NextIdIsNew(c.cursors, Standing(start, got), page[|page| - 1].cursor);
  }

  lemma ClientAdvances(log: seq<Event>, c: Client, start: Cursor, got: seq<Frame>, page: seq<Frame>, pageBytes: nat)
    requires ClientAt(c, start, got) && Reading(log, start, got, pageBytes)
    requires Sendable(Pending(log, Standing(start, got))) && page != []
    requires IsPageOf(Pending(log, Standing(start, got)), pageBytes, Page(page))
    ensures Sendable(page) && Reading(log, start, got + page, pageBytes)
    ensures var id := CursorText(page[|page| - 1].cursor); id !in c.cursors && id != ""
    ensures ClientAt(Advanced(c, page), start, got + page)
  {
    PageIsPrefix(Pending(log, Standing(start, got)), pageBytes, page);
    PageExtends(log, start, got, pageBytes, page);
    ClientMoves(c, start, got, page);
  }

  lemma LastOfPage(page: seq<Frame>)
    requires Sendable(page) && page != []
    ensures ReadPage(PageText(page)) == Received(page)
    ensures |Received(page)| == |page| && Received(page)[|page| - 1].cursor == Some(CursorText(page[|page| - 1].cursor))
  {
    PageRoundTrip(page);
  }

  function After(c: Client, read: seq<ClientEvent>, id: string): Client {
    Client(c.events + read, Some(id), c.cursors + {id})
  }

  /** Reading these events moves the client behind the frames `now`. */
  ghost predicate Moves(c: Client, read: seq<ClientEvent>, start: Cursor, now: seq<Frame>) {
    && read != [] && read[|read| - 1].cursor.Some?
    && var id := read[|read| - 1].cursor.value;
       id !in c.cursors && id != "" && ClientAt(After(c, read, id), start, now)
  }

  /** What the client makes of the text of such a page. */
  lemma ClientReads(log: seq<Event>, c: Client, start: Cursor, got: seq<Frame>, page: seq<Frame>, pageBytes: nat)
    requires ClientAt(c, start, got) && Reading(log, start, got, pageBytes)
    requires Sendable(Pending(log, Standing(start, got))) && page != []
    requires IsPageOf(Pending(log, Standing(start, got)), pageBytes, Page(page))
    ensures Sendable(page) && Reading(log, start, got + page, pageBytes)
    ensures Moves(c, ReadPage(PageText(page)), start, got + page)
  {
    ClientAdvances(log, c, start, got, page, pageBytes);
    LastOfPage(page);
  }

  lemma ClientIsDone(log: seq<Event>, c: Client, start: Cursor, got: seq<Frame>, pageBytes: nat)
    requires ClientAt(c, start, got) && Reading(log, start, got, pageBytes)
    requires Sendable(Pending(log, Standing(start, got)))
    requires IsPageOf(Pending(log, Standing(start, got)), pageBytes, Page([]))
    ensures ReadPage(PageText([])) == [] && IsHistoryOf(log, start, pageBytes, History(c.events))
  {
    PageRoundTrip([]);
    PageIsLast(log, start, got, pageBytes);
  }

  /** What the loop does with the events of a page. */
  method TakePage(c: Client, read: seq<ClientEvent>, ghost start: Cursor, ghost now: seq<Frame>)
    returns (o: Option<Outcome>, next: Client)
    ensures Moves(c, read, start, now) ==> o.None? && ClientAt(next, start, now)
    ensures read == [] ==> o == Some(History(c.events)) && next == c
    ensures read != [] ==>
      var id := read[|read| - 1].cursor;
      if id.None? || id.value == "" || id.value in c.cursors then o == Some(CursorInvalid(c.events)) && next == c
      else o.None? && next == Client(c.events + read, id, c.cursors + {id.value})
  {
    if |read| == 0 {
      return Some(History(c.events)), c;
    }
    var id := read[|read| - 1].cursor;
    if id.None? || id.value == "" || id.value in c.cursors {
      return Some(CursorInvalid(c.events)), c;
    }
    return None, Client(c.events + read, id, c.cursors + {id.value});
  }

  /** The client reads a page, and either stops or stands behind its last frame. */
  method ReadServed(c: Client, page: seq<Frame>, pageBytes: nat, ghost log: seq<Event>, ghost start: Cursor, ghost got: seq<Frame>)
    returns (o: Option<Outcome>, next: Client)
    requires ClientAt(c, start, got) && Reading(log, start, got, pageBytes) && Sendable(page)
    requires Sendable(Pending(log, Standing(start, got))) && IsPageOf(Pending(log, Standing(start, got)), pageBytes, Page(page))
    ensures o.Some? ==> IsHistoryOf(log, start, pageBytes, o.value)
    ensures o.None? ==> page != [] && Reading(log, start, got + page, pageBytes) && ClientAt(next, start, got + page)
  {
    if page == [] {
      ClientIsDone(log, c, start, got, pageBytes);
    } else {
      ClientReads(log, c, start, got, page, pageBytes);
    }
    o, next := TakePage(c, ReadPage(PageText(page)), start, got + page);
  }

  /** One round of the client's loop: it asks for a page and reads it. */
  method Round(log: seq<Event>, c: Client, pageBytes: nat, ghost start: Cursor, ghost got: seq<Frame>)
    returns (o: Option<Outcome>, next: Client, ghost page: seq<Frame>)
    requires ClientAt(c, start, got) && Reading(log, start, got, pageBytes)
    requires Sendable(Pending(log, Standing(start, got)))
    ensures o.Some? ==> IsHistoryOf(log, start, pageBytes, o.value)
    ensures o.None? ==> page != [] && Reading(log, start, got + page, pageBytes) && ClientAt(next, start, got + page)
  {
    next, page := c, [];
    var at := RequestCursor(c.cursor).value;
    var served := ServePage(log, at, pageBytes);
    if served.FrameTooLarge? {
      PageRefused(log, start, got, pageBytes);
      return Some(TooLarge(c.events)), c, page;
    }
    page := served.frames;
    PageIsPrefix(Pending(log, Standing(start, got)), pageBytes, page);
    o, next := ReadServed(c, served.frames, pageBytes, log, start, got);
  }

  /** The whole read of a log that may grow between requests: it ends, never reports a repeated
      cursor, and returns exactly what one unpaged replay of the last log would. */
  method ReadHistory(logAt: nat -> seq<Event>, ghost final: seq<Event>, lastEventId: Option<string>, pageBytes: nat)
    returns (o: Outcome, ghost last: nat)
    requires Growing(logAt, final)
    ensures o.BadRequest? <==> RequestCursor(lastEventId).None?
    ensures !o.BadRequest? ==>
      && Sendable(Pending(logAt(last), RequestCursor(lastEventId).value))
      && IsHistoryOf(logAt(last), RequestCursor(lastEventId).value, pageBytes, o)
    ensures lastEventId.None? || lastEventId.value == "" ==>
      var all := Replay(logAt(last), FRESH);
      Sendable(all) && (Fits(all, pageBytes) ==> o == History(Received(all)))
  {
    last := 0;
    if RequestCursor(lastEventId).None? {
      return BadRequest, last;
    }
    var seen := if lastEventId.Some? && lastEventId.value != "" then {lastEventId.value} else {};
    var client := Client([], lastEventId, seen);
    ghost var start := RequestCursor(lastEventId).value;
    ghost var got: seq<Frame> := [];
    var request := 0;
    PrefixFacts(logAt(0), final, start);
    while true
      invariant ClientAt(client, start, got) && Reading(logAt(request), start, got, pageBytes)
      decreases |Pending(final, start)| - |got|
    {
      last := request;
      PrefixFacts(logAt(request), final, Standing(start, got));
      var done, next;
      ghost var page;
      done, next, page := Round(logAt(request), client, pageBytes, start, got);
      if done.Some? {
        if lastEventId.None? || lastEventId.value == "" {
          FirstReadIsEverything(logAt(last), lastEventId);
        }
        return done.value, last;
      }
      PrefixFacts(logAt(request), final, start);
      request := request + 1;
      PrefixFacts(logAt(request), final, start);
      ReadingGrows(logAt(last), logAt(request), start, got + page, pageBytes);
      client, got := next, got + page;
    }
  }
}
