/** The framing of the private Grant channel: the writer of
    mvp/src/workbench/runtime/provider_grants/private_transport.py, the incremental receiver of
    mvp/sidecars/deepseek-harness/src/grant-channel.ts and the exact-length reader of
    mvp/runtime-hosts/goose-host-v2/src/grant_channel.rs. */
module GrantFraming {
  import opened Basics

  newtype byte = x: int | 0 <= x < 256
  type bytes = seq<byte>

  /** `JAGTGRN1` and `JAGTACK1`. */
  const GRANT_MAGIC: bytes := [0x4A, 0x41, 0x47, 0x54, 0x47, 0x52, 0x4E, 0x31]
  const ACK_MAGIC: bytes := [0x4A, 0x41, 0x47, 0x54, 0x41, 0x43, 0x4B, 0x31]
  const WIRE_VERSION: byte := 1
  const GRANT_PREFIX := 17
  const ACK_PREFIX := 13
  const MAX_HEADER := 65536
  const MAX_SECRET := 65536
  const MAX_ACK := 8192

  // ----- lengths on the wire -----

  function Big32(n: nat): (r: bytes)
    requires n < 0x1_0000_0000
    ensures |r| == 4
  {
    [(n / 0x100_0000) as byte, (n / 0x1_0000 % 0x100) as byte, (n / 0x100 % 0x100) as byte, (n % 0x100) as byte]
  }

  function FromBig32(b: bytes): (n: nat)
    requires |b| == 4
    ensures n < 0x1_0000_0000
  {
    b[0] as int * 0x100_0000 + b[1] as int * 0x1_0000 + b[2] as int * 0x100 + b[3] as int
  }

  lemma Big32RoundTrip(n: nat)
    requires n < 0x1_0000_0000
    ensures FromBig32(Big32(n)) == n
  {
    var a, b := n / 0x100, n / 0x1_0000;
    assert a / 0x100 == b && b / 0x100 == n / 0x100_0000;
    assert n == a * 0x100 + n % 0x100 && a == b * 0x100 + a % 0x100 && b == n / 0x100_0000 * 0x100 + b % 0x100;
  }

  lemma Big32Covers(b: bytes)
    requires |b| == 4
    ensures Big32(FromBig32(b)) == b
  {
    var n := FromBig32(b);
    var high := b[0] as int * 0x100 + b[1] as int;
    var upper := high * 0x100 + b[2] as int;
    assert n == upper * 0x100 + b[3] as int && n / 0x100 == upper;
    assert upper / 0x100 == high && n / 0x1_0000 == high;
    assert high / 0x100 == b[0] as int && n / 0x100_0000 == b[0] as int;
  }

  // ----- the frame -----

  function Encode(header: bytes, secret: bytes): (r: bytes)
    requires |header| <= MAX_HEADER && |secret| <= MAX_SECRET
    ensures |r| == GRANT_PREFIX + |header| + |secret|
  {
    GRANT_MAGIC + [WIRE_VERSION] + Big32(|header|) + Big32(|secret|) + header + secret
  }

  predicate PrefixIsValid(s: bytes)
    requires |s| >= GRANT_PREFIX
  {
    && s[..8] == GRANT_MAGIC && s[8] == WIRE_VERSION
    && 1 <= FromBig32(s[9..13]) <= MAX_HEADER && FromBig32(s[13..17]) <= MAX_SECRET
  }

  /** The length a frame with this prefix has. */
  function Expected(s: bytes): nat
    requires |s| >= GRANT_PREFIX
  {
    GRANT_PREFIX + FromBig32(s[9..13]) + FromBig32(s[13..17])
  }

  datatype Reason = Framing | Incomplete | Trailing

  /** A delivered Grant is acknowledged; once the acknowledgement is out it is kept, and the socket gone. */
  datatype State =
    | Reading
    | Delivered(header: bytes, secret: bytes)
    | Kept(header: bytes, secret: bytes)
    | Failed(reason: Reason)

  /** What a receiver makes of the bytes so far, taken as a whole. */
  function Verdict(s: bytes): (r: State)
    ensures !r.Kept?
  {
    if |s| < GRANT_PREFIX then Reading
    else if !PrefixIsValid(s) then Failed(Framing)
    else if |s| < Expected(s) then Reading
    else if |s| > Expected(s) then Failed(Trailing)
    else
      var h := GRANT_PREFIX + FromBig32(s[9..13]);
      Delivered(s[GRANT_PREFIX..h], s[h..])
  }

  /** The verdict once the stream has ended. */
  function Final(s: bytes): State {
    if Verdict(s).Reading? then Failed(Incomplete) else Verdict(s)
  }

  /** Decoding an encoded frame gives the header and the secret back. */
  lemma FrameRoundTrip(header: bytes, secret: bytes)
    requires 1 <= |header| <= 65536 && |secret| <= 65536
    ensures Final(Encode(header, secret)) == Delivered(header, secret)
  {
    var s := Encode(header, secret);
    Big32RoundTrip(|header|);
    Big32RoundTrip(|secret|);
    assert s[..8] == GRANT_MAGIC && s[8] == WIRE_VERSION;
    assert s[9..13] == Big32(|header|) && s[13..17] == Big32(|secret|);
    assert PrefixIsValid(s) && Expected(s) == |s|;
    assert s[GRANT_PREFIX..GRANT_PREFIX + |header|] == header && s[GRANT_PREFIX + |header|..] == secret;
  }

  predicate IsText(s: bytes, text: string) {
    |s| == |text| && forall k | 0 <= k < |text| :: s[k] as int as char == text[k]
  }

  /** What a frame looks like: its magic, the version, the two lengths with their high bytes first, and the rest. */
  lemma FramesLookLikeThis(header: bytes, secret: bytes)
    requires |header| <= MAX_HEADER && |secret| <= MAX_SECRET
    ensures var s := Encode(header, secret);
      && |s| == 17 + |header| + |secret| && IsText(s[..8], "JAGTGRN1") && s[8] == 1
      && s[9] as int * 0x100_0000 + s[10] as int * 0x1_0000 + s[11] as int * 0x100 + s[12] as int == |header|
      && s[13] as int * 0x100_0000 + s[14] as int * 0x1_0000 + s[15] as int * 0x100 + s[16] as int == |secret|
      && s[17..] == header + secret
  {
    var s := Encode(header, secret);
    Big32RoundTrip(|header|);
    Big32RoundTrip(|secret|);
    assert s[..8] == GRANT_MAGIC && s[9..13] == Big32(|header|) && s[13..17] == Big32(|secret|);
    assert s[9] == s[9..13][0] && s[10] == s[9..13][1] && s[11] == s[9..13][2] && s[12] == s[9..13][3];
    assert s[13] == s[13..17][0] && s[14] == s[13..17][1] && s[15] == s[13..17][2] && s[16] == s[13..17][3];
  }

  /** Only encoded frames are delivered: there is one frame for what is delivered. */
  lemma OnlyFramesAreDelivered(s: bytes)
    requires Final(s).Delivered?
    ensures var d := Final(s);
      1 <= |d.header| <= 65536 && |d.secret| <= 65536 && s == Encode(d.header, d.secret)
  {
    var d := Final(s);
    Big32Covers(s[9..13]);
    Big32Covers(s[13..17]);
    assert s == s[..8] + [s[8]] + s[9..13] + s[13..17] + d.header + d.secret;
  }

  /** Streams with the same first bytes have the same lengths in them. */
  lemma PrefixDecides(s: bytes, t: bytes)
    requires |s| >= GRANT_PREFIX && |t| >= GRANT_PREFIX && s[..GRANT_PREFIX] == t[..GRANT_PREFIX]
    ensures PrefixIsValid(s) == PrefixIsValid(t) && Expected(s) == Expected(t)
    ensures s[9..13] == t[9..13] && s[13..17] == t[13..17]
  {
    var p := s[..GRANT_PREFIX];
    assert s[..8] == p[..8] && s[8] == p[8] && s[9..13] == p[9..13] && s[13..17] == p[13..17];
    assert t[..8] == p[..8] && t[8] == p[8] && t[9..13] == p[9..13] && t[13..17] == p[13..17];
  }

  /** No strict prefix of a delivered stream is delivered. */
  lemma DeliveryNeedsTheExactLength(s: bytes, n: nat)
    requires Final(s).Delivered? && n < |s|
    ensures Final(s[..n]) == Failed(Incomplete)
  {
    if n >= GRANT_PREFIX {
      PrefixDecides(s, s[..n]);
    }
  }

  lemma PrefixStays(s: bytes, more: bytes)
    requires |s| >= GRANT_PREFIX
    ensures PrefixIsValid(s + more) == PrefixIsValid(s) && Expected(s + more) == Expected(s)
  {
    PrefixDecides(s, s + more);
  }

  /** More bytes never make a bad stream good, and they make a whole frame overlong. */
  lemma VerdictsAreFinal(s: bytes, more: bytes)
    requires more != []
    ensures Verdict(s).Failed? ==> Verdict(s + more) == Verdict(s)
    ensures Verdict(s).Delivered? ==> Verdict(s + more) == Failed(Trailing)
  {
    if |s| >= GRANT_PREFIX {
      PrefixStays(s, more);
    }
  }

  /** A header and a secret that a frame can carry. */
  predicate Fits(header: bytes, secret: bytes) {
    1 <= |header| <= 65536 && |secret| <= 65536
  }

  /** The bytes are a frame, go on behind one, stop within one, or begin like one. */
  ghost predicate IsFrame(s: bytes) {
    exists header: bytes, secret: bytes :: Fits(header, secret) && s == Encode(header, secret)
  }

  ghost predicate Overshoots(s: bytes) {
    exists header: bytes, secret: bytes :: Fits(header, secret) && Encode(header, secret) < s
  }

  ghost predicate Undershoots(s: bytes) {
    exists header: bytes, secret: bytes :: Fits(header, secret) && s < Encode(header, secret)
  }

  ghost predicate BeginsLikeFrame(s: bytes)
    requires |s| >= 17
  {
    exists header: bytes, secret: bytes :: Fits(header, secret) && Encode(header, secret)[..17] == s[..17]
  }

  /** A frame that begins like the bytes, if their prefix is valid. */
  lemma FrameFor(s: bytes) returns (header: bytes, secret: bytes)
    requires |s| >= GRANT_PREFIX && PrefixIsValid(s)
    ensures Fits(header, secret) && |Encode(header, secret)| == Expected(s)
    ensures var f := Encode(header, secret); if |s| <= |f| then s <= f else f <= s
  {
    var zeros := seq<byte>(Expected(s), i => 0);
    var t := (s + zeros)[..Expected(s)];
    assert t[..GRANT_PREFIX] == s[..GRANT_PREFIX];
    PrefixDecides(s, t);
    OnlyFramesAreDelivered(t);
    header, secret := Verdict(t).header, Verdict(t).secret;
  }

  lemma FramesBeginRight(header: bytes, secret: bytes, s: bytes)
    requires Fits(header, secret) && |s| >= GRANT_PREFIX && Encode(header, secret)[..GRANT_PREFIX] == s[..GRANT_PREFIX]
    ensures PrefixIsValid(s) && Expected(s) == |Encode(header, secret)|
  {
    FrameRoundTrip(header, secret);
    PrefixDecides(Encode(header, secret), s);
  }

  lemma FramesWithPrefix(s: bytes)
    requires |s| >= GRANT_PREFIX
    ensures BeginsLikeFrame(s) <==> PrefixIsValid(s)
    ensures IsFrame(s) <==> PrefixIsValid(s) && |s| == Expected(s)
    ensures Overshoots(s) <==> PrefixIsValid(s) && |s| > Expected(s)
    ensures Undershoots(s) <==> PrefixIsValid(s) && |s| < Expected(s)
  {
    if PrefixIsValid(s) {
      var header, secret := FrameFor(s);
      assert Encode(header, secret)[..17] == s[..17];
    }
    forall header: bytes, secret: bytes | Fits(header, secret) && Encode(header, secret)[..17] == s[..17]
      ensures PrefixIsValid(s) && Expected(s) == |Encode(header, secret)|
    {
      FramesBeginRight(header, secret, s);
    }
    forall header: bytes, secret: bytes | Fits(header, secret) && (Encode(header, secret) < s || s <= Encode(header, secret))
      ensures Encode(header, secret)[..17] == s[..17]
    {}
  }

  /** The verdict on what has arrived: a frame is delivered; of more than a frame the rest is trailing; what begins
      like no frame is badly framed; and anything else may still become one. */
  lemma VerdictsAre(s: bytes)
    ensures Verdict(s).Delivered? <==> IsFrame(s)
    ensures Verdict(s) == Failed(Trailing) <==> Overshoots(s)
    ensures Verdict(s) == Failed(Framing) <==> |s| >= 17 && !BeginsLikeFrame(s)
    ensures Verdict(s).Reading? <==> |s| < 17 || Undershoots(s)
  {
    if |s| >= GRANT_PREFIX {
      FramesWithPrefix(s);
    }
  }

  // ----- the incremental receiver -----

  /** What the socket tells the receiver: bytes, that the acknowledgement is out, the end of the stream. */
  datatype Step = Data(chunk: bytes) | Flushed | End

  /** The stream has ended by the `n`-th step. */
  predicate EndedBy(steps: seq<Step>, n: nat)
    requires n <= |steps|
  {
    exists i :: 0 <= i < n && steps[i].End?
  }

  /** Chunks are not empty, and none comes behind the end. */
  predicate IsStream(steps: seq<Step>) {
    forall k: nat | k < |steps| && steps[k].Data? :: steps[k].chunk != [] && !EndedBy(steps, k)
  }

  function Chunk(step: Step): bytes {
    if step.Data? then step.chunk else []
  }

  /** The bytes of the first `n` steps. */
  function BytesTo(steps: seq<Step>, n: nat): bytes
    requires n <= |steps|
  {
    if n == 0 then [] else BytesTo(steps, n - 1) + Chunk(steps[n - 1])
  }

  function Bytes(steps: seq<Step>): bytes {
    BytesTo(steps, |steps|)
  }

  /** One step, with the bytes that have arrived by then. A failed receiver and one that keeps its Grant
      hear no more. */
  function Next(was: State, s: bytes, step: Step): State {
    match step
    case Data(_) => if Listens(was) then Verdict(s) else was
    case Flushed => if was.Delivered? then Kept(was.header, was.secret) else was
    case End => if was.Reading? then Failed(Incomplete) else was
  }

  predicate Listens(state: State) {
    state.Reading? || state.Delivered?
  }

  function StateAt(steps: seq<Step>, n: nat): State
    requires n <= |steps|
  {
    if n == 0 then Reading else Next(StateAt(steps, n - 1), BytesTo(steps, n), steps[n - 1])
  }

  function After(steps: seq<Step>): State {
    StateAt(steps, |steps|)
  }

  lemma {:induction false} StepsInside(steps: seq<Step>, more: seq<Step>, n: nat)
    requires n <= |steps|
    ensures BytesTo(steps + more, n) == BytesTo(steps, n) && StateAt(steps + more, n) == StateAt(steps, n)
  {
    if n > 0 {
      StepsInside(steps, more, n - 1);
      assert (steps + more)[n - 1] == steps[n - 1];
    }
  }

  lemma OneMoreStep(steps: seq<Step>, step: Step)
    ensures Bytes(steps + [step]) == Bytes(steps) + Chunk(step)
    ensures After(steps + [step]) == Next(After(steps), Bytes(steps) + Chunk(step), step)
  {
    StepsInside(steps, [step], |steps|);
  }

  lemma {:induction false} BytesGrow(steps: seq<Step>, k: nat, n: nat)
    requires k <= n <= |steps|
    ensures BytesTo(steps, k) <= BytesTo(steps, n)
  {
    if k < n {
      BytesGrow(steps, k, n - 1);
    }
  }

  lemma NextListens(was: State, s: bytes, step: Step)
    requires Listens(was) ==> was == Verdict(s)
    ensures var now := Next(was, s + Chunk(step), step); Listens(now) ==> now == Verdict(s + Chunk(step))
  {
    assert !step.Data? ==> s + Chunk(step) == s;
  }

  /** A receiver that still listens judges the bytes so far. */
  lemma {:induction false} ListenerIsRight(steps: seq<Step>, n: nat)
    requires n <= |steps|
    ensures Listens(StateAt(steps, n)) ==> StateAt(steps, n) == Verdict(BytesTo(steps, n))
  {
    if n > 0 {
      ListenerIsRight(steps, n - 1);
      NextListens(StateAt(steps, n - 1), BytesTo(steps, n - 1), steps[n - 1]);
    }
  }

  /** The acknowledgement is out when precisely a frame has arrived. */
  predicate KeptAt(steps: seq<Step>, k: nat)
    requires k < |steps|
  {
    steps[k].Flushed? && Verdict(BytesTo(steps, k)).Delivered?
  }

  /** The verdict on what has arrived, final if that is all. */
  function Judged(s: bytes, ended: bool): State {
    if ended then Final(s) else Verdict(s)
  }

  lemma NextJudged(s: bytes, ended: bool, step: Step)
    requires step.Data? ==> !ended && step.chunk != []
    requires step.Flushed? ==> !Verdict(s).Delivered?
    ensures Next(Judged(s, ended), s + Chunk(step), step) == Judged(s + Chunk(step), ended || step.End?)
  {
    if step.Data? {
      VerdictsAreFinal(s, step.chunk);
    } else {
      assert s + Chunk(step) == s;
    }
  }

  lemma NextKeeps(s: bytes, ended: bool)
    requires Verdict(s).Delivered?
    ensures Next(Judged(s, ended), s + [], Flushed) == Kept(Verdict(s).header, Verdict(s).secret)
  {}

  lemma {:induction false} NeverKept(steps: seq<Step>, n: nat)
    requires IsStream(steps) && n <= |steps| && forall k: nat | k < n :: !KeptAt(steps, k)
    ensures StateAt(steps, n) == Judged(BytesTo(steps, n), EndedBy(steps, n))
  {
    if n > 0 {
      NeverKept(steps, n - 1);
      assert !KeptAt(steps, n - 1);
      assert EndedBy(steps, n) <==> EndedBy(steps, n - 1) || steps[n - 1].End?;
      NextJudged(BytesTo(steps, n - 1), EndedBy(steps, n - 1), steps[n - 1]);
    }
  }

  lemma OneFrame(steps: seq<Step>, k: nat, n: nat)
    requires k <= n <= |steps| && Verdict(BytesTo(steps, k)).Delivered? && Verdict(BytesTo(steps, n)).Delivered?
    ensures BytesTo(steps, k) == BytesTo(steps, n)
  {
    var s, t := BytesTo(steps, k), BytesTo(steps, n);
    BytesGrow(steps, k, n);
    assert t == s + t[|s|..];
    if t[|s|..] != [] {
      VerdictsAreFinal(s, t[|s|..]);
    }
  }

  /** The Grant that a delivered frame leaves. */
  function Grant(s: bytes): (r: State)
    requires Verdict(s).Delivered?
    ensures r.Kept?
  {
    Kept(Verdict(s).header, Verdict(s).secret)
  }

  lemma KeptFirst(steps: seq<Step>, n: nat)
    requires IsStream(steps) && n < |steps| && KeptAt(steps, n) && forall k: nat | k < n :: !KeptAt(steps, k)
    ensures StateAt(steps, n + 1) == Grant(BytesTo(steps, n))
  {
    NeverKept(steps, n);
    NextKeeps(BytesTo(steps, n), EndedBy(steps, n));
  }

  lemma {:induction false} KeptGoesOn(steps: seq<Step>, k: nat, n: nat)
    requires k <= n <= |steps| && StateAt(steps, k).Kept?
    ensures StateAt(steps, n) == StateAt(steps, k)
  {
    if k < n {
      KeptGoesOn(steps, k, n - 1);
    }
  }

  lemma KeptAgain(steps: seq<Step>, j: nat, k: nat, grant: State)
    requires j < k < |steps| && grant.Kept? && StateAt(steps, j + 1) == grant
    ensures StateAt(steps, k + 1) == grant
  {
    KeptGoesOn(steps, j + 1, k + 1);
  }

  lemma {:induction false} KeptNow(steps: seq<Step>, k: nat)
    requires IsStream(steps) && k < |steps| && KeptAt(steps, k)
    ensures StateAt(steps, k + 1) == Grant(BytesTo(steps, k))
  {
    if j: nat :| j < k && KeptAt(steps, j) {
      KeptNow(steps, j);
      OneFrame(steps, j, k);
      KeptAgain(steps, j, k, Grant(BytesTo(steps, j)));
    } else {
      KeptFirst(steps, k);
    }
  }

  lemma KeptStays(steps: seq<Step>, k: nat, n: nat)
    requires IsStream(steps) && k < n <= |steps| && KeptAt(steps, k)
    ensures StateAt(steps, n) == Grant(BytesTo(steps, k))
  {
    KeptNow(steps, k);
    if k + 1 < n {
      KeptAgain(steps, k, n - 1, Grant(BytesTo(steps, k)));
    }
  }

  /** The acknowledgement goes out when as many bytes have arrived as the frame is long. */
  predicate AckedAt(steps: seq<Step>, k: nat)
    requires k < |steps| && |Bytes(steps)| >= GRANT_PREFIX
  {
    steps[k].Flushed? && |BytesTo(steps, k)| == Expected(Bytes(steps))
  }

  predicate AckedAtFrame(steps: seq<Step>)
    requires |Bytes(steps)| >= GRANT_PREFIX
  {
    exists k: nat :: k < |steps| && AckedAt(steps, k)
  }

  /** The Grant of the frame that the stream begins with. */
  function KeptFrame(s: bytes): State
    requires |s| >= GRANT_PREFIX && |s| >= Expected(s)
  {
    var h := GRANT_PREFIX + FromBig32(s[9..13]);
    Kept(s[GRANT_PREFIX..h], s[h..Expected(s)])
  }

  lemma FrameIsDelivered(s: bytes)
    requires |s| >= GRANT_PREFIX && PrefixIsValid(s) && |s| >= Expected(s)
    ensures var d, kept := Verdict(s[..Expected(s)]), KeptFrame(s);
      d == Delivered(kept.header, kept.secret)
  {
    var t := s[..Expected(s)];
    assert t[..GRANT_PREFIX] == s[..GRANT_PREFIX];
    PrefixDecides(s, t);
    var h := GRANT_PREFIX + FromBig32(s[9..13]);
    assert t[GRANT_PREFIX..h] == s[GRANT_PREFIX..h] && t[h..] == s[h..Expected(s)];
  }

  lemma KeptFrameIs(steps: seq<Step>, k: nat)
    requires k < |steps| && KeptAt(steps, k)
    ensures var s := Bytes(steps);
      && |s| >= GRANT_PREFIX && PrefixIsValid(s) && |s| >= Expected(s) && AckedAt(steps, k)
      && KeptFrame(s) == Grant(BytesTo(steps, k))
  {
    var s, t := Bytes(steps), BytesTo(steps, k);
    BytesGrow(steps, k, |steps|);
    assert t[..GRANT_PREFIX] == s[..GRANT_PREFIX];
    PrefixDecides(s, t);
    assert t == s[..Expected(s)];
    FrameIsDelivered(s);
  }

  lemma AckedIsKept(steps: seq<Step>, k: nat)
    requires |Bytes(steps)| >= GRANT_PREFIX && PrefixIsValid(Bytes(steps)) && |Bytes(steps)| >= Expected(Bytes(steps))
    requires k < |steps| && AckedAt(steps, k)
    ensures KeptAt(steps, k)
  {
    BytesGrow(steps, k, |steps|);
    assert BytesTo(steps, k) == Bytes(steps)[..Expected(Bytes(steps))];
    FrameIsDelivered(Bytes(steps));
  }

  /** However a stream is split into chunks and whenever the acknowledgement goes out, the receiver ends with
      the verdict on the whole stream, unless the stream goes on behind a frame; then it keeps the Grant if
      and only if the acknowledgement went out when precisely the frame had arrived. */
  lemma SplitsAgree(steps: seq<Step>)
    requires IsStream(steps)
    ensures var s, d := Bytes(steps), Verdict(Bytes(steps));
      && (d != Failed(Trailing) ==>
            || After(steps) == Judged(s, EndedBy(steps, |steps|))
            || (d.Delivered? && After(steps) == Grant(s)))
      && (d == Failed(Trailing) ==>
            After(steps) == if AckedAtFrame(steps) then KeptFrame(s) else Failed(Trailing))
  {
    var s := Bytes(steps);
    if k: nat :| k < |steps| && KeptAt(steps, k) {
      KeptStays(steps, k, |steps|);
      KeptFrameIs(steps, k);
      assert Verdict(s).Delivered? ==> s[..Expected(s)] == s;
    } else {
      NeverKept(steps, |steps|);
      if Verdict(s) == Failed(Trailing) && AckedAtFrame(steps) {
        var k: nat :| k < |steps| && AckedAt(steps, k);
        AckedIsKept(steps, k);
      }
    }
  }

  /** A frame, then its acknowledgement, and only then more bytes. */
  function MoreBehindAck(frame: bytes, more: bytes): seq<Step> {
    [Data(frame), Flushed, Data(more), End]
  }

  lemma BytesBehindAck(frame: bytes, more: bytes)
    ensures var steps := MoreBehindAck(frame, more);
      BytesTo(steps, 1) == frame && BytesTo(steps, 2) == frame && Bytes(steps) == frame + more
  {
    var steps := MoreBehindAck(frame, more);
    assert BytesTo(steps, 0) == [];
    assert BytesTo(steps, 1) == [] + frame == frame;
    assert BytesTo(steps, 2) == frame + [] == frame;
    assert BytesTo(steps, 3) == frame + more;
    assert BytesTo(steps, 4) == frame + more + [] == frame + more;
  }

  /** The overlong stream that is kept. */
  lemma OverlongIsKept(header: bytes, secret: bytes, more: bytes)
    requires 1 <= |header| <= MAX_HEADER && |secret| <= MAX_SECRET && more != []
    ensures var steps := MoreBehindAck(Encode(header, secret), more);
      && IsStream(steps) && Verdict(Bytes(steps)) == Failed(Trailing) && After(steps) == Kept(header, secret)
  {
    var frame := Encode(header, secret);
    FrameRoundTrip(header, secret);
    VerdictsAreFinal(frame, more);
    BytesBehindAck(frame, more);
    IsStreamBehindAck(frame, more);
    KeptBehindAck(frame, more);
  }

  lemma IsStreamBehindAck(frame: bytes, more: bytes)
    requires frame != [] && more != []
    ensures IsStream(MoreBehindAck(frame, more))
  {}

  lemma KeptBehindAck(frame: bytes, more: bytes)
    requires Verdict(frame).Delivered? && more != []
    ensures After(MoreBehindAck(frame, more)) == Grant(frame)
  {
    BytesBehindAck(frame, more);
    IsStreamBehindAck(frame, more);
    KeptStays(MoreBehindAck(frame, more), 1, 4);
  }

  class Receiver {
    var buffered: bytes
    var expectedBytes: Option<nat>
    var state: State
    ghost var steps: seq<Step>

    ghost predicate Valid()
      reads this
    {
      IsStream(steps) && state == After(steps) && BufferAgrees(state, buffered, expectedBytes, Bytes(steps))
    }

    constructor ()
      ensures Valid() && steps == []
    {
      buffered, expectedBytes, state, steps := [], None, Reading, [];
    }

    /** Records a step. */
    ghost method Hear(step: Step)
      requires IsStream(steps) && (step.Data? ==> step.chunk != [] && !EndedBy(steps, |steps|))
      modifies this`steps
      ensures steps == old(steps) + [step] && IsStream(steps)
      ensures Bytes(steps) == Bytes(old(steps)) + Chunk(step)
      ensures After(steps) == Next(After(old(steps)), Bytes(old(steps)) + Chunk(step), step)
    {
      OneMoreStep(steps, step);
      StreamGoesOn(steps, step);
      steps := steps + [step];
    }

    /** The `data` handler. A failed receiver, and one that keeps its Grant, has destroyed its socket. */
    method OnData(chunk: bytes)
      requires Valid() && chunk != [] && !EndedBy(steps, |steps|)
      modifies this
      ensures Valid() && steps == old(steps) + [Data(chunk)]
    {
      ListenerIsRight(steps, |steps|);
      ghost var before := Bytes(steps);
      Hear(Data(chunk));
      if !Listens(state) {
        return;
      }
      MoreBuffered(state, buffered, expectedBytes, before, chunk);
      buffered := buffered + chunk;
      Judge(before + chunk);
    }

    /** The rest of the handler: what it makes of the bytes `s` that have arrived. */
    method Judge(ghost s: bytes)
      requires Listens(state) && Unjudged(state, buffered, expectedBytes, s)
      modifies this`buffered, this`expectedBytes, this`state
      ensures state == Verdict(s) && BufferAgrees(state, buffered, expectedBytes, s)
    {
      if |buffered| >= GRANT_PREFIX && expectedBytes.None? {
        if !PrefixIsValid(buffered) {
          state := Failed(Framing);
          return;
        }
        expectedBytes := Some(Expected(buffered));
      }
      if expectedBytes.None? || |buffered| < expectedBytes.value {
        return;
      }
      if |buffered| != expectedBytes.value {
        state := Failed(Trailing);
        return;
      }
      var end := GRANT_PREFIX + FromBig32(buffered[9..13]);
      state := Delivered(buffered[GRANT_PREFIX..end], buffered[end..]);
      buffered := seq<byte>(|buffered|, i => 0);
    }

    /** The callback of `endpoint.end`: it destroys the socket and resolves. */
    method OnFlushed()
      requires Valid()
      modifies this
      ensures Valid() && steps == old(steps) + [Flushed]
    {
      assert Bytes(steps) + [] == Bytes(steps);
      Hear(Flushed);
      if state.Delivered? {
        state := Kept(state.header, state.secret);
      }
    }

    /** The `end` handler. */
    method OnEnd()
      requires Valid()
      modifies this
      ensures Valid() && steps == old(steps) + [End]
    {
      ListenerIsRight(steps, |steps|);
      assert Bytes(steps) + [] == Bytes(steps);
      Hear(End);
      if Listens(state) && (expectedBytes.None? || |buffered| != expectedBytes.value) {
        state := Failed(Incomplete);
      }
    }
  }

  lemma EndedInside(steps: seq<Step>, more: seq<Step>, k: nat)
    requires k <= |steps|
    ensures EndedBy(steps + more, k) <==> EndedBy(steps, k)
  {
    assert forall i | 0 <= i < k :: (steps + more)[i] == steps[i];
  }

  lemma StreamGoesOn(steps: seq<Step>, step: Step)
    requires IsStream(steps) && (step.Data? ==> step.chunk != [] && !EndedBy(steps, |steps|))
    ensures IsStream(steps + [step])
  {
    var all := steps + [step];
    forall k: nat | k < |all| && all[k].Data?
      ensures all[k].chunk != [] && !EndedBy(all, k)
    {
      EndedInside(steps, [step], k);
    }
  }

  /** What the receiver's fields say of the bytes `s` that have arrived, while it listens. */
  predicate BufferAgrees(state: State, buffered: bytes, expected: Option<nat>, s: bytes) {
    && (state.Reading? ==>
          && buffered == s && (expected.Some? <==> |s| >= GRANT_PREFIX)
          && (expected.Some? ==> expected.value == Expected(s)))
    && (state.Delivered? ==> |buffered| == |s| && expected == Some(|s|))
  }

  /** The same when the last chunk has been put into the buffer and not been looked at. */
  predicate Unjudged(state: State, buffered: bytes, expected: Option<nat>, s: bytes) {
    && (state.Reading? ==>
          && buffered == s
          && (expected.Some? ==> |s| >= GRANT_PREFIX && PrefixIsValid(s) && expected.value == Expected(s)))
    && (state.Delivered? ==>
          expected.Some? && |buffered| > expected.value >= GRANT_PREFIX && Verdict(s) == Failed(Trailing))
  }

  lemma MoreBuffered(state: State, buffered: bytes, expected: Option<nat>, s: bytes, chunk: bytes)
    requires Listens(state) && state == Verdict(s) && BufferAgrees(state, buffered, expected, s) && chunk != []
    ensures Unjudged(state, buffered + chunk, expected, s + chunk)
  {
    VerdictsAreFinal(s, chunk);
    if |s| >= GRANT_PREFIX {
      PrefixStays(s, chunk);
    }
  }

  lemma NotEndedYet(steps: seq<Step>, k: nat)
    requires IsStream(steps) && k < |steps|
    ensures steps[k].Data? ==> steps[k].chunk != [] && !EndedBy(steps[..k], k)
  {
    EndedInside(steps[..k], steps[k..], k);
    assert steps[..k] + steps[k..] == steps;
  }

  /** The receiver over a whole stream. */
  method Receive(steps: seq<Step>) returns (r: State)
    requires IsStream(steps)
    ensures r == After(steps)
  {
    var receiver := new Receiver();
    for k := 0 to |steps|
      invariant fresh(receiver) && receiver.Valid() && receiver.steps == steps[..k]
    {
      NotEndedYet(steps, k);
      match steps[k]
      case Data(chunk) => receiver.OnData(chunk);
      case Flushed => receiver.OnFlushed();
      case End => receiver.OnEnd();
    }
    assert steps[..|steps|] == steps;
    r := receiver.state;
  }

  // ----- the exact-length reader -----

  datatype Reading = Got(header: bytes, secret: bytes) | PrefixIncomplete | Invalid | HeaderIncomplete | SecretIncomplete

  /** `read_exact`: the next `n` bytes, if the stream has them. */
  function Take(s: bytes, at: nat, n: nat): Option<bytes>
    requires at <= |s|
  {
    if n <= |s| - at then Some(s[at..at + n]) else None
  }

  /** `read_once`, with headers that parse and credentials that fit; trailing bytes are never read. */
  method ReadOnce(s: bytes) returns (r: Reading)
    ensures r.PrefixIncomplete? <==> |s| < GRANT_PREFIX
    ensures r.Invalid? <==> |s| >= GRANT_PREFIX && !PrefixIsValid(s)
    ensures r.Got? <==> |s| >= GRANT_PREFIX && PrefixIsValid(s) && |s| >= Expected(s)
    ensures r.HeaderIncomplete? ==> |s| < GRANT_PREFIX + FromBig32(s[9..13])
    ensures r.SecretIncomplete? ==> GRANT_PREFIX + FromBig32(s[9..13]) <= |s| < Expected(s)
    ensures r.Got? ==> KeptFrame(s) == Kept(r.header, r.secret)
  {
    var prefix := Take(s, 0, GRANT_PREFIX);
    if prefix.None? {
      return PrefixIncomplete;
    }
    var p := prefix.value;
    assert p[..GRANT_PREFIX] == p;
    PrefixDecides(s, p);
    if !PrefixIsValid(p) {
      return Invalid;
    }
    var headerSize, secretSize := FromBig32(p[9..13]), FromBig32(p[13..17]);
    var header := Take(s, GRANT_PREFIX, headerSize);
    if header.None? {
      return HeaderIncomplete;
    }
    var secret := Take(s, GRANT_PREFIX + headerSize, secretSize);
    if secret.None? {
      return SecretIncomplete;
    }
    return Got(header.value, secret.value);
  }

  /** The stream goes on behind its frame, and never had precisely the frame arrived when the
      acknowledgement went out. */
  predicate Overruns(steps: seq<Step>) {
    |Bytes(steps)| >= GRANT_PREFIX && |Bytes(steps)| > Expected(Bytes(steps)) && !AckedAtFrame(steps)
  }

  /** The two decoders on one stream: the receiver accepts what the reader reads, with the same header and
      secret, unless the stream overruns; and nothing else. */
  method DecodersAgree(steps: seq<Step>) returns (received: State, read: Reading)
    requires IsStream(steps) && EndedBy(steps, |steps|)
    ensures received.Failed? <==> !read.Got? || Overruns(steps)
    ensures !received.Failed? ==>
      received == Delivered(read.header, read.secret) || received == Kept(read.header, read.secret)
  {
    received := Receive(steps);
    var s := Bytes(steps);
    read := ReadOnce(s);
    SplitsAgree(steps);
    if |s| >= GRANT_PREFIX && PrefixIsValid(s) && |s| >= Expected(s) {
      FrameIsDelivered(s);
      assert |s| == Expected(s) ==> s == s[..Expected(s)];
    }
  }

  // ----- the acknowledgement -----

  /** `ackFrame`: a payload that is too large is refused. */
  function AckFrame(payload: bytes): Option<bytes> {
    if |payload| > MAX_ACK then None else Some(ACK_MAGIC + [WIRE_VERSION] + Big32(|payload|) + payload)
  }

  /** How the supervisor reads an acknowledgement: its payload and what is left of the stream. */
  function ReadAck(s: bytes): Option<(bytes, bytes)> {
    if |s| < ACK_PREFIX || s[..8] != ACK_MAGIC || s[8] != WIRE_VERSION then None
    else
      var size := FromBig32(s[9..13]);
      if size == 0 || size > MAX_ACK || |s| < ACK_PREFIX + size then None
      else Some((s[ACK_PREFIX..ACK_PREFIX + size], s[ACK_PREFIX + size..]))
  }

  /** An acknowledgement is read back exactly, whatever follows it. */
  lemma AckRoundTrip(payload: bytes, rest: bytes)
    requires 1 <= |payload| <= 8192
    ensures AckFrame(payload).Some? && ReadAck(AckFrame(payload).value + rest) == Some((payload, rest))
  {
    var s := AckFrame(payload).value + rest;
    Big32RoundTrip(|payload|);
    assert s[..8] == ACK_MAGIC && s[8] == WIRE_VERSION && s[9..13] == Big32(|payload|);
    assert s[ACK_PREFIX..ACK_PREFIX + |payload|] == payload && s[ACK_PREFIX + |payload|..] == rest;
  }

  /** What an acknowledgement looks like; one with a longer payload is refused. */
  lemma AcksLookLikeThis(payload: bytes)
    ensures AckFrame(payload).None? <==> |payload| > 8192
    ensures AckFrame(payload).Some? ==>
      var s := AckFrame(payload).value;
      && |s| == 13 + |payload| && IsText(s[..8], "JAGTACK1") && s[8] == 1 && s[13..] == payload
      && s[9] as int * 0x100_0000 + s[10] as int * 0x1_0000 + s[11] as int * 0x100 + s[12] as int == |payload|
  {
    if |payload| <= 8192 {
      var s := AckFrame(payload).value;
      Big32RoundTrip(|payload|);
      assert s[..8] == ACK_MAGIC && s[9..13] == Big32(|payload|);
      assert s[9] == s[9..13][0] && s[10] == s[9..13][1] && s[11] == s[9..13][2] && s[12] == s[9..13][3];
    }
  }

  /** Only an acknowledgement is read as one, and only the whole of it. */
  lemma OnlyAcksAreRead(s: bytes)
    requires ReadAck(s).Some?
    ensures var (payload, rest) := ReadAck(s).value;
      1 <= |payload| <= 8192 && AckFrame(payload).Some? && s == AckFrame(payload).value + rest
  {
    var (payload, rest) := ReadAck(s).value;
    Big32Covers(s[9..13]);
    assert s == s[..8] + [s[8]] + s[9..13] + payload + rest;
  }

  /** No grant frame is read as an acknowledgement. */
  lemma GrantIsNoAck(header: bytes, secret: bytes)
    requires |header| <= MAX_HEADER && |secret| <= MAX_SECRET
    ensures ReadAck(Encode(header, secret)).None?
  {
    var s := Encode(header, secret);
    assert s[..8][4] == GRANT_MAGIC[4] && GRANT_MAGIC[4] != ACK_MAGIC[4];
  }
}
