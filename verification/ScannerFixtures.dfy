/** The fixture allowance of mvp/scripts/scan_changed_credentials.py: index each line and each
    qualifying marker once, then bind each marker to at most one credential span.

    The two-pointer sweeps, binary searches, early breaks and reverse scans of the source are
    proved to compute quantified rules about lines, markers and spans. */
module ScannerFixtures {
  import opened Basics
  import opened ScannerShapes

  datatype Line = Line(start: nat, end: nat, indices: seq<nat>, starts: seq<nat>)
  datatype Match = Match(start: nat, end: nat)
  datatype Pattern = RejectionTerm | FixtureMarker
  datatype Marker = Marker(start: nat, end: nat, line: nat)

  const MAX_DISTANCE: nat := 256
  const NEWLINE: byte := 10
  const SPACE: byte := 32
  const REJECT: bytes := [114, 101, 106, 101, 99, 116]
  const UNSAFE: bytes := [117, 110, 115, 97, 102, 101]
  const SENSITIVE: bytes := [115, 101, 110, 115, 105, 116, 105, 118, 101]
  const MARKER: bytes := // credential-fixture:
    [99, 114, 101, 100, 101, 110, 116, 105, 97, 108, 45, 102, 105, 120, 116, 117, 114, 101, 58]
  const TEST_ROOT: bytes := [109, 118, 112, 47, 116, 101, 115, 116, 115, 47] // mvp/tests/

  // ----- the declarative rule -----

  /** Span i overlaps the line, including a span that runs across its newlines. */
  predicate OnLine(spans: seq<Span>, line: Line, i: nat) {
    i < |spans| && spans[i].start < line.end && spans[i].end > line.start
  }

  predicate Follows(blob: bytes, line: Line, next: Line) {
    line.end < |blob| && blob[line.end] as char == '\n' && next.start == line.end + 1
  }

  /** The lines partition the blob at its newlines. */
  ghost predicate LinesOf(blob: bytes, lines: seq<Line>) {
    && |lines| > 0 && lines[0].start == 0 && lines[|lines| - 1].end == |blob|
    && (forall k | 0 <= k < |lines| :: lines[k].start <= lines[k].end <= |blob|)
    && (forall i, j | 0 <= i < |lines| - 1 && j == i + 1 :: Follows(blob, lines[i], lines[j]))
    && (forall k, p | 0 <= k < |lines| && lines[k].start <= p < lines[k].end :: blob[p] as char != '\n')
  }

  /** The line lists exactly the spans overlapping it, in order, with their starts. */
  ghost predicate Indexed(spans: seq<Span>, line: Line) {
    && (forall i, j | 0 <= i < j < |line.indices| :: line.indices[i] < line.indices[j])
    && (forall k | 0 <= k < |line.indices| :: OnLine(spans, line, line.indices[k]))
    && (forall i: nat | OnLine(spans, line, i) :: i in line.indices)
    && |line.starts| == |line.indices|
    && (forall k | 0 <= k < |line.indices| :: line.starts[k] == spans[line.indices[k]].start)
  }

  ghost function MaskedByte(blob: bytes, spans: seq<Span>, p: nat): byte
    requires p < |blob|
  {
    if Covered(spans, p) then ' ' as int else Lower(blob[p])
  }

  /** The line in lower case with every credential byte blanked. */
  ghost function Masked(blob: bytes, spans: seq<Span>, from: nat, to: nat): bytes
    requires from <= to <= |blob|
  {
    seq<byte>(to - from, k requires 0 <= k < to - from => MaskedByte(blob, spans, from + k))
  }

  predicate LiteralAt(text: bytes, p: nat, literal: bytes) {
    p + |literal| <= |text| && forall k | 0 <= k < |literal| :: text[p + k] == literal[k]
  }

  predicate WordByte(b: byte) {
    97 <= b <= 122 || 48 <= b <= 57 || b == 95 || b == 45
  }

  /** The length of the rejection term at p, or 0. */
  function RejectionAt(text: bytes, p: nat): (n: nat)
    ensures p + n <= |text| || n == 0
  {
    if LiteralAt(text, p, REJECT) then |REJECT|
    else if LiteralAt(text, p, UNSAFE) then |UNSAFE|
    else if LiteralAt(text, p, SENSITIVE) then |SENSITIVE|
    else 0
  }

  /** The length of the fixture marker at p, or 0: it follows no word byte and precedes a blank. */
  function MarkerAt(text: bytes, p: nat): (n: nat)
    ensures p + n <= |text| || n == 0
  {
    if && LiteralAt(text, p, MARKER)
       && (p > 0 ==> !WordByte(text[p - 1]))
       && p + |MARKER| < |text| && text[p + |MARKER|] in [32, 9]
    then |MARKER| else 0
  }

  function LengthAt(pattern: Pattern, text: bytes, p: nat): (n: nat)
    ensures p + n <= |text| || n == 0
  {
    match pattern
    case RejectionTerm => RejectionAt(text, p)
    case FixtureMarker => MarkerAt(text, p)
  }

  /** The match list of a line: every occurrence, left to right, as positions in the blob. */
  ghost predicate MatchesOf(text: bytes, offset: nat, pattern: Pattern, found: seq<Match>) {
    && (forall i, j | 0 <= i < j < |found| :: found[i].end <= found[j].start)
    && (forall i | 0 <= i < |found| :: IsMatch(text, offset, pattern, found[i]))
    && (forall m: Match | IsMatch(text, offset, pattern, m) :: m in found)
  }

  ghost predicate IsMatch(text: bytes, offset: nat, pattern: Pattern, m: Match) {
    m.start >= offset && m.end > m.start && m.end - m.start == LengthAt(pattern, text, m.start - offset)
  }

  /** The rejection term meets the marker's window of 256 bytes on either side. */
  predicate Near(m: Match, r: Match) {
    r.end >= m.start - 256 && r.start <= m.end + 256
  }

  /** A marker qualifies when some rejection term on its masked line meets its window. */
  ghost predicate Qualifies(blob: bytes, spans: seq<Span>, line: Line, m: Match)
    requires line.start <= line.end <= |blob|
  {
    var text := Masked(blob, spans, line.start, line.end);
    && IsMatch(text, line.start, FixtureMarker, m)
    && exists r :: IsMatch(text, line.start, RejectionTerm, r) && Near(m, r)
  }

  /** No credential starts on the marker's own line behind the marker before span i does. */
  ghost predicate FirstBehind(spans: seq<Span>, line: Line, m: Marker, i: nat) {
    && OnLine(spans, line, i) && m.end <= spans[i].start
    && forall j: nat | OnLine(spans, line, j) && m.end <= spans[j].start :: i <= j
  }

  /** Span i lies on a neighbouring line, within reach of the marker. */
  ghost predicate Adjacent(spans: seq<Span>, lines: seq<Line>, m: Marker, i: nat)
    requires m.line < |lines|
  {
    || (m.line > 0 && OnLine(spans, lines[m.line - 1], i)
        && spans[i].end <= m.start && m.start - spans[i].end <= 256)
    || (m.line + 1 < |lines| && OnLine(spans, lines[m.line + 1], i)
        && m.end <= spans[i].start && spans[i].start - m.end <= 256)
  }

  /** The binding rule: the first credential behind the marker on its line if it is in reach;
      on a line without credentials, the only one in reach on the two neighbouring lines. */
  ghost predicate Binds(spans: seq<Span>, lines: seq<Line>, m: Marker, i: nat)
    requires m.line < |lines|
  {
    var line := lines[m.line];
    if exists j: nat :: OnLine(spans, line, j) && m.end <= spans[j].start then
      FirstBehind(spans, line, m, i) && spans[i].start - m.end <= 256
    else
      && (forall j: nat :: !OnLine(spans, line, j))
      && Adjacent(spans, lines, m, i)
      && forall j: nat | Adjacent(spans, lines, m, j) :: j == i
  }

  /** What stands at a position, in characters. */
  predicate TextAt(text: bytes, p: nat, word: string) {
    p + |word| <= |text| && forall k | 0 <= k < |word| :: text[p + k] as char == word[k]
  }

  lemma TextIsLiteral(text: bytes, p: nat, literal: bytes, word: string)
    requires Spells(literal, word)
    ensures LiteralAt(text, p, literal) <==> TextAt(text, p, word)
  {
    if TextAt(text, p, word) {
      forall k | 0 <= k < |literal|
        ensures text[p + k] == literal[k]
      {
        assert text[p + k] as char == word[k];
      }
    }
  }

  lemma WordsAreSpelled()
    ensures Spells(REJECT, "reject") && Spells(UNSAFE, "unsafe") && Spells(SENSITIVE, "sensitive")
    ensures Spells(MARKER, "credential-fixture:") && Spells(TEST_ROOT, "mvp/tests/")
  {}

  /** A letter in lower case, a digit, an underscore or a hyphen. */
  predicate IsWord(b: byte) {
    var c := b as char;
    'a' <= c <= 'z' || '0' <= c <= '9' || c == '_' || c == '-'
  }

  /** The terms and the marker, as they are spelled in a line in lower case. */
  lemma TermsAreSpelled(text: bytes, p: nat)
    ensures LengthAt(RejectionTerm, text, p) ==
      if TextAt(text, p, "reject") then 6 else if TextAt(text, p, "unsafe") then 6
      else if TextAt(text, p, "sensitive") then 9 else 0
    ensures LengthAt(FixtureMarker, text, p) ==
      if && TextAt(text, p, "credential-fixture:") && (p > 0 ==> !IsWord(text[p - 1]))
         && p + 19 < |text| && (text[p + 19] as char == ' ' || text[p + 19] as char == '\t') then 19 else 0
    ensures UnderTestRoot(text) <==> TextAt(text, 0, "mvp/tests/")
  {
    WordsAreSpelled();
    TextIsLiteral(text, p, REJECT, "reject");
    TextIsLiteral(text, p, UNSAFE, "unsafe");
    TextIsLiteral(text, p, SENSITIVE, "sensitive");
    TextIsLiteral(text, p, MARKER, "credential-fixture:");
    TextIsLiteral(text, 0, TEST_ROOT, "mvp/tests/");
  }

  lemma BindsAtMostOne(spans: seq<Span>, lines: seq<Line>, m: Marker, i: nat, j: nat)
    requires m.line < |lines| && Binds(spans, lines, m, i) && Binds(spans, lines, m, j)
    ensures i == j
  {
  }

  // ----- the scans -----

  /** The position of the first start that is not before x. */
  method BisectLeft(starts: seq<nat>, x: nat) returns (p: nat)
    requires forall i, j | 0 <= i < j < |starts| :: starts[i] <= starts[j]
    ensures p <= |starts|
    ensures forall k | 0 <= k < p :: starts[k] < x
    ensures forall k | p <= k < |starts| :: x <= starts[k]
  {
    var lo, hi := 0, |starts|;
    while lo < hi
      invariant 0 <= lo <= hi <= |starts|
      invariant forall k | 0 <= k < lo :: starts[k] < x
      invariant forall k | hi <= k < |starts| :: x <= starts[k]
    {
      var mid := (lo + hi) / 2;
      if starts[mid] < x {
        lo := mid + 1;
      } else {
        hi := mid;
      }
    }
    p := lo;
  }

  method LineEnd(blob: bytes, from: nat) returns (end: nat, last: bool)
    requires from <= |blob|
    ensures from <= end <= |blob|
    ensures forall p | from <= p < end :: blob[p] != NEWLINE
    ensures if last then end == |blob| else end < |blob| && blob[end] == NEWLINE
  {
    end := from;
    while end < |blob| && blob[end] != NEWLINE
      invariant from <= end <= |blob|
      invariant forall p | from <= p < end :: blob[p] != NEWLINE
    {
      end := end + 1;
    }
    last := end == |blob|;
  }

  ghost predicate CoveredBy(spans: seq<Span>, indices: seq<nat>, n: nat, p: nat)
    requires n <= |indices| && forall k | 0 <= k < |indices| :: indices[k] < |spans|
  {
    exists o :: 0 <= o < n && spans[indices[o]].start <= p < spans[indices[o]].end
  }

  lemma CoveredNext(spans: seq<Span>, indices: seq<nat>, n: nat, p: nat)
    requires n < |indices| && forall k | 0 <= k < |indices| :: indices[k] < |spans|
    ensures CoveredBy(spans, indices, n + 1, p) <==>
      CoveredBy(spans, indices, n, p) || spans[indices[n]].start <= p < spans[indices[n]].end
  {
  }

  lemma CoveredOnLine(spans: seq<Span>, line: Line, p: nat)
    requires Indexed(spans, line) && line.start <= p < line.end
    ensures CoveredBy(spans, line.indices, |line.indices|, p) <==> Covered(spans, p)
  {
    if Covered(spans, p) {
      var i :| 0 <= i < |spans| && spans[i].start <= p < spans[i].end;
      assert OnLine(spans, line, i);
      var o :| 0 <= o < |line.indices| && line.indices[o] == i;
    }
  }

  /** A byte of the line's copy after the first n overlapping spans have been blanked. */
  ghost function PartlyMasked(blob: bytes, spans: seq<Span>, line: Line, n: nat, k: nat): byte
    requires line.start + k < |blob| && n <= |line.indices| && Indexed(spans, line)
  {
    if CoveredBy(spans, line.indices, n, line.start + k) then SPACE else blob[line.start + k]
  }

  lemma PartlyMaskedAll(blob: bytes, spans: seq<Span>, line: Line, k: nat)
    requires line.start + k < line.end <= |blob| && Indexed(spans, line)
    ensures Lower(PartlyMasked(blob, spans, line, |line.indices|, k)) == Masked(blob, spans, line.start, line.end)[k]
  {
    CoveredOnLine(spans, line, line.start + k);
    assert Masked(blob, spans, line.start, line.end)[k] == MaskedByte(blob, spans, line.start + k);
  }

  method Blank(masked: array<byte>, from: nat, to: nat)
    requires from <= to <= masked.Length
    modifies masked
    ensures forall k | 0 <= k < masked.Length :: masked[k] == if from <= k < to then SPACE else old(masked[k])
  {
    for p := from to to
      invariant forall k | 0 <= k < masked.Length :: masked[k] == if from <= k < p then SPACE else old(masked[k])
    {
      masked[p] := SPACE;
    }
  }

  /** Blanks the overlapping spans one after the other in a copy of the line, then lowers it. */
  method MaskLine(blob: bytes, spans: seq<Span>, line: Line) returns (lowered: bytes)
    requires line.start <= line.end <= |blob| && Indexed(spans, line) && OrderedSpans(spans)
    ensures lowered == Masked(blob, spans, line.start, line.end)
  {
    var from, width := line.start, line.end - line.start;
    var masked := new byte[width](k requires 0 <= k < width => blob[from + k]);
    for offset := 0 to |line.indices|
      invariant forall k | 0 <= k < width :: masked[k] == PartlyMasked(blob, spans, line, offset, k)
    {
      var span := spans[line.indices[offset]];
      var overlapStart := if span.start > from then span.start else from;
      var overlapEnd := if span.end < line.end then span.end else line.end;
      Blank(masked, overlapStart - from, overlapEnd - from);
      forall k | 0 <= k < width
        ensures masked[k] == PartlyMasked(blob, spans, line, offset + 1, k)
      {
        CoveredNext(spans, line.indices, offset, from + k);
      }
    }
    lowered := seq<byte>(width, k requires 0 <= k < width reads masked => Lower(masked[k]));
    forall k | 0 <= k < width
      ensures lowered[k] == Masked(blob, spans, line.start, line.end)[k]
    {
      PartlyMaskedAll(blob, spans, line, k);
    }
  }

  lemma LiteralByte(text: bytes, p: nat, literal: bytes, d: nat)
    requires LiteralAt(text, p, literal) && d < |literal|
    ensures text[p + d] == literal[d]
  {
  }

  lemma LiteralHead(text: bytes, p: nat, literal: bytes)
    requires LiteralAt(text, p, literal) && |literal| >= 2
    ensures text[p] == literal[0] && text[p + 1] == literal[1]
  {
    LiteralByte(text, p, literal, 0);
    LiteralByte(text, p, literal, 1);
  }

  /** Inside a literal no rejection term and no marker can begin. */
  lemma LiteralInteriors()
    ensures forall d | 1 <= d < 6 :: REJECT[d] !in [114, 117, 115]
    ensures forall d | 1 <= d < 6 :: UNSAFE[d] !in [114, 117] && (UNSAFE[d] == 115 ==> d == 2)
    ensures forall d | 1 <= d < 9 :: SENSITIVE[d] !in [114, 117] && (SENSITIVE[d] == 115 ==> d == 3)
    ensures REJECT[0] == 114 && UNSAFE[0] == 117 && SENSITIVE[0] == 115
    ensures UNSAFE[3] == 97 && SENSITIVE[4] == 105 && SENSITIVE[1] == 101
    ensures MARKER[0] == 99 && forall d | 1 <= d < 19 :: MARKER[d] != 99
  {
  }

  /** No two occurrences overlap, so a left-to-right search that skips each match finds them all. */
  lemma TermsNeverOverlap(pattern: Pattern, text: bytes, p: nat, q: nat)
    requires p < q < p + LengthAt(pattern, text, p)
    ensures LengthAt(pattern, text, q) == 0
  {
    LiteralInteriors();
    var literal := if pattern == FixtureMarker then MARKER
                   else if LiteralAt(text, p, REJECT) then REJECT
                   else if LiteralAt(text, p, UNSAFE) then UNSAFE else SENSITIVE;
    LiteralByte(text, p, literal, q - p);
    if q - p + 1 < |literal| {
      LiteralByte(text, p, literal, q - p + 1);
    }
    if LengthAt(pattern, text, q) != 0 {
      var other := if pattern == FixtureMarker then MARKER
                   else if LiteralAt(text, q, REJECT) then REJECT
                   else if LiteralAt(text, q, UNSAFE) then UNSAFE else SENSITIVE;
      LiteralHead(text, q, other);
      assert false;
    }
  }

  /** The matches that begin before position p, in order and behind one another. */
  ghost predicate MatchesUpTo(text: bytes, offset: nat, pattern: Pattern, found: seq<Match>, p: nat) {
    && (forall i, j | 0 <= i < j < |found| :: found[i].end <= found[j].start)
    && (forall i | 0 <= i < |found| :: IsMatch(text, offset, pattern, found[i]) && found[i].end <= offset + p)
    && (forall m: Match | IsMatch(text, offset, pattern, m) && m.start < offset + p :: m in found)
  }

  lemma MatchesExtend(text: bytes, offset: nat, pattern: Pattern, before: seq<Match>, p: nat, n: nat)
    requires MatchesUpTo(text, offset, pattern, before, p) && n == LengthAt(pattern, text, p)
    ensures n > 0 ==> MatchesUpTo(text, offset, pattern, before + [Match(offset + p, offset + p + n)], p + n)
    ensures n == 0 ==> MatchesUpTo(text, offset, pattern, before, p + 1)
  {
    if n > 0 {
      forall q: nat | p < q < p + n {
        TermsNeverOverlap(pattern, text, p, q);
      }
      var last := Match(offset + p, offset + p + n);
      var found := before + [last];
      forall m: Match | IsMatch(text, offset, pattern, m) && m.start < offset + p + n ensures m in found {
        assert m.start < offset + p ==> m in before;
        assert m.start >= offset + p ==> m == found[|before|];
      }
    }
  }

  /** All non-overlapping matches, left to right. */
  method FindMatches(pattern: Pattern, text: bytes, offset: nat) returns (found: seq<Match>)
    ensures MatchesOf(text, offset, pattern, found)
  {
    found := [];
    var p := 0;
    while p < |text|
      invariant p <= |text| && MatchesUpTo(text, offset, pattern, found, p)
    {
      var n := LengthAt(pattern, text, p);
      MatchesExtend(text, offset, pattern, found, p, n);
      if n > 0 {
        found := found + [Match(offset + p, offset + p + n)];
        p := p + n;
      } else {
        p := p + 1;
      }
    }
  }

  /** One pass over both lists, neither pointer ever moving back: keep the markers that are near some term. */
  method KeepNear(found: seq<Match>, terms: seq<Match>) returns (kept: seq<Match>)
    requires forall i, j | 0 <= i < j < |found| :: found[i].end <= found[j].start
    requires forall i, j | 0 <= i < j < |terms| :: terms[i].end <= terms[j].start
    requires forall i | 0 <= i < |found| :: found[i].start < found[i].end
    requires forall i | 0 <= i < |terms| :: terms[i].start < terms[i].end
    ensures forall i, j | 0 <= i < j < |kept| :: kept[i].end <= kept[j].start
    ensures forall m :: m in kept <==> m in found && exists r :: r in terms && Near(m, r)
  {
    kept := [];
    var position := 0;
    for i := 0 to |found|
      invariant position <= |terms|
      invariant forall q, j | 0 <= q < position && i <= j < |found| :: terms[q].end < found[j].start - MAX_DISTANCE
      invariant forall a, b | 0 <= a < b < |kept| :: kept[a].end <= kept[b].start
      invariant forall a, j | 0 <= a < |kept| && i <= j < |found| :: kept[a].end <= found[j].start
      invariant forall m :: m in kept <==> m in found[..i] && exists r :: r in terms && Near(m, r)
    {
      var m := found[i];
      while position < |terms| && terms[position].end < m.start - MAX_DISTANCE
        invariant position <= |terms|
        invariant forall q, j | 0 <= q < position && i <= j < |found| :: terms[q].end < found[j].start - MAX_DISTANCE
      {
        position := position + 1;
      }
      assert found[..i + 1] == found[..i] + [m];
      if position < |terms| && terms[position].start <= m.end + MAX_DISTANCE {
        assert terms[position] in terms && Near(m, terms[position]);
        kept := kept + [m];
      } else {
        forall r | r in terms ensures !Near(m, r) {
          var q :| 0 <= q < |terms| && terms[q] == r;
        }
      }
    }
    assert found[..|found|] == found;
  }

  /** The spans overlapping one line, scanned from the first one that may still overlap it. */
  method OverlapFrom(spans: seq<Span>, first: nat, from: nat, to: nat) returns (line: Line)
    requires OrderedSpans(spans) && first <= |spans| && from <= to
    requires forall i | 0 <= i < first :: spans[i].end <= from
    ensures line.start == from && line.end == to && Indexed(spans, line)
  {
    var indices: seq<nat> := [];
    var starts: seq<nat> := [];
    var i := first;
    while i < |spans| && spans[i].start < to
      invariant first <= i <= |spans|
      invariant |starts| == |indices|
      invariant forall a, b | 0 <= a < b < |indices| :: indices[a] < indices[b]
      invariant forall k | 0 <= k < |indices| :: indices[k] < i && OnLine(spans, Line(from, to, [], []), indices[k])
      invariant forall k | 0 <= k < |indices| :: starts[k] == spans[indices[k]].start
      invariant forall j: nat | j < i && OnLine(spans, Line(from, to, [], []), j) :: j in indices
    {
      if spans[i].end > from {
        ghost var before := indices;
        indices := indices + [i];
        starts := starts + [spans[i].start];
        assert indices[|before|] == i;
        assert forall j | j in before :: j in indices;
      }
      i := i + 1;
    }
    line := Line(from, to, indices, starts);
    forall j: nat | OnLine(spans, line, j) ensures j in indices {
      assert OnLine(spans, Line(from, to, [], []), j);
      assert j < i;
    }
  }

  /** The lines read so far: they end just before lineStart, behind a newline. */
  ghost predicate LinesUpTo(blob: bytes, spans: seq<Span>, lines: seq<Line>, lineStart: nat) {
    && lineStart <= |blob|
    && (|lines| == 0 ==> lineStart == 0)
    && (|lines| > 0 ==> lines[0].start == 0)
    && (|lines| > 0 ==> Follows(blob, lines[|lines| - 1], Line(lineStart, lineStart, [], [])))
    && (forall k | 0 <= k < |lines| :: lines[k].start <= lines[k].end < lineStart && Indexed(spans, lines[k]))
    && (forall i, j | 0 <= i < |lines| - 1 && j == i + 1 :: Follows(blob, lines[i], lines[j]))
    && (forall k, p | 0 <= k < |lines| && lines[k].start <= p < lines[k].end :: blob[p] != NEWLINE)
  }

  /** Markers in order, all before `to`. */
  predicate MarkersOrdered(markers: seq<Marker>, to: nat) {
    && (forall i, j | 0 <= i < j < |markers| :: markers[i].end <= markers[j].start)
    && (forall i | 0 <= i < |markers| :: markers[i].end <= to)
  }

  /** The markers are exactly the qualifying ones of the lines. */
  ghost predicate MarkersExact(blob: bytes, spans: seq<Span>, lines: seq<Line>, markers: seq<Marker>)
    requires forall k | 0 <= k < |lines| :: lines[k].start <= lines[k].end <= |blob|
  {
    forall m: Marker :: m in markers <==>
      m.line < |lines| && Qualifies(blob, spans, lines[m.line], Match(m.start, m.end))
  }

  /** The markers of one line are those of its marker matches that are near a rejection match. */
  method LineMarkers(blob: bytes, spans: seq<Span>, line: Line) returns (kept: seq<Match>)
    requires line.start <= line.end <= |blob| && Indexed(spans, line) && OrderedSpans(spans)
    ensures forall i, j | 0 <= i < j < |kept| :: kept[i].end <= kept[j].start
    ensures forall m: Match :: m in kept <==> Qualifies(blob, spans, line, m)
  {
    var lowered := MaskLine(blob, spans, line);
    var terms := FindMatches(RejectionTerm, lowered, line.start);
    var found := FindMatches(FixtureMarker, lowered, line.start);
    kept := KeepNear(found, terms);
    forall m: Match
      ensures m in kept <==> Qualifies(blob, spans, line, m)
    {
      if Qualifies(blob, spans, line, m) {
        var r :| IsMatch(lowered, line.start, RejectionTerm, r) && Near(m, r);
        assert r in terms;
      }
    }
  }

  lemma QualifyingMatchLiesOnLine(blob: bytes, spans: seq<Span>, line: Line, m: Match)
    requires line.start <= line.end <= |blob| && Qualifies(blob, spans, line, m)
    ensures line.start <= m.start < m.end <= line.end
  {
    assert |Masked(blob, spans, line.start, line.end)| == line.end - line.start;
  }

  function Tagged(kept: seq<Match>, l: nat): (r: seq<Marker>) {
    seq(|kept|, i requires 0 <= i < |kept| => Marker(kept[i].start, kept[i].end, l))
  }

  lemma TaggedExact(kept: seq<Match>, l: nat)
    ensures forall m: Marker :: m in Tagged(kept, l) <==> m.line == l && Match(m.start, m.end) in kept
  {
    var tagged := Tagged(kept, l);
    forall m: Marker | m.line == l && Match(m.start, m.end) in kept ensures m in tagged {
      var i :| 0 <= i < |kept| && kept[i] == Match(m.start, m.end);
      assert tagged[i] == m;
    }
  }

  /** The markers of one more line, behind those of the lines before it. */
  lemma MarkersExtend(blob: bytes, spans: seq<Span>, before: seq<Line>, line: Line, markers: seq<Marker>, kept: seq<Match>)
    requires forall k | 0 <= k < |before| :: before[k].start <= before[k].end <= |blob|
    requires line.start <= line.end <= |blob|
    requires MarkersExact(blob, spans, before, markers)
    requires forall m: Match :: m in kept <==> Qualifies(blob, spans, line, m)
    ensures MarkersExact(blob, spans, before + [line], markers + Tagged(kept, |before|))
  {
    TaggedExact(kept, |before|);
    var lines, all := before + [line], markers + Tagged(kept, |before|);
    forall m: Marker
      ensures m in all <==> m.line < |lines| && Qualifies(blob, spans, lines[m.line], Match(m.start, m.end))
    {
      assert m in all <==> m in markers || m in Tagged(kept, |before|);
      if m.line < |before| {
        assert lines[m.line] == before[m.line];
      } else if m.line == |before| {
        assert Match(m.start, m.end) in kept <==> Qualifies(blob, spans, line, Match(m.start, m.end));
      }
    }
  }

  lemma MarkersStayOrdered(blob: bytes, spans: seq<Span>, line: Line, markers: seq<Marker>, kept: seq<Match>, l: nat)
    requires line.start <= line.end <= |blob|
    requires MarkersOrdered(markers, line.start)
    requires forall i, j | 0 <= i < j < |kept| :: kept[i].end <= kept[j].start
    requires forall m: Match :: m in kept <==> Qualifies(blob, spans, line, m)
    ensures MarkersOrdered(markers + Tagged(kept, l), line.end)
  {
    forall i | 0 <= i < |kept|
      ensures line.start <= kept[i].start < kept[i].end <= line.end
    {
      assert kept[i] in kept;
      QualifyingMatchLiesOnLine(blob, spans, line, kept[i]);
    }
  }

  lemma LinesExtend(blob: bytes, spans: seq<Span>, before: seq<Line>, line: Line)
    requires LinesUpTo(blob, spans, before, line.start) && line.start <= line.end <= |blob| && Indexed(spans, line)
    requires forall p | line.start <= p < line.end :: blob[p] != NEWLINE
    ensures line.end < |blob| && blob[line.end] == NEWLINE ==> LinesUpTo(blob, spans, before + [line], line.end + 1)
    ensures line.end == |blob| ==> LinesOf(blob, before + [line])
    ensures forall k | 0 <= k < |before| + 1 :: Indexed(spans, (before + [line])[k])
  {
    var lines := before + [line];
    assert forall k | 0 <= k < |before| :: lines[k] == before[k];
    forall i, j | 0 <= i < |lines| - 1 && j == i + 1
      ensures Follows(blob, lines[i], lines[j])
    {
      if j < |before| {
        assert Follows(blob, before[i], before[j]);
      }
    }
  }

  /** Indexes each line once; the span pointer only moves forward. */
  method IndexFixtureLines(blob: bytes, spans: seq<Span>) returns (lines: seq<Line>, markers: seq<Marker>)
    requires OrderedSpans(spans)
    ensures LinesOf(blob, lines)
    ensures forall k | 0 <= k < |lines| :: Indexed(spans, lines[k])
    ensures MarkersOrdered(markers, |blob|) && MarkersExact(blob, spans, lines, markers)
  {
    lines, markers := [], [];
    var lineStart, first := 0, 0;
    while true
      invariant first <= |spans|
      invariant LinesUpTo(blob, spans, lines, lineStart)
      invariant forall i | 0 <= i < first :: spans[i].end <= lineStart
      invariant MarkersOrdered(markers, lineStart) && MarkersExact(blob, spans, lines, markers)
      decreases |blob| - lineStart
    {
      var lineEnd, last := LineEnd(blob, lineStart);
      while first < |spans| && spans[first].end <= lineStart
        invariant first <= |spans|
        invariant forall i | 0 <= i < first :: spans[i].end <= lineStart
      {
        first := first + 1;
      }
      var line := OverlapFrom(spans, first, lineStart, lineEnd);
      var kept := LineMarkers(blob, spans, line);
      LinesExtend(blob, spans, lines, line);
      MarkersExtend(blob, spans, lines, line, markers, kept);
      MarkersStayOrdered(blob, spans, line, markers, kept, |lines|);
      markers := markers + Tagged(kept, |lines|);
      lines := lines + [line];
      if last {
        return;
      }
      lineStart := lineEnd + 1;
    }
  }

  /** The spans of a line that satisfy a condition. */
  ghost predicate Reached(spans: seq<Span>, line: Line, near: Span -> bool, reached: set<Span>) {
    forall s :: s in reached <==> exists i: nat :: OnLine(spans, line, i) && spans[i] == s && near(s)
  }

  ghost function ReachesBack(m: Marker): Span -> bool {
    (s: Span) => s.end <= m.start && m.start - s.end <= MAX_DISTANCE
  }

  ghost function ReachesForward(m: Marker): Span -> bool {
    (s: Span) => m.end <= s.start && s.start - m.end <= MAX_DISTANCE
  }

  /** Scans the previous line from its end and stops at the first span out of reach. */
  method ReachBack(spans: seq<Span>, line: Line, m: Marker) returns (reached: set<Span>)
    requires OrderedSpans(spans) && Indexed(spans, line)
    ensures Reached(spans, line, ReachesBack(m), reached)
  {
    reached := {};
    var k := |line.indices|;
    while k > 0
      invariant 0 <= k <= |line.indices|
      invariant forall s :: s in reached <==>
        exists o :: k <= o < |line.indices| && spans[line.indices[o]] == s && ReachesBack(m)(s)
    {
      var candidate := spans[line.indices[k - 1]];
      if m.start - candidate.end > MAX_DISTANCE {
        break;
      }
      if candidate.end <= m.start && m.start - candidate.end <= MAX_DISTANCE {
        reached := reached + {candidate};
      }
      k := k - 1;
      assert candidate == spans[line.indices[k]];
    }
    forall i: nat | OnLine(spans, line, i) && ReachesBack(m)(spans[i]) ensures spans[i] in reached {
      var o :| 0 <= o < |line.indices| && line.indices[o] == i;
      assert k <= o;
    }
  }

  /** Scans the next line from the first span behind the marker and stops at the first one out of reach. */
  method ReachForward(spans: seq<Span>, line: Line, m: Marker) returns (reached: set<Span>)
    requires OrderedSpans(spans) && Indexed(spans, line)
    ensures Reached(spans, line, ReachesForward(m), reached)
  {
    StartsIncrease(spans, line);
    reached := {};
    var first := BisectLeft(line.starts, m.end);
    var k := first;
    while k < |line.indices|
      invariant first <= k <= |line.indices|
      invariant forall s :: s in reached <==>
        exists o :: first <= o < k && spans[line.indices[o]] == s && ReachesForward(m)(s)
    {
      var candidate := spans[line.indices[k]];
      if candidate.start - m.end > MAX_DISTANCE {
        break;
      }
      if m.end <= candidate.start && candidate.start - m.end <= MAX_DISTANCE {
        reached := reached + {candidate};
      }
      k := k + 1;
      assert candidate == spans[line.indices[k - 1]];
    }
    forall i: nat | OnLine(spans, line, i) && ReachesForward(m)(spans[i]) ensures spans[i] in reached {
      var o :| 0 <= o < |line.indices| && line.indices[o] == i;
      assert line.starts[o] == spans[i].start;
      assert first <= o < k;
    }
  }

  lemma StartsIncrease(spans: seq<Span>, line: Line)
    requires OrderedSpans(spans) && Indexed(spans, line)
    ensures forall i, j | 0 <= i < j < |line.starts| :: line.starts[i] <= line.starts[j]
  {
  }

  ghost predicate BindsSpan(spans: seq<Span>, lines: seq<Line>, m: Marker, s: Span)
    requires m.line < |lines|
  {
    exists i: nat :: i < |spans| && spans[i] == s && Binds(spans, lines, m, i)
  }

  lemma UniqueNeighbour(spans: seq<Span>, lines: seq<Line>, m: Marker, adjacent: set<Span>)
    requires OrderedSpans(spans) && m.line < |lines| && adjacent != {}
    requires forall j: nat :: !OnLine(spans, lines[m.line], j)
    requires forall s, t | s in adjacent && t in adjacent :: s == t
    requires forall s :: s in adjacent <==> exists i: nat :: i < |spans| && spans[i] == s && Adjacent(spans, lines, m, i)
    ensures forall s :: s in adjacent <==> BindsSpan(spans, lines, m, s)
  {
    var s :| s in adjacent;
    var i: nat :| i < |spans| && spans[i] == s && Adjacent(spans, lines, m, i);
    forall j: nat | Adjacent(spans, lines, m, j) ensures j == i {
      assert spans[j] in adjacent;
    }
  }

  lemma BoundMeansOnlyNeighbour(spans: seq<Span>, lines: seq<Line>, m: Marker, adjacent: set<Span>)
    requires OrderedSpans(spans) && m.line < |lines|
    requires forall j: nat :: !OnLine(spans, lines[m.line], j)
    requires forall t :: t in adjacent <==> exists i: nat :: i < |spans| && spans[i] == t && Adjacent(spans, lines, m, i)
    ensures forall s | BindsSpan(spans, lines, m, s) :: |adjacent| == 1
  {
    forall s | BindsSpan(spans, lines, m, s) ensures |adjacent| == 1 {
      assert adjacent == {s};
    }
  }

  method NeighboursInReach(spans: seq<Span>, lines: seq<Line>, m: Marker) returns (adjacent: set<Span>)
    requires OrderedSpans(spans) && m.line < |lines|
    requires forall k | 0 <= k < |lines| :: Indexed(spans, lines[k])
    ensures forall s :: s in adjacent <==> exists i: nat :: i < |spans| && spans[i] == s && Adjacent(spans, lines, m, i)
  {
    var back: set<Span>, next: set<Span> := {}, {};
    if m.line > 0 {
      back := ReachBack(spans, lines[m.line - 1], m);
    }
    if m.line + 1 < |lines| {
      next := ReachForward(spans, lines[m.line + 1], m);
    }
    adjacent := back + next;
    forall s
      ensures s in adjacent <==> exists i: nat :: i < |spans| && spans[i] == s && Adjacent(spans, lines, m, i)
    {
      if i: nat :| i < |spans| && spans[i] == s && Adjacent(spans, lines, m, i) {
        assert ReachesBack(m)(s) || ReachesForward(m)(s);
      }
    }
  }

  /** The unique credential in reach on the neighbouring lines of a line without credentials. */
  method BindAdjacent(spans: seq<Span>, lines: seq<Line>, m: Marker) returns (bound: set<Span>)
    requires OrderedSpans(spans) && m.line < |lines|
    requires forall k | 0 <= k < |lines| :: Indexed(spans, lines[k])
    requires forall j: nat :: !OnLine(spans, lines[m.line], j)
    ensures forall s :: s in bound <==> BindsSpan(spans, lines, m, s)
    ensures |bound| <= 1
  {
    var adjacent := NeighboursInReach(spans, lines, m);
    BoundMeansOnlyNeighbour(spans, lines, m, adjacent);
    if |adjacent| == 1 {
      bound := adjacent;
      SingletonSet(adjacent);
      UniqueNeighbour(spans, lines, m, adjacent);
    } else {
      bound := {};
    }
  }

  lemma SingletonSet(s: set<Span>)
    requires |s| == 1
    ensures s != {} && forall x, y | x in s && y in s :: x == y
  {
    forall x, y | x in s && y in s ensures x == y {
      assert |s - {x}| == 0;
      assert y !in s - {x};
    }
  }

  /** The same-line rule read off the binary search. */
  lemma FollowingIsFirst(spans: seq<Span>, line: Line, m: Marker, following: nat)
    requires Indexed(spans, line) && following < |line.indices|
    requires forall k | 0 <= k < following :: line.starts[k] < m.end
    requires m.end <= line.starts[following]
    ensures FirstBehind(spans, line, m, line.indices[following])
  {
    forall j: nat | OnLine(spans, line, j) && m.end <= spans[j].start ensures line.indices[following] <= j {
      var o :| 0 <= o < |line.indices| && line.indices[o] == j;
      assert line.starts[o] == spans[j].start;
    }
  }

  /** What one marker allows: nothing, or one span. */
  method BindMarker(spans: seq<Span>, lines: seq<Line>, m: Marker) returns (bound: set<Span>)
    requires OrderedSpans(spans) && m.line < |lines|
    requires forall k | 0 <= k < |lines| :: Indexed(spans, lines[k])
    ensures forall s :: s in bound <==> BindsSpan(spans, lines, m, s)
    ensures |bound| <= 1
  {
    var line := lines[m.line];
    StartsIncrease(spans, line);
    var following := BisectLeft(line.starts, m.end);
    if following < |line.indices| && line.starts[following] < line.end {
      var i := line.indices[following];
      FollowingIsFirst(spans, line, m, following);
      if spans[i].start - m.end <= MAX_DISTANCE {
        assert Binds(spans, lines, m, i);
        return {spans[i]};
      }
      return {};
    }
    forall j: nat | OnLine(spans, line, j) ensures spans[j].start < m.end && |line.indices| > 0 {
      var o :| 0 <= o < |line.indices| && line.indices[o] == j;
      assert line.starts[o] == spans[j].start;
    }
    if |line.indices| > 0 {
      assert OnLine(spans, line, line.indices[0]);
      return {};
    }
    bound := BindAdjacent(spans, lines, m);
  }

  predicate UnderTestRoot(path: bytes) {
    LiteralAt(path, 0, TEST_ROOT)
  }

  lemma UnionSize(a: set<Span>, b: set<Span>)
    ensures |a + b| <= |a| + |b|
  {
    assert a + b == a + (b - a);
    assert |b - a| <= |b| by {
      assert b == (b - a) + (b * a);
    }
  }

  /** Some of the first n markers binds the span. */
  ghost predicate BoundByOne(spans: seq<Span>, lines: seq<Line>, markers: seq<Marker>, n: nat, s: Span)
    requires n <= |markers| && forall i | 0 <= i < n :: markers[i].line < |lines|
  {
    exists i :: 0 <= i < n && BindsSpan(spans, lines, markers[i], s)
  }

  method BindMarkers(spans: seq<Span>, lines: seq<Line>, markers: seq<Marker>) returns (allowed: set<Span>)
    requires OrderedSpans(spans)
    requires forall k | 0 <= k < |lines| :: Indexed(spans, lines[k])
    requires forall i | 0 <= i < |markers| :: markers[i].line < |lines|
    ensures forall s :: s in allowed <==> BoundByOne(spans, lines, markers, |markers|, s)
    ensures |allowed| <= |markers|
  {
    allowed := {};
    for k := 0 to |markers|
      invariant forall s :: s in allowed <==> BoundByOne(spans, lines, markers, k, s)
      invariant |allowed| <= k
    {
      var bound := BindMarker(spans, lines, markers[k]);
      UnionSize(allowed, bound);
      allowed := allowed + bound;
      forall s
        ensures BoundByOne(spans, lines, markers, k + 1, s)
            <==> BoundByOne(spans, lines, markers, k, s) || BindsSpan(spans, lines, markers[k], s)
      {
      }
    }
  }

  /** The allowed spans: exactly those bound by some qualifying marker, so no more of them than markers. */
  method AllowedFixtureSpans(path: bytes, blob: bytes, spans: seq<Span>)
    returns (allowed: set<Span>, ghost lines: seq<Line>, ghost markers: seq<Marker>)
    requires OrderedSpans(spans)
    ensures !UnderTestRoot(path) || |spans| == 0 ==> allowed == {}
    ensures UnderTestRoot(path) && |spans| > 0 ==>
      && LinesOf(blob, lines) && MarkersOrdered(markers, |blob|) && MarkersExact(blob, spans, lines, markers)
      && (forall m | m in markers :: m.line < |lines|)
      && (forall s :: s in allowed <==> BoundByOne(spans, lines, markers, |markers|, s))
      && |allowed| <= |markers|
  {
    allowed, lines, markers := {}, [], [];
    if !UnderTestRoot(path) || |spans| == 0 {
      return;
    }
    var table, marks := IndexFixtureLines(blob, spans);
    lines, markers := table, marks;
    allowed := BindMarkers(spans, table, marks);
  }

  // ----- the verdict of a run -----

  predicate SameGeometry(a: seq<Line>, b: seq<Line>) {
    |a| == |b| && forall k | 0 <= k < |a| :: a[k].start == b[k].start && a[k].end == b[k].end
  }

  lemma LineEndsAgree(blob: bytes, a: seq<Line>, b: seq<Line>, k: nat)
    requires LinesOf(blob, a) && LinesOf(blob, b)
    requires k < |a| && k < |b| && a[k].start == b[k].start
    ensures a[k].end == b[k].end
  {
    assert k < |a| - 1 ==> Follows(blob, a[k], a[k + 1]);
    assert k < |b| - 1 ==> Follows(blob, b[k], b[k + 1]);
  }

  /** A blob has only one division into lines. */
  lemma {:induction false} LinesAreUnique(blob: bytes, a: seq<Line>, b: seq<Line>, k: nat)
    requires LinesOf(blob, a) && LinesOf(blob, b)
    requires k < |a| && k < |b| && a[k].start == b[k].start
    requires forall i | 0 <= i < k :: a[i].start == b[i].start && a[i].end == b[i].end
    ensures SameGeometry(a, b)
    decreases |a| - k
  {
    LineEndsAgree(blob, a, b, k);
    assert k < |a| - 1 ==> Follows(blob, a[k], a[k + 1]);
    assert k < |b| - 1 ==> Follows(blob, b[k], b[k + 1]);
    if k + 1 < |a| {
      LinesAreUnique(blob, a, b, k + 1);
    }
  }

  lemma BindingSeesGeometryOnly(spans: seq<Span>, a: seq<Line>, b: seq<Line>, m: Marker, s: Span)
    requires SameGeometry(a, b) && m.line < |a| && BindsSpan(spans, a, m, s)
    ensures BindsSpan(spans, b, m, s)
  {
    forall k, i: nat | 0 <= k < |a| ensures OnLine(spans, a[k], i) <==> OnLine(spans, b[k], i) {
    }
    forall i: nat ensures Adjacent(spans, a, m, i) <==> Adjacent(spans, b, m, i) {
    }
    var i: nat :| i < |spans| && spans[i] == s && Binds(spans, a, m, i);
    assert Binds(spans, b, m, i);
  }

  /** The published rule: under the test root, some qualifying marker binds the span. */
  ghost predicate Allowed(path: bytes, blob: bytes, spans: seq<Span>, s: Span) {
    UnderTestRoot(path) && exists lines: seq<Line>, m: Marker ::
      && LinesOf(blob, lines) && m.line < |lines|
      && Qualifies(blob, spans, lines[m.line], Match(m.start, m.end))
      && BindsSpan(spans, lines, m, s)
  }

  /** The computed set is the rule. */
  lemma AllowedSetIsTheRule(path: bytes, blob: bytes, spans: seq<Span>, lines: seq<Line>, markers: seq<Marker>, s: Span)
    requires UnderTestRoot(path) && LinesOf(blob, lines) && MarkersExact(blob, spans, lines, markers)
    requires forall m | m in markers :: m.line < |lines|
    ensures BoundByOne(spans, lines, markers, |markers|, s) <==> Allowed(path, blob, spans, s)
  {
    if i :| 0 <= i < |markers| && BindsSpan(spans, lines, markers[i], s) {
      assert markers[i] in markers;
    }
    if Allowed(path, blob, spans, s) {
      var other: seq<Line>, m: Marker :| LinesOf(blob, other) && m.line < |other|
        && Qualifies(blob, spans, other[m.line], Match(m.start, m.end)) && BindsSpan(spans, other, m, s);
      LinesAreUnique(blob, other, lines, 0);
      BindingSeesGeometryOnly(spans, other, lines, m, s);
      assert Qualifies(blob, spans, lines[m.line], Match(m.start, m.end));
      assert m in markers;
    }
  }

  datatype File = File(path: bytes, blob: bytes)

  /** Every credential found in the file is allowed. */
  ghost predicate Clean(f: File) {
    forall spans, s | LeftmostCover(f.blob, spans) && s in spans :: Allowed(f.path, f.blob, spans, s)
  }

  lemma CleanMeansAllAllowed(f: File, spans: seq<Span>, allowed: set<Span>)
    requires LeftmostCover(f.blob, spans)
    requires forall s | s in spans :: s in allowed <==> Allowed(f.path, f.blob, spans, s)
    ensures Clean(f) <==> forall s | s in spans :: s in allowed
  {
    forall other | LeftmostCover(f.blob, other) ensures other == spans {
      ScanIsDetermined(f.blob, other, spans);
    }
  }

  /** The credentials of one file and which of them the rule allows. */
  method FileSpans(f: File, chunk: nat) returns (spans: seq<Span>, allowed: set<Span>)
    requires chunk > 0
    ensures LeftmostCover(f.blob, spans)
    ensures forall s | s in spans :: s in allowed <==> Allowed(f.path, f.blob, spans, s)
  {
    ghost var work;
    spans, work := FindSecretSpans(f.blob, chunk);
    ghost var lines, markers;
    allowed, lines, markers := AllowedFixtureSpans(f.path, f.blob, spans);
    if UnderTestRoot(f.path) {
      forall s | s in spans ensures s in allowed <==> Allowed(f.path, f.blob, spans, s) {
        AllowedSetIsTheRule(f.path, f.blob, spans, lines, markers, s);
      }
    }
  }

  ghost function Those(spans: seq<Span>, allowed: set<Span>, inside: bool): set<Span> {
    set s | s in spans && (s in allowed) == inside
  }

  lemma OneMoreSpan(spans: seq<Span>, k: nat, allowed: set<Span>, inside: bool)
    requires k < |spans| && forall i | 0 <= i < k :: spans[i] != spans[k]
    ensures |Those(spans[..k + 1], allowed, inside)|
         == |Those(spans[..k], allowed, inside)| + if (spans[k] in allowed) == inside then 1 else 0
  {
    var before, after := Those(spans[..k], allowed, inside), Those(spans[..k + 1], allowed, inside);
    assert spans[..k + 1] == spans[..k] + [spans[k]];
    assert spans[k] !in spans[..k];
    if (spans[k] in allowed) == inside {
      assert after == before + {spans[k]};
    } else {
      assert after == before;
    }
  }

  method CountFindings(spans: seq<Span>, allowed: set<Span>) returns (allowances: nat, findings: nat)
    requires OrderedSpans(spans)
    ensures allowances == |Those(spans, allowed, true)|
    ensures findings == |Those(spans, allowed, false)|
    ensures allowances + findings == |spans|
  {
    allowances, findings := 0, 0;
    for k := 0 to |spans|
      invariant allowances == |Those(spans[..k], allowed, true)|
      invariant findings == |Those(spans[..k], allowed, false)|
      invariant allowances + findings == k
    {
      OneMoreSpan(spans, k, allowed, true);
      OneMoreSpan(spans, k, allowed, false);
      if spans[k] in allowed {
        allowances := allowances + 1;
      } else {
        findings := findings + 1;
      }
    }
    assert spans[..|spans|] == spans;
  }

  /** A file's allowances and findings: the numbers of its credentials that the rule allows and does not allow. */
  ghost predicate HasCounts(f: File, allowances: nat, findings: nat) {
    exists spans: seq<Span> :: LeftmostCover(f.blob, spans)
      && allowances == |set s | s in spans && Allowed(f.path, f.blob, spans, s)|
      && findings == |set s | s in spans && !Allowed(f.path, f.blob, spans, s)|
  }

  lemma CountsAreOfTheRule(f: File, spans: seq<Span>, allowed: set<Span>)
    requires LeftmostCover(f.blob, spans)
    requires forall s | s in spans :: s in allowed <==> Allowed(f.path, f.blob, spans, s)
    ensures HasCounts(f, |Those(spans, allowed, true)|, |Those(spans, allowed, false)|)
  {
    assert Those(spans, allowed, true) == set s | s in spans && Allowed(f.path, f.blob, spans, s);
    assert Those(spans, allowed, false) == set s | s in spans && !Allowed(f.path, f.blob, spans, s);
  }

  /** One file: its counts are those of the rule, and it has no findings exactly when it is clean. */
  method ScanFile(f: File, chunk: nat) returns (allowances: nat, findings: nat)
    requires chunk > 0
    ensures HasCounts(f, allowances, findings)
    ensures findings == 0 <==> Clean(f)
  {
    var spans, allowed := FileSpans(f, chunk);
    CleanMeansAllAllowed(f, spans, allowed);
    CountsAreOfTheRule(f, spans, allowed);
    allowances, findings := CountFindings(spans, allowed);
    ghost var bad := Those(spans, allowed, false);
    assert forall s | s in spans && s !in allowed :: s in bad;
  }

  function Sum(counts: seq<nat>): nat {
    if counts == [] then 0 else Sum(counts[..|counts| - 1]) + counts[|counts| - 1]
  }

  ghost predicate AllClean(files: seq<File>) {
    forall f | f in files :: Clean(f)
  }

  lemma OneMoreFile(files: seq<File>, k: nat)
    requires k < |files|
    ensures AllClean(files[..k + 1]) <==> AllClean(files[..k]) && Clean(files[k])
  {
    assert files[..k + 1] == files[..k] + [files[k]];
  }

  lemma SumOneMore(counts: seq<nat>, next: nat)
    ensures Sum(counts + [next]) == Sum(counts) + next
  {
    assert (counts + [next])[..|counts|] == counts;
  }

  /** The counts are those of the first files. */
  ghost predicate AreCounted(files: seq<File>, allowed: seq<nat>, found: seq<nat>) {
    |allowed| == |found| <= |files| && forall k | 0 <= k < |found| :: HasCounts(files[k], allowed[k], found[k])
  }

  lemma OneMoreCounted(files: seq<File>, allowed: seq<nat>, found: seq<nat>, more: nat, bad: nat)
    requires AreCounted(files, allowed, found) && |found| < |files| && HasCounts(files[|found|], more, bad)
    ensures AreCounted(files, allowed + [more], found + [bad])
  {
    var a, f := allowed + [more], found + [bad];
    forall k | 0 <= k < |f|
      ensures HasCounts(files[k], a[k], f[k])
    {
      if k == |found| {
        assert a[k] == more && f[k] == bad;
      } else {
        assert a[k] == allowed[k] && f[k] == found[k];
      }
    }
  }

  /** The totals after the first `n` files. */
  ghost predicate Tallied(files: seq<File>, n: nat, allowances: nat, findings: nat, allowed: seq<nat>, found: seq<nat>) {
    && n <= |files| && |found| == n && AreCounted(files, allowed, found)
    && allowances == Sum(allowed) && findings == Sum(found) && (findings == 0 <==> AllClean(files[..n]))
  }

  lemma OneMoreTallied(files: seq<File>, n: nat, allowances: nat, findings: nat, allowed: seq<nat>, found: seq<nat>,
                       more: nat, bad: nat)
    requires Tallied(files, n, allowances, findings, allowed, found) && n < |files|
    requires HasCounts(files[n], more, bad) && (bad == 0 <==> Clean(files[n]))
    ensures Tallied(files, n + 1, allowances + more, findings + bad, allowed + [more], found + [bad])
  {
    OneMoreCounted(files, allowed, found, more, bad);
    SumOneMore(allowed, more);
    SumOneMore(found, bad);
    OneMoreFile(files, n);
  }

  /** The whole run reports the sums of all files' counts, and passes exactly when every file is clean. */
  method Scan(files: seq<File>, chunk: nat)
    returns (allowances: nat, findings: nat, code: nat, ghost allowed: seq<nat>, ghost found: seq<nat>)
    requires chunk > 0
    ensures |found| == |files| && AreCounted(files, allowed, found)
    ensures allowances == Sum(allowed) && findings == Sum(found)
    ensures code == if AllClean(files) then 0 else 1
  {
    allowances, findings, allowed, found := 0, 0, [], [];
    for k := 0 to |files|
      invariant Tallied(files, k, allowances, findings, allowed, found)
    {
      var more, bad := ScanFile(files[k], chunk);
      OneMoreTallied(files, k, allowances, findings, allowed, found, more, bad);
      allowances, findings, allowed, found := allowances + more, findings + bad, allowed + [more], found + [bad];
    }
    assert files[..|files|] == files;
    code := if findings > 0 then 1 else 0;
  }
}
