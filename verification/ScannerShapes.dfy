/** The credential shapes of mvp/scripts/scan_changed_credentials.py and the greedy scan
    that reports them.

    A shape is described declaratively by ShapeAt; the scanning methods follow the source
    loop by loop and are proved to report the leftmost cover of the blob by shapes, in
    work linear in its length. */
module ScannerShapes {
  import opened Basics

  type byte = b: int | 0 <= b < 256
  type bytes = seq<byte>

  datatype Span = Span(start: nat, end: nat)

  /** The byte alphabets a credential body may run over. */
  datatype Alphabet = KeyBody | FineBody | PlainBody | BearerSpace | BearerBody

  predicate IsAlphanumeric(b: byte) {
    48 <= b <= 57 || 65 <= b <= 90 || 97 <= b <= 122
  }

  predicate Allows(a: Alphabet, b: byte) {
    match a
    case KeyBody => IsAlphanumeric(b) || b == 95 || b == 45
    case FineBody => IsAlphanumeric(b) || b == 95
    case PlainBody => IsAlphanumeric(b)
    case BearerSpace => b == 32 || b == 9 || b == 13 || b == 10
    case BearerBody => IsAlphanumeric(b) || b in [46, 95, 126, 43, 47, 61, 45]
  }

  function Lower(b: byte): byte {
    if 65 <= b <= 90 then b + 32 else b
  }

  const SK_PREFIX: bytes := [115, 107, 45] // sk-
  const FINE_PREFIX: bytes := [103, 105, 116, 104, 117, 98, 95, 112, 97, 116, 95] // github_pat_
  const AKIA_PREFIX: bytes := [97, 107, 105, 97]
  const ASIA_PREFIX: bytes := [97, 115, 105, 97]
  const BEARER_PREFIX: bytes := [98, 101, 97, 114, 101, 114]
  // -----begin private key-----, and the same for the rsa, ec and openssh kinds
  const PLAIN_HEADER: bytes := [
    45, 45, 45, 45, 45, 98, 101, 103, 105, 110, 32,
    112, 114, 105, 118, 97, 116, 101, 32, 107, 101, 121, 45, 45, 45, 45, 45]
  const RSA_HEADER: bytes := [
    45, 45, 45, 45, 45, 98, 101, 103, 105, 110, 32,
    114, 115, 97, 32, 112, 114, 105, 118, 97, 116, 101, 32, 107, 101, 121, 45, 45, 45, 45, 45]
  const EC_HEADER: bytes := [
    45, 45, 45, 45, 45, 98, 101, 103, 105, 110, 32,
    101, 99, 32, 112, 114, 105, 118, 97, 116, 101, 32, 107, 101, 121, 45, 45, 45, 45, 45]
  const OPENSSH_HEADER: bytes := [
    45, 45, 45, 45, 45, 98, 101, 103, 105, 110, 32,
    111, 112, 101, 110, 115, 115, 104, 32, 112, 114, 105, 118, 97, 116, 101, 32, 107, 101, 121, 45, 45, 45, 45, 45]

  /** The literal occurs at position i, ignoring ASCII case. */
  predicate PrefixAt(blob: bytes, i: nat, literal: bytes) {
    i + |literal| <= |blob| && forall k | 0 <= k < |literal| :: Lower(blob[i + k]) == literal[k]
  }

  /** gho_, ghp_, ghr_, ghs_ or ghu_ at position i. */
  predicate ShortGithubAt(blob: bytes, i: nat) {
    && i + 4 <= |blob|
    && Lower(blob[i]) == 103 && Lower(blob[i + 1]) == 104
    && Lower(blob[i + 2]) in [112, 111, 117, 115, 114]
    && blob[i + 3] == 95
  }

  /** end is where the maximal run over the alphabet that begins at start stops. */
  ghost predicate IsRunEnd(blob: bytes, start: nat, a: Alphabet, end: nat) {
    && start <= end <= |blob|
    && (forall k | start <= k < end :: Allows(a, blob[k]))
    && (end < |blob| ==> !Allows(a, blob[end]))
  }

  ghost predicate KeyShape(blob: bytes, i: nat, e: nat) {
    PrefixAt(blob, i, SK_PREFIX) && IsRunEnd(blob, i + 3, KeyBody, e) && e >= i + 23
  }

  ghost predicate FineShape(blob: bytes, i: nat, e: nat) {
    PrefixAt(blob, i, FINE_PREFIX) && IsRunEnd(blob, i + 11, FineBody, e) && e >= i + 31
  }

  ghost predicate ShortShape(blob: bytes, i: nat, e: nat) {
    ShortGithubAt(blob, i) && IsRunEnd(blob, i + 4, PlainBody, e) && e >= i + 24
  }

  ghost predicate CloudShape(blob: bytes, i: nat, e: nat) {
    && (PrefixAt(blob, i, AKIA_PREFIX) || PrefixAt(blob, i, ASIA_PREFIX))
    && e == i + 20 <= |blob|
    && forall k | i + 4 <= k < e :: IsAlphanumeric(blob[k])
  }

  ghost predicate BearerShape(blob: bytes, i: nat, e: nat) {
    && PrefixAt(blob, i, BEARER_PREFIX)
    && exists body :: i + 6 < body && IsRunEnd(blob, i + 6, BearerSpace, body)
                      && IsRunEnd(blob, body, BearerBody, e) && e >= body + 20
  }

  ghost predicate HeaderShape(blob: bytes, i: nat, e: nat) {
    || (PrefixAt(blob, i, PLAIN_HEADER) && e == i + |PLAIN_HEADER|)
    || (PrefixAt(blob, i, RSA_HEADER) && e == i + |RSA_HEADER|)
    || (PrefixAt(blob, i, EC_HEADER) && e == i + |EC_HEADER|)
    || (PrefixAt(blob, i, OPENSSH_HEADER) && e == i + |OPENSSH_HEADER|)
  }

  /** A credential shape occupies exactly blob[i..e]. */
  ghost predicate ShapeAt(blob: bytes, i: nat, e: nat) {
    || KeyShape(blob, i, e) || FineShape(blob, i, e) || ShortShape(blob, i, e)
    || CloudShape(blob, i, e) || BearerShape(blob, i, e) || HeaderShape(blob, i, e)
  }

  /** A credential shape begins at position i. */
  ghost predicate HasShape(blob: bytes, i: nat) {
    exists e: nat :: ShapeAt(blob, i, e)
  }

  /** No body is ever consumed when the scan looks at position p. */
  predicate Idle(blob: bytes, p: nat) {
    && !PrefixAt(blob, p, SK_PREFIX) && !PrefixAt(blob, p, FINE_PREFIX)
    && !ShortGithubAt(blob, p) && !PrefixAt(blob, p, BEARER_PREFIX)
  }

  // ----- the shapes, spelled out -----

  function LowerChar(b: byte): char {
    if 'A' <= b as char <= 'Z' then (b + 32) as char else b as char
  }

  /** The text stands at position i, in upper or lower case. */
  predicate Reads(blob: bytes, i: nat, text: string) {
    i + |text| <= |blob| && forall k | 0 <= k < |text| :: LowerChar(blob[i + k]) == text[k]
  }

  predicate IsOneOf(b: byte, alphanumeric: bool, others: string) {
    var c := b as char;
    (alphanumeric && ('0' <= c <= '9' || 'A' <= c <= 'Z' || 'a' <= c <= 'z')) || c in others
  }

  /** Such bytes and no others run from one position to the other. */
  predicate RunsTo(blob: bytes, from: nat, to: nat, alphanumeric: bool, others: string) {
    && from <= to <= |blob|
    && (forall k | from <= k < to :: IsOneOf(blob[k], alphanumeric, others))
    && (to < |blob| ==> !IsOneOf(blob[to], alphanumeric, others))
  }

  /** What counts as a credential, in the characters of its text: a key, a fine-grained or a short GitHub token, a
      cloud key, a bearer token, or the head of a private key. */
  ghost predicate IsCredential(blob: bytes, i: nat, e: nat) {
    || (Reads(blob, i, "sk-") && RunsTo(blob, i + 3, e, true, "_-") && e - (i + 3) >= 20)
    || (Reads(blob, i, "github_pat_") && RunsTo(blob, i + 11, e, true, "_") && e - (i + 11) >= 20)
    || ((Reads(blob, i, "ghp_") || Reads(blob, i, "gho_") || Reads(blob, i, "ghu_") || Reads(blob, i, "ghs_")
         || Reads(blob, i, "ghr_"))
        && RunsTo(blob, i + 4, e, true, "") && e - (i + 4) >= 20)
    || ((Reads(blob, i, "akia") || Reads(blob, i, "asia"))
        && e == i + 20 <= |blob| && forall k | i + 4 <= k < i + 20 :: IsOneOf(blob[k], true, ""))
    || (Reads(blob, i, "bearer") && exists body: nat :: body > i + 6 && RunsTo(blob, i + 6, body, false, " \t\r\n")
                                                      && RunsTo(blob, body, e, true, "._~+/=-") && e - body >= 20)
    || (Reads(blob, i, "-----begin private key-----") && e == i + 27)
    || (Reads(blob, i, "-----begin rsa private key-----") && e == i + 31)
    || (Reads(blob, i, "-----begin ec private key-----") && e == i + 30)
    || (Reads(blob, i, "-----begin openssh private key-----") && e == i + 35)
  }

  predicate Spells(literal: bytes, text: string) {
    |literal| == |text| && forall k | 0 <= k < |text| :: literal[k] as char == text[k]
  }

  lemma ReadsLiteral(blob: bytes, i: nat, literal: bytes, text: string)
    requires Spells(literal, text)
    ensures PrefixAt(blob, i, literal) <==> Reads(blob, i, text)
  {
    if PrefixAt(blob, i, literal) {
      forall k | 0 <= k < |text|
        ensures LowerChar(blob[i + k]) == text[k]
      {
        assert Lower(blob[i + k]) == literal[k];
      }
    }
    if Reads(blob, i, text) {
      forall k | 0 <= k < |literal|
        ensures Lower(blob[i + k]) == literal[k]
      {
        assert LowerChar(blob[i + k]) == text[k];
      }
    }
  }

  /** The prefixes and headers are these words. */
  lemma PrefixesAreSpelled()
    ensures Spells(SK_PREFIX, "sk-") && Spells(FINE_PREFIX, "github_pat_")
    ensures Spells(AKIA_PREFIX, "akia") && Spells(ASIA_PREFIX, "asia") && Spells(BEARER_PREFIX, "bearer")
  {}

  lemma PlainHeaderIsSpelled()
    ensures Spells(PLAIN_HEADER, "-----begin private key-----")
  {}

  lemma RsaHeaderIsSpelled()
    ensures Spells(RSA_HEADER, "-----begin rsa private key-----")
  {}

  lemma EcHeaderIsSpelled()
    ensures Spells(EC_HEADER, "-----begin ec private key-----")
  {}

  lemma OpensshHeaderIsSpelled()
    ensures Spells(OPENSSH_HEADER, "-----begin openssh private key-----")
  {}

  lemma RunIsSpelled(blob: bytes, from: nat, a: Alphabet, to: nat, alphanumeric: bool, others: string)
    requires forall b: byte :: Allows(a, b) <==> IsOneOf(b, alphanumeric, others)
    ensures IsRunEnd(blob, from, a, to) <==> RunsTo(blob, from, to, alphanumeric, others)
  {}

  lemma AlphabetsAreSpelled(b: byte)
    ensures Allows(KeyBody, b) <==> IsOneOf(b, true, "_-")
    ensures Allows(FineBody, b) <==> IsOneOf(b, true, "_")
    ensures Allows(PlainBody, b) <==> IsOneOf(b, true, "")
    ensures Allows(BearerSpace, b) <==> IsOneOf(b, false, " \t\r\n")
    ensures Allows(BearerBody, b) <==> IsOneOf(b, true, "._~+/=-")
  {}

  lemma SpelledAlphabets()
    ensures forall b: byte :: Allows(KeyBody, b) <==> IsOneOf(b, true, "_-")
    ensures forall b: byte :: Allows(FineBody, b) <==> IsOneOf(b, true, "_")
    ensures forall b: byte :: Allows(PlainBody, b) <==> IsOneOf(b, true, "")
    ensures forall b: byte :: Allows(BearerSpace, b) <==> IsOneOf(b, false, " \t\r\n")
    ensures forall b: byte :: Allows(BearerBody, b) <==> IsOneOf(b, true, "._~+/=-")
  {
    forall b: byte {
      AlphabetsAreSpelled(b);
    }
  }

  lemma ShortGithubIsSpelled(blob: bytes, i: nat)
    ensures ShortGithubAt(blob, i) <==>
      || Reads(blob, i, "ghp_") || Reads(blob, i, "gho_") || Reads(blob, i, "ghu_") || Reads(blob, i, "ghs_")
      || Reads(blob, i, "ghr_")
  {
    ReadsFour(blob, i, "ghp_");
    ReadsFour(blob, i, "gho_");
    ReadsFour(blob, i, "ghu_");
    ReadsFour(blob, i, "ghs_");
    ReadsFour(blob, i, "ghr_");
  }

  lemma ReadsFour(blob: bytes, i: nat, text: string)
    requires |text| == 4
    ensures Reads(blob, i, text) <==>
      && i + 4 <= |blob| && Lower(blob[i]) as char == text[0] && Lower(blob[i + 1]) as char == text[1]
      && Lower(blob[i + 2]) as char == text[2] && Lower(blob[i + 3]) as char == text[3]
  {
    if Reads(blob, i, text) {
      assert LowerChar(blob[i + 0]) == text[0] && LowerChar(blob[i + 1]) == text[1];
      assert LowerChar(blob[i + 2]) == text[2] && LowerChar(blob[i + 3]) == text[3];
    }
  }

  lemma BearerIsSpelled(blob: bytes, i: nat, e: nat)
    ensures BearerShape(blob, i, e) <==>
      Reads(blob, i, "bearer") && exists body: nat :: body > i + 6 && RunsTo(blob, i + 6, body, false, " \t\r\n")
                                                     && RunsTo(blob, body, e, true, "._~+/=-") && e - body >= 20
  {
    PrefixesAreSpelled();
    ReadsLiteral(blob, i, BEARER_PREFIX, "bearer");
    SpelledAlphabets();
    forall body: nat
      ensures IsRunEnd(blob, i + 6, BearerSpace, body) <==> RunsTo(blob, i + 6, body, false, " \t\r\n")
      ensures IsRunEnd(blob, body, BearerBody, e) <==> RunsTo(blob, body, e, true, "._~+/=-")
    {
      RunIsSpelled(blob, i + 6, BearerSpace, body, false, " \t\r\n");
      RunIsSpelled(blob, body, BearerBody, e, true, "._~+/=-");
    }
  }

  lemma HeadersAreSpelled(blob: bytes, i: nat, e: nat)
    ensures HeaderShape(blob, i, e) <==>
      || (Reads(blob, i, "-----begin private key-----") && e == i + 27)
      || (Reads(blob, i, "-----begin rsa private key-----") && e == i + 31)
      || (Reads(blob, i, "-----begin ec private key-----") && e == i + 30)
      || (Reads(blob, i, "-----begin openssh private key-----") && e == i + 35)
  {
    PlainHeaderIsSpelled();
    RsaHeaderIsSpelled();
    EcHeaderIsSpelled();
    OpensshHeaderIsSpelled();
    ReadsLiteral(blob, i, PLAIN_HEADER, "-----begin private key-----");
    ReadsLiteral(blob, i, RSA_HEADER, "-----begin rsa private key-----");
    ReadsLiteral(blob, i, EC_HEADER, "-----begin ec private key-----");
    ReadsLiteral(blob, i, OPENSSH_HEADER, "-----begin openssh private key-----");
  }

  lemma TokensAreSpelled(blob: bytes, i: nat, e: nat)
    ensures KeyShape(blob, i, e) <==> Reads(blob, i, "sk-") && RunsTo(blob, i + 3, e, true, "_-") && e - (i + 3) >= 20
    ensures FineShape(blob, i, e) <==>
      Reads(blob, i, "github_pat_") && RunsTo(blob, i + 11, e, true, "_") && e - (i + 11) >= 20
    ensures ShortShape(blob, i, e) <==>
      && (Reads(blob, i, "ghp_") || Reads(blob, i, "gho_") || Reads(blob, i, "ghu_") || Reads(blob, i, "ghs_")
          || Reads(blob, i, "ghr_"))
      && RunsTo(blob, i + 4, e, true, "") && e - (i + 4) >= 20
  {
    PrefixesAreSpelled();
    SpelledAlphabets();
    ReadsLiteral(blob, i, SK_PREFIX, "sk-");
    ReadsLiteral(blob, i, FINE_PREFIX, "github_pat_");
    ShortGithubIsSpelled(blob, i);
    RunIsSpelled(blob, i + 3, KeyBody, e, true, "_-");
    RunIsSpelled(blob, i + 11, FineBody, e, true, "_");
    RunIsSpelled(blob, i + 4, PlainBody, e, true, "");
  }

  lemma CloudIsSpelled(blob: bytes, i: nat, e: nat)
    ensures CloudShape(blob, i, e) <==>
      && (Reads(blob, i, "akia") || Reads(blob, i, "asia"))
      && e == i + 20 <= |blob| && forall k | i + 4 <= k < i + 20 :: IsOneOf(blob[k], true, "")
  {
    PrefixesAreSpelled();
    SpelledAlphabets();
    ReadsLiteral(blob, i, AKIA_PREFIX, "akia");
    ReadsLiteral(blob, i, ASIA_PREFIX, "asia");
  }

  /** The shapes that the scan looks for are the credentials as they are spelled. */
  lemma ShapesAreSpelled(blob: bytes, i: nat, e: nat)
    ensures ShapeAt(blob, i, e) <==> IsCredential(blob, i, e)
  {
    TokensAreSpelled(blob, i, e);
    CloudIsSpelled(blob, i, e);
    BearerIsSpelled(blob, i, e);
    HeadersAreSpelled(blob, i, e);
  }

  /** One maximal run, read in blocks of `chunk` bytes: the result does not depend on the block size. */
  method ConsumeBytes(blob: bytes, start: nat, allowed: Alphabet, chunk: nat) returns (cursor: nat)
    requires chunk > 0
    ensures start > |blob| ==> cursor == start
    ensures start <= |blob| ==> IsRunEnd(blob, start, allowed, cursor)
  {
    cursor := start;
    while cursor < |blob|
      invariant start <= cursor
      invariant start <= |blob| ==> cursor <= |blob|
      invariant start > |blob| ==> cursor == start
      invariant forall k | start <= k < cursor && k < |blob| :: Allows(allowed, blob[k])
    {
      var blockEnd := if cursor + chunk < |blob| then cursor + chunk else |blob|;
      ghost var before := cursor;
      while cursor < blockEnd && Allows(allowed, blob[cursor])
        invariant before <= cursor <= blockEnd
        invariant forall k | start <= k < cursor :: Allows(allowed, blob[k])
      {
        cursor := cursor + 1;
      }
      if cursor < blockEnd {
        return;
      }
    }
  }

  lemma RunEndIsUnique(blob: bytes, start: nat, a: Alphabet, e: nat, f: nat)
    requires IsRunEnd(blob, start, a, e) && IsRunEnd(blob, start, a, f)
    ensures e == f
  {
  }

  lemma RunEndOnly(blob: bytes, start: nat, a: Alphabet, end: nat)
    requires IsRunEnd(blob, start, a, end)
    ensures forall e: nat | IsRunEnd(blob, start, a, e) :: e == end
  {
    forall e: nat | IsRunEnd(blob, start, a, e) ensures e == end {
      RunEndIsUnique(blob, start, a, e, end);
    }
  }

  /** The literals by their leading bytes, which keep the shapes apart. */
  lemma LeadingBytes()
    ensures SK_PREFIX[0] == 115 && SK_PREFIX[1] == 107
    ensures FINE_PREFIX[0] == 103 && FINE_PREFIX[1] == 105
    ensures AKIA_PREFIX[0] == 97 == ASIA_PREFIX[0]
    ensures BEARER_PREFIX[0] == 98
    ensures PLAIN_HEADER[0] == RSA_HEADER[0] == EC_HEADER[0] == OPENSSH_HEADER[0] == 45
  {
  }

  /** The first byte decides which shape is possible. */
  lemma FirstByteDecides(blob: bytes, i: nat, e: nat)
    requires ShapeAt(blob, i, e)
    ensures i < e <= |blob|
    ensures Lower(blob[i]) in [115, 103, 97, 98, 45]
    ensures Lower(blob[i]) == 115 ==> KeyShape(blob, i, e)
    ensures Lower(blob[i]) == 103 ==> FineShape(blob, i, e) || ShortShape(blob, i, e)
    ensures Lower(blob[i]) == 97 ==> CloudShape(blob, i, e)
    ensures Lower(blob[i]) == 98 ==> BearerShape(blob, i, e)
    ensures Lower(blob[i]) == 45 ==> HeaderShape(blob, i, e)
  {
    LeadingBytes();
  }

  /** Two different key headers never match at the same place. */
  lemma HeaderIsUnique(blob: bytes, i: nat, e: nat, f: nat)
    requires HeaderShape(blob, i, e) && HeaderShape(blob, i, f)
    ensures e == f
  {
    assert PLAIN_HEADER[11] == 112 && RSA_HEADER[11] == 114 && EC_HEADER[11] == 101 && OPENSSH_HEADER[11] == 111;
  }

  /** At most one shape begins at a position. */
  lemma ShapeIsUnique(blob: bytes, i: nat, e: nat, f: nat)
    requires ShapeAt(blob, i, e) && ShapeAt(blob, i, f)
    ensures e == f
  {
    LeadingBytes();
    FirstByteDecides(blob, i, e);
    FirstByteDecides(blob, i, f);
    if Lower(blob[i]) == 45 {
      HeaderIsUnique(blob, i, e, f);
    }
  }

  /** An idle stretch: no body is consumed at any position strictly between from and to. */
  ghost predicate IdleBetween(blob: bytes, from: nat, to: nat) {
    forall p: nat | from < p < to :: Idle(blob, p)
  }

  /** The position starts with "sk-", so nothing is consumed at its next two bytes; likewise below. */
  lemma KeyPrefixIdles(blob: bytes, i: nat)
    requires PrefixAt(blob, i, SK_PREFIX) || PrefixAt(blob, i, FINE_PREFIX) || ShortGithubAt(blob, i)
    ensures IdleBetween(blob, i, i + 3)
  {
    LeadingBytes();
    if PrefixAt(blob, i, SK_PREFIX) {
      assert SK_PREFIX[2] == 45;
      assert Lower(blob[i + 1]) == 107 && Lower(blob[i + 2]) == 45;
    } else if PrefixAt(blob, i, FINE_PREFIX) {
      assert FINE_PREFIX[2] == 116;
      assert Lower(blob[i + 1]) == 105 && Lower(blob[i + 2]) == 116;
    } else {
      assert Lower(blob[i + 1]) == 104 && Lower(blob[i + 3]) == 95;
      assert !PrefixAt(blob, i + 2, SK_PREFIX);
    }
  }

  lemma BearerPrefixIdles(blob: bytes, i: nat, body: nat)
    requires PrefixAt(blob, i, BEARER_PREFIX) && IsRunEnd(blob, i + 6, BearerSpace, body)
    ensures IdleBetween(blob, i, body)
  {
    LeadingBytes();
    assert BEARER_PREFIX[1] == 101 && BEARER_PREFIX[2] == 97 && BEARER_PREFIX[3] == 114;
    assert BEARER_PREFIX[4] == 101 && BEARER_PREFIX[5] == 114;
    forall p: nat | i < p < body
      ensures Idle(blob, p)
    {
      if p < i + 6 {
        assert Lower(blob[p]) == BEARER_PREFIX[p - i];
      } else {
        assert Allows(BearerSpace, blob[p]);
      }
    }
  }

  // ----- the bytes that the scan consumes -----

  /** The number of bytes that `consume_bytes` advances from a position. */
  function RunLength(blob: bytes, start: nat, a: Alphabet): nat
    decreases |blob| - start
  {
    if start < |blob| && Allows(a, blob[start]) then 1 + RunLength(blob, start + 1, a) else 0
  }

  /** The bytes consumed when the scan looks at position i. */
  function Spent(blob: bytes, i: nat): nat {
    if PrefixAt(blob, i, SK_PREFIX) then RunLength(blob, i + 3, KeyBody)
    else if PrefixAt(blob, i, FINE_PREFIX) then RunLength(blob, i + 11, FineBody)
    else if ShortGithubAt(blob, i) then RunLength(blob, i + 4, PlainBody)
    else if PrefixAt(blob, i, BEARER_PREFIX) then
      var space := RunLength(blob, i + 6, BearerSpace);
      if space == 0 then 0 else space + RunLength(blob, i + 6 + space, BearerBody)
    else 0
  }

  lemma RunIs(blob: bytes, from: nat, a: Alphabet, to: nat, alphanumeric: bool, others: string)
    requires forall b: byte :: Allows(a, b) <==> IsOneOf(b, alphanumeric, others)
    requires RunsTo(blob, from, to, alphanumeric, others)
    ensures RunLength(blob, from, a) == to - from
  {
    RunIsSpelled(blob, from, a, to, alphanumeric, others);
    RunLengthIs(blob, from, a, to);
  }

  // What is consumed at a position, in the characters of the text.

  lemma SpentOnKey(blob: bytes, i: nat, e: nat)
    requires Reads(blob, i, "sk-") && RunsTo(blob, i + 3, e, true, "_-")
    ensures Spent(blob, i) == e - (i + 3)
  {
    PrefixesAreSpelled();
    SpelledAlphabets();
    ReadsLiteral(blob, i, SK_PREFIX, "sk-");
    RunIs(blob, i + 3, KeyBody, e, true, "_-");
  }

  lemma SpentOnFine(blob: bytes, i: nat, e: nat)
    requires Reads(blob, i, "github_pat_") && RunsTo(blob, i + 11, e, true, "_")
    ensures Spent(blob, i) == e - (i + 11)
  {
    PrefixesAreSpelled();
    SpelledAlphabets();
    ReadsLiteral(blob, i, FINE_PREFIX, "github_pat_");
    SpentByFirstByte(blob, i);
    assert FINE_PREFIX[0] == 103;
    RunIs(blob, i + 11, FineBody, e, true, "_");
  }

  lemma SpentOnShort(blob: bytes, i: nat, e: nat)
    requires ShortGithubAt(blob, i) && RunsTo(blob, i + 4, e, true, "")
    ensures Spent(blob, i) == e - (i + 4)
  {
    SpelledAlphabets();
    SpentByFirstByte(blob, i);
    assert FINE_PREFIX[1] == 105;
    RunIs(blob, i + 4, PlainBody, e, true, "");
  }

  lemma SpentOnBearer(blob: bytes, i: nat, blanks: nat, e: nat)
    requires Reads(blob, i, "bearer") && RunsTo(blob, i + 6, blanks, false, " \t\r\n")
    requires blanks > i + 6 ==> RunsTo(blob, blanks, e, true, "._~+/=-")
    ensures Spent(blob, i) == if blanks == i + 6 then 0 else e - (i + 6)
  {
    PrefixesAreSpelled();
    SpelledAlphabets();
    ReadsLiteral(blob, i, BEARER_PREFIX, "bearer");
    SpentByFirstByte(blob, i);
    assert BEARER_PREFIX[0] == 98;
    RunIs(blob, i + 6, BearerSpace, blanks, false, " \t\r\n");
    if blanks > i + 6 {
      RunIs(blob, blanks, BearerBody, e, true, "._~+/=-");
    }
  }

  lemma SpentElsewhere(blob: bytes, i: nat)
    requires !Reads(blob, i, "sk-") && !Reads(blob, i, "github_pat_") && !ShortGithubAt(blob, i) && !Reads(blob, i, "bearer")
    ensures Spent(blob, i) == 0
  {
    PrefixesAreSpelled();
    ReadsLiteral(blob, i, SK_PREFIX, "sk-");
    ReadsLiteral(blob, i, FINE_PREFIX, "github_pat_");
    ReadsLiteral(blob, i, BEARER_PREFIX, "bearer");
  }

  ghost function ShapeEnd(blob: bytes, i: nat): (e: nat)
    requires HasShape(blob, i)
    ensures ShapeAt(blob, i, e) && i < e <= |blob|
  {
    var e: nat :| ShapeAt(blob, i, e);
    e
  }

  /** Where the scan looks next: behind the shape at i, if there is one. */
  ghost function NextLook(blob: bytes, i: nat): nat {
    if HasShape(blob, i) then ShapeEnd(blob, i) else i + 1
  }

  /** The bytes consumed by the scan from position i on. */
  ghost function ScanWork(blob: bytes, i: nat): nat
    decreases |blob| - i
  {
    if i >= |blob| then 0 else Spent(blob, i) + ScanWork(blob, NextLook(blob, i))
  }

  lemma {:induction false} RunLengthIs(blob: bytes, start: nat, a: Alphabet, end: nat)
    requires IsRunEnd(blob, start, a, end)
    ensures RunLength(blob, start, a) == end - start
    decreases end - start
  {
    if start < end {
      RunLengthIs(blob, start + 1, a, end);
    }
  }

  lemma WorkBehindShape(blob: bytes, i: nat, e: nat)
    requires ShapeAt(blob, i, e) && i < |blob|
    ensures ScanWork(blob, i) == Spent(blob, i) + ScanWork(blob, e)
  {
    assert HasShape(blob, i);
    ShapeIsUnique(blob, i, e, ShapeEnd(blob, i));
  }

  lemma WorkBehindFailure(blob: bytes, i: nat)
    requires i < |blob| && !HasShape(blob, i)
    ensures ScanWork(blob, i) == Spent(blob, i) + ScanWork(blob, i + 1)
  {
    assert NextLook(blob, i) == i + 1;
  }

  /** By the first byte only one family's body is consumed. */
  lemma SpentByFirstByte(blob: bytes, i: nat)
    requires i < |blob|
    ensures Lower(blob[i]) != 115 ==> !PrefixAt(blob, i, SK_PREFIX)
    ensures Lower(blob[i]) != 103 ==> !PrefixAt(blob, i, FINE_PREFIX) && !ShortGithubAt(blob, i)
    ensures Lower(blob[i]) != 98 ==> !PrefixAt(blob, i, BEARER_PREFIX)
  {
    LeadingBytes();
  }

  /** What the matcher has to find at a position: the shape that begins there, or that there is none. */
  ghost predicate Finds(blob: bytes, start: nat, span: Option<Span>) {
    if span.Some? then span.value.start == start && ShapeAt(blob, start, span.value.end) else !HasShape(blob, start)
  }

  /** The work is what is consumed at the position. The span found pays for it, or for a failure a stretch up
      to `reach` in which nothing more is consumed. */
  ghost predicate Pays(blob: bytes, start: nat, span: Option<Span>, work: nat, reach: nat) {
    && work == Spent(blob, start)
    && if span.Some? then 3 * work <= 19 * (span.value.end - start)
       else start < reach <= |blob| && IdleBetween(blob, start, reach) && 3 * work <= 19 * (reach - start)
  }

  ghost predicate Answers(blob: bytes, start: nat, span: Option<Span>, work: nat, reach: nat) {
    Finds(blob, start, span) && Pays(blob, start, span, work, reach)
  }

  /** The `sk-` branch. */
  method KeySpanAt(blob: bytes, start: nat, chunk: nat) returns (span: Option<Span>, ghost work: nat, ghost reach: nat)
    requires chunk > 0 && start < |blob| && Lower(blob[start]) == 115
    ensures Finds(blob, start, span)
    ensures Pays(blob, start, span, work, reach)
  {
    SpentByFirstByte(blob, start);
    forall e: nat | ShapeAt(blob, start, e)
      ensures KeyShape(blob, start, e)
    {
      FirstByteDecides(blob, start, e);
    }
    if PrefixAt(blob, start, SK_PREFIX) {
      var end := ConsumeBytes(blob, start + 3, KeyBody, chunk);
      work := end - (start + 3);
      RunLengthIs(blob, start + 3, KeyBody, end);
      if end - (start + 3) >= 20 {
        return Some(Span(start, end)), work, end;
      }
      KeyPrefixIdles(blob, start);
      RunEndOnly(blob, start + 3, KeyBody, end);
      return None, work, start + 3;
    }
    return None, 0, start + 1;
  }

  /** The two GitHub branches. */
  method GithubSpanAt(blob: bytes, start: nat, chunk: nat)
    returns (span: Option<Span>, ghost work: nat, ghost reach: nat)
    requires chunk > 0 && start < |blob| && Lower(blob[start]) == 103
    ensures Finds(blob, start, span)
    ensures Pays(blob, start, span, work, reach)
  {
    SpentByFirstByte(blob, start);
    forall e: nat | ShapeAt(blob, start, e)
      ensures FineShape(blob, start, e) || ShortShape(blob, start, e)
    {
      FirstByteDecides(blob, start, e);
    }
    assert FINE_PREFIX[1] == 105;
    if PrefixAt(blob, start, FINE_PREFIX) {
      var end := ConsumeBytes(blob, start + 11, FineBody, chunk);
      work := end - (start + 11);
      RunLengthIs(blob, start + 11, FineBody, end);
      if end - (start + 11) >= 20 {
        return Some(Span(start, end)), work, end;
      }
      KeyPrefixIdles(blob, start);
      RunEndOnly(blob, start + 11, FineBody, end);
      return None, work, start + 3;
    }
    if ShortGithubAt(blob, start) {
      var end := ConsumeBytes(blob, start + 4, PlainBody, chunk);
      work := end - (start + 4);
      RunLengthIs(blob, start + 4, PlainBody, end);
      if end - (start + 4) >= 20 {
        return Some(Span(start, end)), work, end;
      }
      KeyPrefixIdles(blob, start);
      RunEndOnly(blob, start + 4, PlainBody, end);
      return None, work, start + 3;
    }
    return None, 0, start + 1;
  }

  /** The cloud key branch, which consumes nothing. */
  method CloudSpanAt(blob: bytes, start: nat) returns (span: Option<Span>)
    requires start < |blob| && Lower(blob[start]) == 97
    ensures Finds(blob, start, span)
    ensures Pays(blob, start, span, 0, start + 1)
  {
    SpentByFirstByte(blob, start);
    forall e: nat | ShapeAt(blob, start, e)
      ensures CloudShape(blob, start, e)
    {
      FirstByteDecides(blob, start, e);
    }
    if && (PrefixAt(blob, start, AKIA_PREFIX) || PrefixAt(blob, start, ASIA_PREFIX))
       && start + 20 <= |blob|
       && (forall k | start + 4 <= k < start + 20 :: IsAlphanumeric(blob[k]))
    {
      return Some(Span(start, start + 20));
    }
    return None;
  }

  /** The bearer branch: a whitespace run, and behind it the body. */
  method BearerSpanAt(blob: bytes, start: nat, chunk: nat)
    returns (span: Option<Span>, ghost work: nat, ghost reach: nat)
    requires chunk > 0 && start < |blob| && Lower(blob[start]) == 98
    ensures Finds(blob, start, span)
    ensures Pays(blob, start, span, work, reach)
  {
    SpentByFirstByte(blob, start);
    forall e: nat | ShapeAt(blob, start, e)
      ensures BearerShape(blob, start, e)
    {
      FirstByteDecides(blob, start, e);
    }
    if !PrefixAt(blob, start, BEARER_PREFIX) {
      return None, 0, start + 1;
    }
    var bodyStart := ConsumeBytes(blob, start + 6, BearerSpace, chunk);
    RunLengthIs(blob, start + 6, BearerSpace, bodyStart);
    BearerPrefixIdles(blob, start, bodyStart);
    RunEndOnly(blob, start + 6, BearerSpace, bodyStart);
    if bodyStart == start + 6 {
      return None, 0, bodyStart;
    }
    var end := ConsumeBytes(blob, bodyStart, BearerBody, chunk);
    work := bodyStart - (start + 6) + (end - bodyStart);
    RunLengthIs(blob, bodyStart, BearerBody, end);
    RunEndOnly(blob, bodyStart, BearerBody, end);
    if end - bodyStart >= 20 {
      return Some(Span(start, end)), work, end;
    }
    return None, work, bodyStart;
  }

  /** The private key headers, which consume nothing. */
  method HeaderSpanAt(blob: bytes, start: nat) returns (span: Option<Span>)
    requires start < |blob| && blob[start] == 45
    ensures Finds(blob, start, span)
    ensures Pays(blob, start, span, 0, start + 1)
  {
    SpentByFirstByte(blob, start);
    forall e: nat | ShapeAt(blob, start, e)
      ensures HeaderShape(blob, start, e)
    {
      FirstByteDecides(blob, start, e);
    }
    var headers := [PLAIN_HEADER, RSA_HEADER, EC_HEADER, OPENSSH_HEADER];
    for h := 0 to 4
      invariant forall g | 0 <= g < h :: !PrefixAt(blob, start, headers[g])
    {
      if PrefixAt(blob, start, headers[h]) {
        return Some(Span(start, start + |headers[h]|));
      }
    }
    assert !PrefixAt(blob, start, headers[0]) && !PrefixAt(blob, start, headers[1]);
    assert !PrefixAt(blob, start, headers[2]) && !PrefixAt(blob, start, headers[3]);
    return None;
  }

  /** The branches of the source in order; the first byte decides. */
  method CredentialSpanAt(blob: bytes, start: nat, chunk: nat)
    returns (span: Option<Span>, ghost work: nat, ghost reach: nat)
    requires chunk > 0 && start < |blob|
    ensures Finds(blob, start, span)
    ensures Pays(blob, start, span, work, reach)
  {
    work, reach := 0, start + 1;
    var initial := blob[start];
    if Lower(initial) == 115 {
      span, work, reach := KeySpanAt(blob, start, chunk);
    } else if Lower(initial) == 103 {
      span, work, reach := GithubSpanAt(blob, start, chunk);
    } else if Lower(initial) == 97 {
      span := CloudSpanAt(blob, start);
    } else if Lower(initial) == 98 {
      span, work, reach := BearerSpanAt(blob, start, chunk);
    } else if initial == 45 {
      span := HeaderSpanAt(blob, start);
    } else {
      SpentByFirstByte(blob, start);
      if e: nat :| ShapeAt(blob, start, e) {
        FirstByteDecides(blob, start, e);
      }
      return None, work, reach;
    }
  }

  /** Every span is a shape, spans are disjoint and in order, and every position at which a
      shape begins lies in a reported span: it is its start, or inside an earlier match. */
  ghost predicate LeftmostCover(blob: bytes, spans: seq<Span>) {
    && (forall i | 0 <= i < |spans| :: ShapeAt(blob, spans[i].start, spans[i].end))
    && OrderedSpans(spans)
    && (forall p: nat | HasShape(blob, p) :: Covered(spans, p))
  }

  /** Sorted, disjoint and non-empty. */
  ghost predicate OrderedSpans(spans: seq<Span>) {
    && (forall i | 0 <= i < |spans| :: spans[i].start < spans[i].end)
    && (forall i, j | 0 <= i < j < |spans| :: spans[i].end <= spans[j].start)
  }

  ghost predicate Covered(spans: seq<Span>, p: nat) {
    exists i :: 0 <= i < |spans| && spans[i].start <= p < spans[i].end
  }

  /** The spans cover every shape that begins before the cursor. */
  ghost predicate CoverUpTo(blob: bytes, spans: seq<Span>, cursor: nat) {
    && (forall i | 0 <= i < |spans| :: ShapeAt(blob, spans[i].start, spans[i].end) && spans[i].end <= cursor)
    && OrderedSpans(spans)
    && (forall p: nat | p < cursor && HasShape(blob, p) :: Covered(spans, p))
  }

  lemma CoveredGrows(before: seq<Span>, s: Span, p: nat)
    requires Covered(before, p) || s.start <= p < s.end
    ensures Covered(before + [s], p)
  {
    if Covered(before, p) {
      var i :| 0 <= i < |before| && before[i].start <= p < before[i].end;
      assert (before + [s])[i] == before[i];
    } else {
      assert (before + [s])[|before|] == s;
    }
  }

  lemma OrderExtends(before: seq<Span>, s: Span)
    requires OrderedSpans(before) && s.start < s.end && forall i | 0 <= i < |before| :: before[i].end <= s.start
    ensures OrderedSpans(before + [s])
  {}

  lemma CoverExtends(blob: bytes, before: seq<Span>, s: Span)
    requires CoverUpTo(blob, before, s.start) && ShapeAt(blob, s.start, s.end)
    ensures s.start < s.end <= |blob| && CoverUpTo(blob, before + [s], s.end)
  {
    FirstByteDecides(blob, s.start, s.end);
    OrderExtends(before, s);
    var spans := before + [s];
    forall i | 0 <= i < |spans|
      ensures ShapeAt(blob, spans[i].start, spans[i].end) && spans[i].end <= s.end
    {
      if i < |before| {
        assert spans[i] == before[i];
      }
    }
    forall p: nat | p < s.end && HasShape(blob, p)
      ensures Covered(spans, p)
    {
      CoveredGrows(before, s, p);
    }
  }

  lemma CoverSkips(blob: bytes, spans: seq<Span>, cursor: nat)
    requires CoverUpTo(blob, spans, cursor) && !HasShape(blob, cursor)
    ensures CoverUpTo(blob, spans, cursor + 1)
  {
  }

  lemma CoverIsDone(blob: bytes, spans: seq<Span>)
    requires CoverUpTo(blob, spans, |blob|)
    ensures LeftmostCover(blob, spans) && forall i | 0 <= i < |spans| :: spans[i].end <= |blob|
  {
    forall p: nat | HasShape(blob, p)
      ensures p < |blob|
    {
      var e: nat :| ShapeAt(blob, p, e);
      FirstByteDecides(blob, p, e);
    }
  }

  /** Where the scan stands: what it has consumed, and that the stretch up to `paid` consumes nothing more. */
  ghost predicate Paid(blob: bytes, cursor: nat, paid: nat, work: nat) {
    && cursor <= |blob| && paid <= |blob|
    && (forall p: nat | cursor <= p < paid :: Idle(blob, p))
    && 3 * work <= 19 * Max(cursor, paid)
    && work + ScanWork(blob, cursor) == ScanWork(blob, 0)
  }

  lemma IdleSpendsNothing(blob: bytes, p: nat)
    requires Idle(blob, p)
    ensures Spent(blob, p) == 0
  {}

  lemma PaysForShape(blob: bytes, cursor: nat, paid: nat, work: nat, span: Span, spent: nat, reach: nat)
    requires Paid(blob, cursor, paid, work) && cursor < |blob| && Answers(blob, cursor, Some(span), spent, reach)
    ensures span.end > cursor && Paid(blob, span.end, paid, work + spent)
  {
    FirstByteDecides(blob, cursor, span.end);
    WorkBehindShape(blob, cursor, span.end);
    if cursor < paid {
      IdleSpendsNothing(blob, cursor);
    }
  }

  lemma PaysForFailure(blob: bytes, cursor: nat, paid: nat, work: nat, spent: nat, reach: nat)
    requires Paid(blob, cursor, paid, work) && cursor < |blob| && Answers(blob, cursor, None, spent, reach)
    ensures Paid(blob, cursor + 1, if paid <= cursor then reach else paid, work + spent)
  {
    WorkBehindFailure(blob, cursor);
    if cursor < paid {
      IdleSpendsNothing(blob, cursor);
    }
  }

  /** The scan stands at `cursor` with the spans before it. */
  ghost predicate ScanAt(blob: bytes, spans: seq<Span>, cursor: nat, paid: nat, work: nat) {
    Paid(blob, cursor, paid, work) && CoverUpTo(blob, spans, cursor)
  }

  ghost function NowPaid(cursor: nat, paid: nat, span: Option<Span>, reach: nat): nat {
    if span.None? && paid <= cursor then reach else paid
  }

  lemma ScanMovesOn(blob: bytes, spans: seq<Span>, cursor: nat, paid: nat, work: nat,
                    span: Option<Span>, spent: nat, reach: nat)
    requires ScanAt(blob, spans, cursor, paid, work) && cursor < |blob| && Answers(blob, cursor, span, spent, reach)
    ensures var now := NowPaid(cursor, paid, span, reach);
      if span.None? then ScanAt(blob, spans, cursor + 1, now, work + spent)
      else cursor < span.value.end <= |blob|
           && ScanAt(blob, spans + [span.value], span.value.end, now, work + spent)
  {
    if span.None? {
      PaysForFailure(blob, cursor, paid, work, spent, reach);
      CoverSkips(blob, spans, cursor);
    } else {
      PaysForShape(blob, cursor, paid, work, span.value, spent, reach);
      CoverExtends(blob, spans, span.value);
    }
  }

  lemma ScanStarts(blob: bytes)
    ensures ScanAt(blob, [], 0, 0, 0)
  {}

  lemma ScanIsDone(blob: bytes, spans: seq<Span>, paid: nat, work: nat)
    requires ScanAt(blob, spans, |blob|, paid, work)
    ensures LeftmostCover(blob, spans) && forall i | 0 <= i < |spans| :: spans[i].end <= |blob|
    ensures work == ScanWork(blob, 0) && 3 * work <= 19 * |blob|
  {
    CoverIsDone(blob, spans);
  }

  /** The whole scan: the leftmost cover, and the bytes it consumes are at most 19 for every three of the blob. */
  method FindSecretSpans(blob: bytes, chunk: nat) returns (spans: seq<Span>, ghost work: nat)
    requires chunk > 0
    ensures LeftmostCover(blob, spans)
    ensures forall i | 0 <= i < |spans| :: spans[i].end <= |blob|
    ensures work == ScanWork(blob, 0) && 3 * work <= 19 * |blob|
  {
    spans := [];
    work := 0;
    var cursor := 0;
    ghost var paid: nat := 0;
    ScanStarts(blob);
    while cursor < |blob|
      invariant cursor <= |blob| && ScanAt(blob, spans, cursor, paid, work)
    {
      var span, spent, reach := CredentialSpanAt(blob, cursor, chunk);
      ScanMovesOn(blob, spans, cursor, paid, work, span, spent, reach);
      paid, work := NowPaid(cursor, paid, span, reach), work + spent;
      if span.None? {
        cursor := cursor + 1;
        continue;
      }
      spans := spans + [span.value];
      cursor := span.value.end;
    }
    ScanIsDone(blob, spans, paid, work);
  }

  lemma StartIsCovered(blob: bytes, a: seq<Span>, b: seq<Span>, k: nat)
    requires LeftmostCover(blob, a) && LeftmostCover(blob, b) && k < |a|
    ensures Covered(b, a[k].start)
  {
    assert ShapeAt(blob, a[k].start, a[k].end);
    assert HasShape(blob, a[k].start);
  }

  lemma CoverOrder(a: seq<Span>, b: seq<Span>, k: nat)
    requires OrderedSpans(a) && OrderedSpans(b)
    requires k <= |b| && k < |a| && a[..k] == b[..k]
    requires Covered(b, a[k].start)
    ensures k < |b| && b[k].start <= a[k].start
  {
    assert forall j | 0 <= j < k :: a[j] == a[..k][j] == b[..k][j] == b[j];
  }

  lemma SameNext(blob: bytes, a: seq<Span>, b: seq<Span>, k: nat)
    requires LeftmostCover(blob, a) && LeftmostCover(blob, b)
    requires k <= |b| && k < |a| && a[..k] == b[..k]
    ensures k < |b| && a[k] == b[k] && a[..k + 1] == b[..k + 1]
  {
    StartIsCovered(blob, a, b, k);
    CoverOrder(a, b, k);
    StartIsCovered(blob, b, a, k);
    CoverOrder(b, a, k);
    ShapeIsUnique(blob, a[k].start, a[k].end, b[k].end);
    assert a[..k + 1] == a[..k] + [a[k]] && b[..k + 1] == b[..k] + [b[k]];
  }

  /** The leftmost cover is unique: whatever block size the scan used, its answer is the same. */
  lemma {:induction false} CoverIsUnique(blob: bytes, a: seq<Span>, b: seq<Span>, k: nat)
    requires LeftmostCover(blob, a) && LeftmostCover(blob, b)
    requires k <= |a| && k <= |b| && a[..k] == b[..k]
    ensures a == b
    decreases |a| - k
  {
    if k < |a| {
      SameNext(blob, a, b, k);
      CoverIsUnique(blob, a, b, k + 1);
    } else if k < |b| {
      StartIsCovered(blob, b, a, k);
      CoverOrder(b, a, k);
    } else {
      assert a == a[..k] == b[..k] == b;
    }
  }

  /** Hence the scan reports the same spans for every positive block size. */
  lemma ScanIsDetermined(blob: bytes, a: seq<Span>, b: seq<Span>)
    requires LeftmostCover(blob, a) && LeftmostCover(blob, b)
    ensures a == b
  {
    CoverIsUnique(blob, a, b, 0);
  }
}
