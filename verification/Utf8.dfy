/** UTF-8 (RFC 3629, section 3): what `encode("utf-8")` makes of a text, and that it is read back. */
module Utf8 {
  import opened Basics

  function EncodeChar(c: char): (bytes: seq<nat>)
    ensures 1 <= |bytes| <= 4 && Width(bytes[0]) == Some(|bytes|)
    ensures forall i | 1 <= i < |bytes| :: IsContinuation(bytes[i])
  {
    var v := c as nat;
    if v < 0x80 then [v]
    else if v < 0x800 then [0xC0 + v / 0x40, 0x80 + v % 0x40]
    else if v < 0x1_0000 then [0xE0 + v / 0x40 / 0x40, 0x80 + v / 0x40 % 0x40, 0x80 + v % 0x40]
    else [0xF0 + v / 0x40 / 0x40 / 0x40, 0x80 + v / 0x40 / 0x40 % 0x40, 0x80 + v / 0x40 % 0x40, 0x80 + v % 0x40]
  }

  function Encode(s: string): seq<nat> {
    if s == [] then [] else EncodeChar(s[0]) + Encode(s[1..])
  }

  lemma {:induction false} EncodeJoins(a: string, b: string)
    ensures Encode(a + b) == Encode(a) + Encode(b)
  {
    if a == [] {
      assert a + b == b;
    } else {
      assert (a + b)[1..] == a[1..] + b;
      EncodeJoins(a[1..], b);
    }
  }

  // ----- reading -----

  /** How many bytes a character takes, by its first byte. */
  function Width(first: nat): Option<nat> {
    if first < 0x80 then Some(1)
    else if 0xC0 <= first < 0xE0 then Some(2)
    else if 0xE0 <= first < 0xF0 then Some(3)
    else if 0xF0 <= first < 0xF8 then Some(4)
    else None
  }

  predicate IsContinuation(b: nat) {
    0x80 <= b < 0xC0
  }

  /** The payload of a first byte. */
  function Lead(first: nat): nat
    requires Width(first).Some?
  {
    match Width(first).value
    case 1 => first
    case 2 => first - 0xC0
    case 3 => first - 0xE0
    case _ => first - 0xF0
  }

  /** A continuation byte adds six bits. */
  function Shifted(high: nat, b: nat): nat {
    high * 0x40 + b % 0x40
  }

  function Payload(high: nat, tail: seq<nat>): nat {
    match |tail|
    case 0 => high
    case 1 => Shifted(high, tail[0])
    case 2 => Shifted(Shifted(high, tail[0]), tail[1])
    case _ => Shifted(Shifted(Shifted(high, tail[0]), tail[1]), tail[2])
  }

  /** The shortest form is the only one allowed. */
  function Least(width: nat): nat {
    match width
    case 1 => 0
    case 2 => 0x80
    case 3 => 0x800
    case _ => 0x1_0000
  }

  predicate IsScalar(v: nat) {
    v < 0xD800 || 0xE000 <= v < 0x11_0000
  }

  /** The character the bytes begin with, and how many bytes it takes. */
  function First(bytes: seq<nat>): Option<(char, nat)>
    requires bytes != []
  {
    var width := Width(bytes[0]);
    if width.None? || |bytes| < width.value then None
    else if exists i :: 1 <= i < width.value && !IsContinuation(bytes[i]) then None
    else
      var v := Payload(Lead(bytes[0]), bytes[1..width.value]);
      if v < Least(width.value) || !IsScalar(v) then None else Some((v as char, width.value))
  }

  function Decode(bytes: seq<nat>): Option<string> {
    if bytes == [] then Some("")
    else
      var first := First(bytes);
      if first.None? || first.value.1 == 0 then None
      else
        var rest := Decode(bytes[first.value.1..]);
        if rest.None? then None else Some([first.value.0] + rest.value)
  }

  /** The last digit of a number to the base of 64. */
  lemma LastSextet(v: nat)
    ensures Shifted(v / 0x40, 0x80 + v % 0x40) == v
  {}

  lemma PayloadOfEncoded(c: char)
    ensures Payload(Lead(EncodeChar(c)[0]), EncodeChar(c)[1..]) == c as nat
    ensures c as nat >= Least(|EncodeChar(c)|)
  {
    var v := c as nat;
    LastSextet(v);
    LastSextet(v / 0x40);
    LastSextet(v / 0x40 / 0x40);
  }

  lemma FirstOfEncoded(c: char, rest: seq<nat>)
    ensures First(EncodeChar(c) + rest) == Some((c, |EncodeChar(c)|))
  {
    var bytes := EncodeChar(c) + rest;
    PayloadOfEncoded(c);
    assert bytes[1..|EncodeChar(c)|] == EncodeChar(c)[1..];
  }

  /** What was encoded is read back. */
  lemma {:induction false} Utf8RoundTrip(s: string)
    ensures Decode(Encode(s)) == Some(s)
  {
    if s != [] {
      var head, rest := EncodeChar(s[0]), Encode(s[1..]);
      FirstOfEncoded(s[0], rest);
      Utf8RoundTrip(s[1..]);
      assert (head + rest)[|head|..] == rest;
      assert [s[0]] + s[1..] == s;
    }
  }
}
