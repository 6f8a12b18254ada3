/**
 * `uint8ArrayToBase64` and `base64ToUint8Array` (app/src/vault/keyDerivation.ts).
 *
 * The first maps each byte to the code point of the same value and hands the string to
 * `btoa`, which is the base64 encoding of section 4 of RFC 4648, with `=` padding. The second
 * hands the string to `atob`, which runs the "forgiving-base64 decode" of the WHATWG Infra
 * standard: drop ASCII whitespace, drop one or two trailing `=` when the length is a multiple
 * of four, reject a length of 1 modulo 4 and any character outside the alphabet, and discard
 * the bits left over at the end. `atob` throws InvalidCharacterError on rejection; here that
 * is `None`.
 */
module Base64 {
  import opened Wrappers
  import opened Platform

  /** The value of each character of the alphabet (Table 1 of RFC 4648); `None` off it. */
  function SextetValue(c: char): (r: Option<int>)
    ensures r.Some? ==> 0 <= r.value < 64
    ensures c == '=' ==> r.None?
  {
    if 'A' <= c <= 'Z' then Some(c as int - 'A' as int)
    else if 'a' <= c <= 'z' then Some(c as int - 'a' as int + 26)
    else if '0' <= c <= '9' then Some(c as int - '0' as int + 52)
    else if c == '+' then Some(62)
    else if c == '/' then Some(63)
    else None
  }

  /** The character for a 6-bit value (Table 1 of RFC 4648). */
  function SextetChar(v: int): (c: char)
    requires 0 <= v < 64
    ensures SextetValue(c) == Some(v)
    ensures c != '=' && !IsAsciiWhitespace(c)
  {
    if v < 26 then ('A' as int + v) as char
    else if v < 52 then ('a' as int + (v - 26)) as char
    else if v < 62 then ('0' as int + (v - 52)) as char
    else if v == 62 then '+'
    else '/'
  }

  /** TAB, LF, FF, CR and SPACE: what the forgiving decoder strips first. */
  predicate IsAsciiWhitespace(c: char) {
    c == '\t' || c == '\n' || c == '\U{000C}' || c == '\r' || c == ' '
  }

  ghost predicate AllSextets(vs: seq<int>) {
    forall i :: 0 <= i < |vs| ==> 0 <= vs[i] < 64
  }

  /**
   * The 6-bit groups of `b`, most significant bits first; a final group of one or two bytes
   * is filled with zero bits to a whole number of groups.
   */
  function Sextets(b: Bytes): (vs: seq<int>)
    ensures AllSextets(vs)
    ensures |vs| == 4 * (|b| / 3) + (if |b| % 3 == 0 then 0 else |b| % 3 + 1)
    decreases |b|
  {
    if |b| == 0 then []
    else if |b| == 1 then [b[0] / 4, (b[0] % 4) * 16]
    else if |b| == 2 then [b[0] / 4, (b[0] % 4) * 16 + b[1] / 16, (b[1] % 16) * 4]
    else [b[0] / 4, (b[0] % 4) * 16 + b[1] / 16, (b[1] % 16) * 4 + b[2] / 64, b[2] % 64]
         + Sextets(b[3..])
  }

  /** Each 6-bit value as its alphabet character. */
  function Chars(vs: seq<int>): (s: string)
    requires AllSextets(vs)
    ensures |s| == |vs|
    ensures forall i :: 0 <= i < |s| ==> s[i] == SextetChar(vs[i])
  {
    if vs == [] then [] else [SextetChar(vs[0])] + Chars(vs[1..])
  }

  /** The `=` characters that complete the last quantum to four characters. */
  function Padding(n: nat): string {
    if n % 3 == 1 then "==" else if n % 3 == 2 then "=" else ""
  }

  /** uint8ArrayToBase64 (btoa of the byte string). */
  function Encode(b: Bytes): (s: string)
    ensures |s| == 4 * ((|b| + 2) / 3)
  {
    Chars(Sextets(b)) + Padding(|b|)
  }

  function RemoveWhitespace(s: string): (t: string)
    ensures forall i :: 0 <= i < |t| ==> !IsAsciiWhitespace(t[i])
  {
    if s == [] then []
    else (if IsAsciiWhitespace(s[0]) then [] else [s[0]]) + RemoveWhitespace(s[1..])
  }

  /** Drops one or two trailing `=` from a string whose length is a multiple of four. */
  function StripPadding(t: string): (u: string)
    ensures |u| <= |t|
  {
    if |t| % 4 != 0 then t
    else if |t| >= 2 && t[|t| - 2] == '=' && t[|t| - 1] == '=' then t[..|t| - 2]
    else if |t| >= 1 && t[|t| - 1] == '=' then t[..|t| - 1]
    else t
  }

  /** The 6-bit value of every character, or `None` if one is not in the alphabet. */
  function Values(s: string): (r: Option<seq<int>>)
    ensures r.Some? ==> |r.value| == |s| && AllSextets(r.value)
    ensures r.None? <==> exists i :: 0 <= i < |s| && SextetValue(s[i]).None?
  {
    if s == [] then Some([])
    else match SextetValue(s[0])
      case None => None
      case Some(v) =>
        match Values(s[1..])
        case None => (assert forall i :: 0 < i < |s| ==> s[1..][i - 1] == s[i]; None)
        case Some(vs) => Some([v] + vs)
  }

  /**
   * Regroups 6-bit values into bytes, eight bits at a time, discarding the bits left over
   * after the last whole byte.
   */
  function Regroup(vs: seq<int>): (b: Bytes)
    requires AllSextets(vs) && |vs| % 4 != 1
    decreases |vs|
  {
    if |vs| == 0 then []
    else if |vs| == 2 then [vs[0] * 4 + vs[1] / 16]
    else if |vs| == 3 then [vs[0] * 4 + vs[1] / 16, (vs[1] % 16) * 16 + vs[2] / 4]
    else [vs[0] * 4 + vs[1] / 16, (vs[1] % 16) * 16 + vs[2] / 4, (vs[2] % 4) * 64 + vs[3]]
         + Regroup(vs[4..])
  }

  /** base64ToUint8Array (atob's forgiving-base64 decode). */
  function Decode(s: string): (r: Option<Bytes>)
    ensures r.None? <==>
      var u := StripPadding(RemoveWhitespace(s));
      |u| % 4 == 1 || exists i :: 0 <= i < |u| && SextetValue(u[i]).None?
  {
    var u := StripPadding(RemoveWhitespace(s));
    if |u| % 4 == 1 then None
    else match Values(u)
      case None => None
      case Some(vs) => Some(Regroup(vs))
  }

  // ----- the round trip -----

  lemma {:induction false} RemoveWhitespaceNoop(s: string)
    requires forall i :: 0 <= i < |s| ==> !IsAsciiWhitespace(s[i])
    ensures RemoveWhitespace(s) == s
  {
    if s != [] {
      RemoveWhitespaceNoop(s[1..]);
      assert s == [s[0]] + s[1..];
    }
  }

  lemma {:induction false} ValuesOfChars(vs: seq<int>)
    requires AllSextets(vs)
    ensures Values(Chars(vs)) == Some(vs)
  {
    if vs != [] {
      var s := Chars(vs);
      assert s[1..] == Chars(vs[1..]);
      ValuesOfChars(vs[1..]);
      assert vs == [vs[0]] + vs[1..];
    }
  }

  /** One whole quantum: three bytes survive the trip through four 6-bit values. */
  lemma QuantumRoundTrip(b0: Byte, b1: Byte, b2: Byte)
    ensures var v0, v1, v2, v3 := b0 / 4, (b0 % 4) * 16 + b1 / 16, (b1 % 16) * 4 + b2 / 64, b2 % 64;
      v0 * 4 + v1 / 16 == b0 && (v1 % 16) * 16 + v2 / 4 == b1 && (v2 % 4) * 64 + v3 == b2
  {
    var v1 := (b0 % 4) * 16 + b1 / 16;
    var v2 := (b1 % 16) * 4 + b2 / 64;
    assert v1 / 16 == b0 % 4 && v1 % 16 == b1 / 16;
    assert v2 / 4 == b1 % 16 && v2 % 4 == b2 / 64;
  }

  /** Regroup consumes one whole quantum of four values at a time. */
  lemma RegroupQuantum(v0: int, v1: int, v2: int, v3: int, rest: seq<int>)
    requires 0 <= v0 < 64 && 0 <= v1 < 64 && 0 <= v2 < 64 && 0 <= v3 < 64
    requires AllSextets(rest) && |rest| % 4 != 1
    ensures AllSextets([v0, v1, v2, v3] + rest) && |[v0, v1, v2, v3] + rest| % 4 != 1
    ensures Regroup([v0, v1, v2, v3] + rest)
         == [v0 * 4 + v1 / 16, (v1 % 16) * 16 + v2 / 4, (v2 % 4) * 64 + v3] + Regroup(rest)
  {
    var vs := [v0, v1, v2, v3] + rest;
    assert vs[4..] == rest;
  }

  lemma {:induction false} RegroupSextets(b: Bytes)
    ensures |Sextets(b)| % 4 != 1
    ensures Regroup(Sextets(b)) == b
    decreases |b|
  {
    if |b| >= 3 {
      RegroupSextets(b[3..]);
      RegroupStep(b);
    } else if |b| == 2 {
      RegroupPair(b[0], b[1]);
      assert b == [b[0], b[1]];
    } else if |b| == 1 {
      RegroupSingle(b[0]);
      assert b == [b[0]];
    }
  }

  /** A leading whole quantum goes back to its three bytes, in front of whatever the rest gives. */
  lemma RegroupStep(b: Bytes)
    requires |b| >= 3
    requires |Sextets(b[3..])| % 4 != 1 && Regroup(Sextets(b[3..])) == b[3..]
    ensures |Sextets(b)| % 4 != 1
    ensures Regroup(Sextets(b)) == b
  {
    var b0, b1, b2, rest := b[0], b[1], b[2], b[3..];
    QuantumRoundTrip(b0, b1, b2);
    var v0, v1, v2, v3 := b0 / 4, (b0 % 4) * 16 + b1 / 16, (b1 % 16) * 4 + b2 / 64, b2 % 64;
    assert Sextets(b) == [v0, v1, v2, v3] + Sextets(rest);
    RegroupQuantum(v0, v1, v2, v3, Sextets(rest));
    assert b == [b0, b1, b2] + rest;
  }

  /** A final quantum of two bytes: three values, no fourth. */
  lemma RegroupPair(b0: Byte, b1: Byte)
    ensures |Sextets([b0, b1])| % 4 != 1
    ensures Regroup(Sextets([b0, b1])) == [b0, b1]
  {
    QuantumRoundTrip(b0, b1, 0);
  }

  /** A final quantum of one byte: two values. */
  lemma RegroupSingle(b0: Byte)
    ensures |Sextets([b0])| % 4 != 1
    ensures Regroup(Sextets([b0])) == [b0]
  {
    QuantumRoundTrip(b0, 0, 0);
  }

  /** The padded encoding loses its padding, and nothing else, in the decoder's second step. */
  lemma StripPaddingAppend(c: string, pad: string)
    requires pad == "" || pad == "=" || pad == "=="
    requires (|c| + |pad|) % 4 == 0
    requires c != [] ==> c[|c| - 1] != '='
    requires pad == "=" ==> c != []
    ensures StripPadding(c + pad) == c
  {
    var s := c + pad;
    if pad == "" {
      assert s == c;
    } else if pad == "==" {
      assert s[..|s| - 2] == c;
    } else {
      assert s[|s| - 2] == c[|c| - 1];
      assert s[..|s| - 1] == c;
    }
  }

  lemma PaddedLength(n: nat)
    ensures (4 * (n / 3) + (if n % 3 == 0 then 0 else n % 3 + 1) + |Padding(n)|) % 4 == 0
  {
    var q := n / 3;
    if n % 3 == 0 {
      assert 4 * q + |Padding(n)| == 4 * q;
    } else {
      assert 4 * q + n % 3 + 1 + |Padding(n)| == 4 * (q + 1);
    }
  }

  lemma StripPaddingOfEncode(b: Bytes)
    ensures StripPadding(Encode(b)) == Chars(Sextets(b))
  {
    var vs := Sextets(b);
    var c := Chars(vs);
    if c != [] {
      assert c[|c| - 1] == SextetChar(vs[|vs| - 1]);
    }
    StripPaddingOfParts(c, |b|);
  }

  /** Encoded characters of the right length, followed by the padding for `n` bytes. */
  lemma StripPaddingOfParts(c: string, n: nat)
    requires |c| == 4 * (n / 3) + (if n % 3 == 0 then 0 else n % 3 + 1)
    requires c != [] ==> c[|c| - 1] != '='
    ensures StripPadding(c + Padding(n)) == c
  {
    PaddingShape(n);
    PaddedLength(n);
    StripPaddingAppend(c, Padding(n));
  }

  /** The padding is zero, one or two `=`; one `=` only after two leftover bytes. */
  lemma PaddingShape(n: nat)
    ensures Padding(n) == "" || Padding(n) == "=" || Padding(n) == "=="
    ensures Padding(n) == "=" ==> n % 3 == 2 && 4 * (n / 3) + n % 3 + 1 > 0
  {
  }

  /** base64ToUint8Array(uint8ArrayToBase64(b)) gives back b, for every byte sequence. */
  lemma {:induction false} DecodeEncode(b: Bytes)
    ensures Decode(Encode(b)) == Some(b)
  {
    var s := Encode(b);
    forall i | 0 <= i < |s| ensures !IsAsciiWhitespace(s[i]) {
      if i >= |Chars(Sextets(b))| {
        assert s[i] == '=';
      }
    }
    RemoveWhitespaceNoop(s);
    StripPaddingOfEncode(b);
    ValuesOfChars(Sextets(b));
    RegroupSextets(b);
  }

  /**
   * The shape of uint8ArrayToBase64's output: 4 * ceil(n / 3) characters, all from the
   * alphabet except for the `=` padding, which only fills the last quantum.
   */
  lemma EncodeShape(b: Bytes)
    ensures |Encode(b)| == 4 * ((|b| + 2) / 3)
    ensures forall i :: 0 <= i < |Encode(b)| ==>
      SextetValue(Encode(b)[i]).Some? || (Encode(b)[i] == '=' && i >= |Encode(b)| - 2)
    ensures |b| % 3 == 0 <==> (forall i :: 0 <= i < |Encode(b)| ==> Encode(b)[i] != '=')
  {
    var c := Chars(Sextets(b));
    var s := Encode(b);
    assert s == c + Padding(|b|);
    if |b| % 3 != 0 {
      assert s[|s| - 1] == '=';
    }
  }
}
