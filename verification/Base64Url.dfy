/** Base64url (section 5 of RFC 4648) with its padding stripped and restored. */
module Base64Url {
  import opened Wrappers
  import opened Domain

  type Sextet = v: int | 0 <= v < 64

  function Symbol(v: Sextet): (c: char)
    ensures c != '=' && c != '.'
  {
    if v < 26 then 'A' + v as char
    else if v < 52 then 'a' + (v - 26) as char
    else if v < 62 then '0' + (v - 52) as char
    else if v == 62 then '-' else '_'
  }

  function Value(c: char): Option<Sextet> {
    if 'A' <= c <= 'Z' then Some((c - 'A') as int)
    else if 'a' <= c <= 'z' then Some((c - 'a') as int + 26)
    else if '0' <= c <= '9' then Some((c - '0') as int + 52)
    else if c == '-' then Some(62)
    else if c == '_' then Some(63)
    else None
  }

  lemma SymbolValue(v: Sextet)
    ensures Value(Symbol(v)) == Some(v)
  {
  }

  // The four sextets of three bytes; a missing byte counts as zero.

  function First(b0: Byte): Sextet {
    b0 / 4
  }

  function Second(b0: Byte, b1: Byte): Sextet {
    b0 % 4 * 16 + b1 / 16
  }

  function Third(b1: Byte, b2: Byte): Sextet {
    b1 % 16 * 4 + b2 / 64
  }

  function Fourth(b2: Byte): Sextet {
    b2 % 64
  }

  function Encode(b: Bytes): string {
    if b == [] then ""
    else if |b| == 1 then [Symbol(First(b[0])), Symbol(Second(b[0], 0)), '=', '=']
    else if |b| == 2 then [Symbol(First(b[0])), Symbol(Second(b[0], b[1])), Symbol(Third(b[1], 0)), '=']
    else
      [Symbol(First(b[0])), Symbol(Second(b[0], b[1])), Symbol(Third(b[1], b[2])), Symbol(Fourth(b[2]))]
      + Encode(b[3..])
  }

  /** Groups of four symbols; only the last may be padded.  Any other character or shape is refused. */
  function Decode(s: string): Option<Bytes> {
    if s == "" then Some([])
    else if |s| < 4 || Value(s[0]).None? || Value(s[1]).None? then None
    else
      var v0, v1 := Value(s[0]).value, Value(s[1]).value;
      var b0 := v0 * 4 + v1 / 16;
      if s[2] == '=' then
        if s[2..] == "==" then Some([b0]) else None
      else if Value(s[2]).None? then None
      else
        var v2 := Value(s[2]).value;
        var b1 := v1 % 16 * 16 + v2 / 4;
        if s[3] == '=' then
          if |s| == 4 then Some([b0, b1]) else None
        else if Value(s[3]).None? then None
        else
          var rest := Decode(s[4..]);
          if rest.None? then None else Some([b0, b1, v2 % 4 * 64 + Value(s[3]).value] + rest.value)
  }

  function Pad(n: nat): string {
    seq(n, _ => '=')
  }

  function Strip(s: string): string {
    if s != "" && s[|s| - 1] == '=' then Strip(s[..|s| - 1]) else s
  }

  /** Python's `%` and this one agree for a positive modulus. */
  function Repad(s: string): string {
    s + Pad((-|s|) % 4)
  }

  /** The alphabet of the URL-safe variant (table 2 of RFC 4648): A to Z, a to z, 0 to 9, minus, underscore. */
  lemma SymbolRuns(v: Sextet)
    ensures Symbol(0) == 'A' && Symbol(25) == 'Z' && Symbol(26) == 'a' && Symbol(51) == 'z'
    ensures Symbol(52) == '0' && Symbol(61) == '9' && Symbol(62) == '-' && Symbol(63) == '_'
    ensures v < 61 && v !in {25, 51} ==> Symbol(v + 1) as int == Symbol(v) as int + 1
  {
  }

  /** The four sextets are the 24 bits of the three bytes, most significant first. */
  lemma GroupBits(b0: Byte, b1: Byte, b2: Byte)
    ensures ((First(b0) * 64 + Second(b0, b1)) * 64 + Third(b1, b2)) * 64 + Fourth(b2) == (b0 * 256 + b1) * 256 + b2
  {
    Reassemble(b0, b1, b2);
  }

  /** The i-th group of symbols spells the i-th three bytes; what is missing at the end counts as zero, and
      a symbol that would spell only missing bits is a pad. */
  lemma {:induction false} EncodeGroup(b: Bytes, i: nat)
    requires 3 * i < |b|
    ensures |Encode(b)| >= 4 * i + 4
    ensures var group, b0 := Encode(b)[4 * i..4 * i + 4], b[3 * i];
            var b1 := if 3 * i + 1 < |b| then b[3 * i + 1] else 0;
            var b2 := if 3 * i + 2 < |b| then b[3 * i + 2] else 0;
            && group[0] == Symbol(First(b0)) && group[1] == Symbol(Second(b0, b1))
            && group[2] == (if 3 * i + 1 < |b| then Symbol(Third(b1, b2)) else '=')
            && group[3] == (if 3 * i + 2 < |b| then Symbol(Fourth(b2)) else '=')
  {
    hide Symbol, First, Second, Third, Fourth;
    if i > 0 {
      EncodeGroup(b[3..], i - 1);
      assert Encode(b)[4..] == Encode(b[3..]);
    }
  }

  /** The sextets put the bytes back together. */
  lemma Reassemble(b0: Byte, b1: Byte, b2: Byte)
    ensures First(b0) * 4 + Second(b0, b1) / 16 == b0
    ensures Second(b0, b1) % 16 * 16 + Third(b1, b2) / 4 == b1
    ensures Third(b1, b2) % 4 * 64 + Fourth(b2) == b2
  {
  }

  lemma {:induction false} EncodeLength(b: Bytes)
    ensures |Encode(b)| % 4 == 0
  {
    hide First, Second, Third, Fourth;
    if |b| >= 3 {
      EncodeLength(b[3..]);
    }
  }

  lemma DecodeGroup(v0: Sextet, v1: Sextet, v2: Sextet, v3: Sextet, rest: string)
    requires v0 * 4 + v1 / 16 < 256
    ensures var tail := Decode(rest);
            Decode([Symbol(v0), Symbol(v1), Symbol(v2), Symbol(v3)] + rest) ==
            if tail.None? then None else Some([v0 * 4 + v1 / 16, v1 % 16 * 16 + v2 / 4, v2 % 4 * 64 + v3] + tail.value)
    ensures Decode([Symbol(v0), Symbol(v1), Symbol(v2), '=']) == Some([v0 * 4 + v1 / 16, v1 % 16 * 16 + v2 / 4])
    ensures Decode([Symbol(v0), Symbol(v1), '=', '=']) == Some([v0 * 4 + v1 / 16])
  {
    hide Symbol, Value;
    SymbolValue(v0);
    SymbolValue(v1);
    SymbolValue(v2);
    SymbolValue(v3);
    assert ([Symbol(v0), Symbol(v1), Symbol(v2), Symbol(v3)] + rest)[4..] == rest;
    assert [Symbol(v0), Symbol(v1), '=', '='][2..] == "==";
  }

  lemma {:induction false} DecodeEncode(b: Bytes)
    ensures Decode(Encode(b)) == Some(b)
  {
    hide Symbol, Value, First, Second, Third, Fourth;
    if |b| == 1 {
      Reassemble(b[0], 0, 0);
      DecodeGroup(First(b[0]), Second(b[0], 0), 0, 0, []);
      assert b == [b[0]];
    } else if |b| == 2 {
      Reassemble(b[0], b[1], 0);
      DecodeGroup(First(b[0]), Second(b[0], b[1]), Third(b[1], 0), 0, []);
      assert b == [b[0], b[1]];
    } else if |b| >= 3 {
      hide Decode;
      DecodeEncode(b[3..]);
      Reassemble(b[0], b[1], b[2]);
      DecodeGroup(First(b[0]), Second(b[0], b[1]), Third(b[1], b[2]), Fourth(b[2]), Encode(b[3..]));
      assert b == [b[0], b[1], b[2]] + b[3..];
    }
  }

  /** An encoding is some symbols, none of them '=' or '.', and then at most two '='. */
  lemma {:induction false} EncodeShape(b: Bytes) returns (symbols: string, k: nat)
    ensures k < 3 && Encode(b) == symbols + Pad(k)
    ensures '=' !in symbols && '.' !in symbols
  {
    hide First, Second, Third, Fourth;
    if |b| < 3 {
      k := if b == [] then 0 else 3 - |b|;
      symbols := Encode(b)[..|Encode(b)| - k];
    } else {
      var s, rest := Encode(b), Encode(b[3..]);
      symbols, k := EncodeShape(b[3..]);
      assert s == s[..4] + rest;
      symbols := s[..4] + symbols;
    }
  }

  lemma {:induction false} StripPad(s: string, k: nat)
    requires '=' !in s
    ensures Strip(s + Pad(k)) == s
  {
    if k == 0 {
      assert s + Pad(0) == s;
    } else {
      assert (s + Pad(k))[..|s| + k - 1] == s + Pad(k - 1);
      StripPad(s, k - 1);
    }
  }

  lemma NegativeRemainder(n: int, k: int)
    requires 0 <= n && 0 <= k < 4 && (n + k) % 4 == 0
    ensures (-n) % 4 == k
  {
  }

  /** Stripping the padding and restoring it from the length alone is the identity on encodings. */
  lemma RepadStrip(b: Bytes)
    ensures Repad(Strip(Encode(b))) == Encode(b) && '.' !in Strip(Encode(b)) && '=' !in Strip(Encode(b))
  {
    hide Encode;
    var symbols, k := EncodeShape(b);
    StripPad(symbols, k);
    EncodeLength(b);
    assert |Encode(b)| == |symbols| + k;
    NegativeRemainder(|symbols|, k);
  }

  /** The unpadded form round-trips for all byte strings. */
  lemma UnpaddedRoundTrip(b: Bytes)
    ensures Decode(Repad(Strip(Encode(b)))) == Some(b)
  {
    RepadStrip(b);
    DecodeEncode(b);
  }
}
