/** Unpadded base64url (section 5 of RFC 4648), read only in its canonical form (section 3.5). */
module Base64 {
  import opened Domain

  type Sextet = n: nat | n < 64

  function Symbol(v: Sextet): char {
    if v < 26 then 'A' + v as char
    else if v < 52 then 'a' + (v - 26) as char
    else if v < 62 then '0' + (v - 52) as char
    else if v == 62 then '-' else '_'
  }

  predicate IsSymbol(c: char) {
    'A' <= c <= 'Z' || 'a' <= c <= 'z' || '0' <= c <= '9' || c == '-' || c == '_'
  }

  function ValueOf(c: char): Sextet
    requires IsSymbol(c)
  {
    if 'A' <= c <= 'Z' then (c - 'A') as int
    else if 'a' <= c <= 'z' then (c - 'a') as int + 26
    else if '0' <= c <= '9' then (c - '0') as int + 52
    else if c == '-' then 62 else 63
  }

  // Three bytes are four sextets; a missing byte counts as zero.
  function Sextet0(b0: Byte): Sextet { b0 / 4 }
  function Sextet1(b0: Byte, b1: Byte): Sextet { b0 % 4 * 16 + b1 / 16 }
  function Sextet2(b1: Byte, b2: Byte): Sextet { b1 % 16 * 4 + b2 / 64 }
  function Sextet3(b2: Byte): Sextet { b2 % 64 }

  function Byte0(v0: Sextet, v1: Sextet): Byte { v0 * 4 + v1 / 16 }
  function Byte1(v1: Sextet, v2: Sextet): Byte { v1 % 16 * 16 + v2 / 4 }
  function Byte2(v2: Sextet, v3: Sextet): Byte { v2 % 4 * 64 + v3 }

  function Encode(raw: seq<Byte>): string {
    if |raw| == 0 then []
    else if |raw| == 1 then [Symbol(Sextet0(raw[0])), Symbol(Sextet1(raw[0], 0))]
    else if |raw| == 2 then [Symbol(Sextet0(raw[0])), Symbol(Sextet1(raw[0], raw[1])), Symbol(Sextet2(raw[1], 0))]
    else EncodeGroup(raw[0], raw[1], raw[2]) + Encode(raw[3..])
  }

  function EncodeGroup(b0: Byte, b1: Byte, b2: Byte): string {
    [Symbol(Sextet0(b0)), Symbol(Sextet1(b0, b1)), Symbol(Sextet2(b1, b2)), Symbol(Sextet3(b2))]
  }

  // ----- the library decoder -----

  /** It skips line breaks wherever they stand. */
  function Unbroken(s: string): string {
    if |s| == 0 then []
    else if s[0] == '\r' || s[0] == '\n' then Unbroken(s[1..])
    else [s[0]] + Unbroken(s[1..])
  }

  predicate AllSymbols(s: string) {
    forall i :: 0 <= i < |s| ==> IsSymbol(s[i])
  }

  /** Groups of four symbols; a last group of two or three gives one or two bytes, its spare bits dropped. */
  function Unpack(s: string): Option<seq<Byte>>
    requires AllSymbols(s)
  {
    if |s| == 0 then Some([])
    else if |s| == 1 then None
    else if |s| == 2 then Some([Byte0(ValueOf(s[0]), ValueOf(s[1]))])
    else if |s| == 3 then Some([Byte0(ValueOf(s[0]), ValueOf(s[1])), Byte1(ValueOf(s[1]), ValueOf(s[2]))])
    else
      var rest := Unpack(s[4..]);
      if rest.None? then None
      else Some(DecodeGroup(ValueOf(s[0]), ValueOf(s[1]), ValueOf(s[2]), ValueOf(s[3])) + rest.value)
  }

  function DecodeGroup(v0: Sextet, v1: Sextet, v2: Sextet, v3: Sextet): seq<Byte> {
    [Byte0(v0, v1), Byte1(v1, v2), Byte2(v2, v3)]
  }

  function DecodeString(s: string): Option<seq<Byte>> {
    if AllSymbols(Unbroken(s)) then Unpack(Unbroken(s)) else None
  }

  // ----- round trips -----

  lemma SymbolValue(v: Sextet, c: char)
    ensures IsSymbol(Symbol(v)) && ValueOf(Symbol(v)) == v
    ensures IsSymbol(c) ==> Symbol(ValueOf(c)) == c
  {
  }

  lemma {:induction false} EncodedSymbols(raw: seq<Byte>)
    ensures AllSymbols(Encode(raw))
    ensures |Encode(raw)| == (4 * |raw| + 2) / 3
  {
    if |raw| >= 3 {
      EncodedSymbols(raw[3..]);
    }
  }

  lemma {:induction false} SymbolsUnbroken(s: string)
    requires AllSymbols(s)
    ensures Unbroken(s) == s
  {
    if |s| > 0 {
      SymbolsUnbroken(s[1..]);
    }
  }

  /** The decoder alone is many-to-one: spare bits and line breaks go unnoticed. */
  lemma DecodeStringIsLax(s: string, t: string, u: string)
    requires |s| == 2 && s[0] == 'A' && s[1] == 'A'
    requires |t| == 2 && t[0] == 'A' && t[1] == 'B'
    requires |u| == 3 && u[0] == 'A' && u[1] == '\n' && u[2] == 'A'
    ensures DecodeString(s) == DecodeString(t) == DecodeString(u) == Some([0])
  {
    hide Unpack, ValueOf, Byte0;
    FirstByteOfAs();
    OneByte(s);
    OneByte(t);
    var rest := u[1..];
    var last := rest[1..];
    SymbolsUnbroken(last);
    assert Unbroken(u) == [u[0]] + Unbroken(rest) && Unbroken(rest) == last;
    assert [u[0]] + last == s;
  }

  lemma FirstByteOfAs()
    ensures Byte0(ValueOf('A'), ValueOf('A')) == Byte0(ValueOf('A'), ValueOf('B')) == 0
  {
  }

  lemma OneByte(s: string)
    requires |s| == 2 && AllSymbols(s)
    ensures Unbroken(s) == s && DecodeString(s) == Some([Byte0(ValueOf(s[0]), ValueOf(s[1]))])
  {
    hide ValueOf, Byte0;
    SymbolsUnbroken(s);
  }

  lemma Split4(high: nat, low: nat)
    requires low < 4
    ensures (high * 4 + low) / 4 == high && (high * 4 + low) % 4 == low
  {
  }

  lemma Split16(high: nat, low: nat)
    requires low < 16
    ensures (high * 16 + low) / 16 == high && (high * 16 + low) % 16 == low
  {
  }

  lemma Split64(high: nat, low: nat)
    requires low < 64
    ensures (high * 64 + low) / 64 == high && (high * 64 + low) % 64 == low
  {
  }

  lemma ByteBounds(b: Byte)
    ensures 0 <= b / 4 < 64 && 0 <= b / 16 < 16 && 0 <= b / 64 < 4
    ensures b == b / 4 * 4 + b % 4 && b == b / 16 * 16 + b % 16 && b == b / 64 * 64 + b % 64
  {
  }

  lemma BytesReturn(b0: Byte, b1: Byte, b2: Byte)
    ensures Byte0(Sextet0(b0), Sextet1(b0, b1)) == b0
    ensures Byte1(Sextet1(b0, b1), Sextet2(b1, b2)) == b1
    ensures Byte2(Sextet2(b1, b2), Sextet3(b2)) == b2
  {
    ByteBounds(b0);
    ByteBounds(b1);
    ByteBounds(b2);
    Split16(b0 % 4, b1 / 16);
    Split4(b1 % 16, b2 / 64);
  }

  lemma OneByteUnpacks(b0: Byte, s: string)
    requires |s| == 2 && s[0] == Symbol(Sextet0(b0)) && s[1] == Symbol(Sextet1(b0, 0)) && AllSymbols(s)
    ensures Unpack(s) == Some([b0])
  {
    SymbolValue(Sextet0(b0), '-');
    SymbolValue(Sextet1(b0, 0), '-');
  }

  lemma TwoBytesUnpack(b0: Byte, b1: Byte, s: string)
    requires |s| == 3 && s[0] == Symbol(Sextet0(b0)) && s[1] == Symbol(Sextet1(b0, b1))
    requires s[2] == Symbol(Sextet2(b1, 0))
    requires AllSymbols(s)
    ensures Unpack(s) == Some([b0, b1])
  {
    hide Symbol, ValueOf, IsSymbol, Sextet0, Sextet1, Sextet2, Byte0, Byte1, Byte2;
    SymbolValue(Sextet0(b0), '-');
    SymbolValue(Sextet1(b0, b1), '-');
    SymbolValue(Sextet2(b1, 0), '-');
    BytesReturn(b0, b1, 0);
  }

  lemma {:induction false} UnpackEncode(raw: seq<Byte>)
    ensures AllSymbols(Encode(raw)) && Unpack(Encode(raw)) == Some(raw)
  {
    hide Symbol, ValueOf, Sextet0, Sextet1, Sextet2, Sextet3, Byte0, Byte1, Byte2;
    EncodedSymbols(raw);
    if |raw| > 0 {
      var b0, b1, b2 := raw[0], if |raw| > 1 then raw[1] else 0, if |raw| > 2 then raw[2] else 0;
      SymbolValue(Sextet0(b0), '-');
      SymbolValue(Sextet1(b0, b1), '-');
      SymbolValue(Sextet2(b1, b2), '-');
      SymbolValue(Sextet3(b2), '-');
      BytesReturn(b0, b1, b2);
      if |raw| >= 3 {
        UnpackEncode(raw[3..]);
        assert Encode(raw)[4..] == Encode(raw[3..]);
        assert raw == [b0, b1, b2] + raw[3..];
      } else if |raw| == 1 {
        OneByteUnpacks(b0, Encode(raw));
        assert raw == [b0];
      } else {
        TwoBytesUnpack(b0, b1, Encode(raw));
        assert raw == [b0, b1];
      }
    }
  }

  // ----- the two canonical decoders -----

  /** clipcrypto.Decode: decode, encode again, compare. */
  function DecodeCanonical(s: string): Option<seq<Byte>> {
    var raw := DecodeString(s);
    if raw.Some? && Encode(raw.value) == s then raw else None
  }

  /** canon.Decode: the same behind a pattern that wants at least one symbol, with a length to meet. */
  function Decode(s: string, expectedLen: int): Option<seq<Byte>> {
    if |s| == 0 || !AllSymbols(s) then None
    else
      var raw := DecodeString(s);
      if raw.None? || Encode(raw.value) != s then None
      else if expectedLen >= 0 && |raw.value| != expectedLen then None
      else raw
  }

  lemma DecodeEncode(raw: seq<Byte>)
    ensures DecodeString(Encode(raw)) == Some(raw)
  {
    UnpackEncode(raw);
    SymbolsUnbroken(Encode(raw));
  }

  /** Both directions at once: a text is read as `raw` exactly when it is what Encode writes for `raw`. */
  lemma DecodeCanonicalIff(s: string, raw: seq<Byte>)
    ensures DecodeCanonical(s) == Some(raw) <==> s == Encode(raw)
  {
    DecodeEncode(raw);
  }

  lemma DecodeIff(s: string, expectedLen: int, raw: seq<Byte>)
    ensures Decode(s, expectedLen) == Some(raw)
      <==> s == Encode(raw) && raw != [] && (expectedLen >= 0 ==> |raw| == expectedLen)
  {
    DecodeEncode(raw);
    EncodedSymbols(raw);
  }

  lemma EncodeInjective(x: seq<Byte>, y: seq<Byte>)
    requires Encode(x) == Encode(y)
    ensures x == y
  {
    DecodeEncode(x);
    DecodeEncode(y);
  }

  const TOKEN_BYTES := 32

  predicate IsToken(s: string) {
    |s| == 43 && Decode(s, TOKEN_BYTES).Some?
  }

  /** The check on bearer tokens admits what 32 random bytes can look like, and nothing else. */
  lemma TokenIff(s: string)
    ensures IsToken(s) <==> exists raw: seq<Byte> :: |raw| == TOKEN_BYTES && s == Encode(raw)
  {
    if IsToken(s) {
      DecodeIff(s, TOKEN_BYTES, Decode(s, TOKEN_BYTES).value);
    }
    if raw: seq<Byte> :| |raw| == TOKEN_BYTES && s == Encode(raw) {
      DecodeIff(s, TOKEN_BYTES, raw);
      EncodedSymbols(raw);
    }
  }

  // ----- what canonical means on the text itself -----

  /** Section 3.5 of RFC 4648: the bits that fill up the last symbol are zero. */
  predicate PadBitsZero(s: string)
    requires AllSymbols(s)
  {
    && |s| % 4 != 1
    && (|s| % 4 == 2 ==> ValueOf(s[|s| - 1]) % 16 == 0)
    && (|s| % 4 == 3 ==> ValueOf(s[|s| - 1]) % 4 == 0)
  }

  lemma SextetsReturn(v0: Sextet, v1: Sextet, v2: Sextet, v3: Sextet)
    ensures var b0, b1, b2 := Byte0(v0, v1), Byte1(v1, v2), Byte2(v2, v3);
      && Sextet0(b0) == v0 && Sextet1(b0, b1) == v1 && Sextet2(b1, b2) == v2 && Sextet3(b2) == v3
      && Sextet1(b0, 0) == v1 - v1 % 16 && Sextet2(b1, 0) == v2 - v2 % 4
  {
    Split4(v0, v1 / 16);
    Split16(v1 % 16, v2 / 4);
    Split64(v2 % 4, v3);
  }

  lemma GroupReturns(s: string)
    requires |s| >= 4 && AllSymbols(s) && Unpack(s[4..]).Some?
    ensures Unpack(s).Some? && Encode(Unpack(s).value) == s[..4] + Encode(Unpack(s[4..]).value)
  {
    hide Symbol, ValueOf, Sextet0, Sextet1, Sextet2, Sextet3, Byte0, Byte1, Byte2, IsSymbol;
    var v0, v1, v2, v3 := ValueOf(s[0]), ValueOf(s[1]), ValueOf(s[2]), ValueOf(s[3]);
    SextetsReturn(v0, v1, v2, v3);
    forall i | 0 <= i < 4 ensures Symbol(ValueOf(s[i])) == s[i] {
      SymbolValue(0, s[i]);
    }
    var raw := Unpack(s).value;
    assert raw[0] == Byte0(v0, v1) && raw[1] == Byte1(v1, v2) && raw[2] == Byte2(v2, v3);
    assert raw[3..] == Unpack(s[4..]).value;
    assert EncodeGroup(raw[0], raw[1], raw[2]) == s[..4];
  }

  lemma TwoSymbolsReturn(s: string)
    requires |s| == 2 && AllSymbols(s)
    ensures Unpack(s).Some? && (Encode(Unpack(s).value) == s <==> ValueOf(s[1]) % 16 == 0)
  {
    hide Symbol, ValueOf, Sextet0, Sextet1, Sextet2, Sextet3, Byte0, Byte1, Byte2, IsSymbol;
    var v0, v1 := ValueOf(s[0]), ValueOf(s[1]);
    SextetsReturn(v0, v1, 0, 0);
    SymbolValue(0, s[0]);
    SymbolValue(v1 - v1 % 16, s[1]);
    assert Encode(Unpack(s).value) == [s[0], Symbol(v1 - v1 % 16)];
    assert s == [s[0], s[1]];
  }

  lemma ThreeSymbolsReturn(s: string)
    requires |s| == 3 && AllSymbols(s)
    ensures Unpack(s).Some? && (Encode(Unpack(s).value) == s <==> ValueOf(s[2]) % 4 == 0)
  {
    hide Symbol, ValueOf, Sextet0, Sextet1, Sextet2, Sextet3, Byte0, Byte1, Byte2, IsSymbol;
    var v0, v1, v2 := ValueOf(s[0]), ValueOf(s[1]), ValueOf(s[2]);
    SextetsReturn(v0, v1, v2, 0);
    SymbolValue(0, s[0]);
    SymbolValue(0, s[1]);
    SymbolValue(v2 - v2 % 4, s[2]);
    assert Encode(Unpack(s).value) == [s[0], s[1], Symbol(v2 - v2 % 4)];
    assert s == [s[0], s[1], s[2]];
  }

  lemma TailReturns(s: string)
    requires |s| < 4 && AllSymbols(s)
    ensures Unpack(s).Some? <==> |s| % 4 != 1
    ensures Unpack(s).Some? ==> (Encode(Unpack(s).value) == s <==> PadBitsZero(s))
  {
    hide ValueOf, IsSymbol;
    if |s| == 3 {
      ThreeSymbolsReturn(s);
    } else if |s| == 2 {
      TwoSymbolsReturn(s);
    } else if |s| == 0 {
      EncodeNothing();
    }
  }

  lemma PadBitsOfRest(s: string)
    requires |s| >= 4 && AllSymbols(s)
    ensures PadBitsZero(s) <==> PadBitsZero(s[4..])
  {
    var rest := s[4..];
    assert |rest| == |s| - 4 && |rest| % 4 == |s| % 4;
    assert |rest| > 0 ==> rest[|rest| - 1] == s[|s| - 1];
  }

  lemma {:induction false} EncodeUnpack(s: string)
    requires AllSymbols(s)
    ensures Unpack(s).Some? <==> |s| % 4 != 1
    ensures Unpack(s).Some? ==> (Encode(Unpack(s).value) == s <==> PadBitsZero(s))
  {
    hide Encode, ValueOf, IsSymbol, PadBitsZero, Byte0, Byte1, Byte2;
    if |s| >= 4 {
      var rest := s[4..];
      EncodeUnpack(rest);
      PadBitsOfRest(s);
      assert |rest| % 4 == |s| % 4;
      if Unpack(rest).Some? {
        GroupReturns(s);
        SameTail(s[..4], Encode(Unpack(rest).value), rest);
        assert s == s[..4] + rest;
      }
    } else {
      TailReturns(s);
    }
  }

  lemma SameTail(front: string, x: string, y: string)
    ensures front + x == front + y <==> x == y
  {
    if front + x == front + y {
      assert (front + x)[|front|..] == x && (front + y)[|front|..] == y;
    }
  }

  lemma EncodeNothing()
    ensures Encode([]) == []
  {
  }

  /**
   * The re-encoding check accepts exactly the non-empty symbol texts of a possible length whose spare bits are
   * zero.
   */
  lemma AcceptedIffCanonical(s: string)
    ensures Decode(s, -1).Some? <==> |s| > 0 && AllSymbols(s) && PadBitsZero(s)
  {
    if AllSymbols(s) {
      SymbolsUnbroken(s);
      EncodeUnpack(s);
    }
  }
}
