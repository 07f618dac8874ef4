/** Canonical encodings: decimal sequence numbers, UUID text, length-prefixed hash input. */
module Canon {
  import opened Domain

  function Bytes(s: Text): (b: seq<Byte>)
    ensures |b| == |s|
  {
    seq(|s|, i requires 0 <= i < |s| => s[i] as int)
  }

  lemma BytesInjective(s: Text, t: Text)
    requires Bytes(s) == Bytes(t)
    ensures s == t
  {
    forall i | 0 <= i < |s| ensures s[i] == t[i] {
      assert Bytes(s)[i] == Bytes(t)[i];
    }
  }

  // ----- decimal numbers -----

  function Digit(d: nat): char
    requires d < 10
  {
    '0' + d as char
  }

  /** strconv.FormatInt and Itoa for non-negative numbers. */
  function Decimal(n: nat): (s: Text)
    ensures |s| > 0
  {
    if n < 10 then [Digit(n)] else Decimal(n / 10) + [Digit(n % 10)]
  }

  predicate AllDigits(s: string) {
    forall i :: 0 <= i < |s| ==> '0' <= s[i] <= '9'
  }

  function Value(s: string): nat
    requires AllDigits(s)
  {
    if |s| == 0 then 0 else 10 * Value(s[..|s| - 1]) + (s[|s| - 1] - '0') as nat
  }

  /** The pattern (0|[1-9][0-9]*). */
  predicate IsCanonicalDecimal(s: string) {
    |s| > 0 && AllDigits(s) && (s[0] == '0' ==> |s| == 1)
  }

  const INT64_LIMIT: nat := 0x8000_0000_0000_0000

  function Seq(s: string): Option<nat> {
    if !IsCanonicalDecimal(s) then None
    else if Value(s) >= INT64_LIMIT then None
    else Some(Value(s))
  }

  lemma {:induction false} DecimalValue(n: nat)
    ensures IsCanonicalDecimal(Decimal(n)) && Value(Decimal(n)) == n
    ensures n > 0 ==> Decimal(n)[0] != '0'
  {
    if n >= 10 {
      DecimalValue(n / 10);
      var s := Decimal(n);
      assert s[..|s| - 1] == Decimal(n / 10);
    }
  }

  lemma TensAndOnes(tens: nat, ones: nat)
    requires ones < 10
    ensures (10 * tens + ones) / 10 == tens && (10 * tens + ones) % 10 == ones
  {
  }

  lemma DecimalAppend(tens: nat, ones: nat)
    requires tens > 0 && ones < 10
    ensures Decimal(10 * tens + ones) == Decimal(tens) + [Digit(ones)]
  {
    hide Digit;
    TensAndOnes(tens, ones);
  }

  lemma {:induction false} ValueDecimal(s: string)
    requires IsCanonicalDecimal(s)
    ensures Decimal(Value(s)) == s
    ensures s[0] != '0' ==> Value(s) > 0
    decreases |s|
  {
    var d := (s[|s| - 1] - '0') as nat;
    if |s| > 1 {
      var front := s[..|s| - 1];
      FrontIsCanonical(s);
      ValueDecimal(front);
      DecimalAppend(Value(front), d);
      assert s == front + [Digit(d)];
    } else {
      assert Value(s[..0]) == 0;
      assert s == [Digit(d)];
    }
  }

  lemma FrontIsCanonical(s: string)
    requires IsCanonicalDecimal(s) && |s| > 1
    ensures IsCanonicalDecimal(s[..|s| - 1]) && s[0] != '0' && s[..|s| - 1][0] == s[0]
  {
  }

  /** FormatSeq and Seq are inverse: exactly the 63-bit numbers survive, and only their canonical text is read. */
  lemma SeqRoundTrip(n: nat, s: string)
    ensures Seq(Decimal(n)) == if n <= 9_223_372_036_854_775_807 then Some(n) else None
    ensures Seq(s) == Some(n) <==> s == Decimal(n) && n <= 9_223_372_036_854_775_807
  {
    DecimalValue(n);
    if Seq(s) == Some(n) {
      ValueDecimal(s);
    }
  }

  function Itoa(n: int): (s: Text) {
    if n < 0 then "-" + Decimal(-n) else Decimal(n)
  }

  lemma ItoaInjective(m: int, n: int)
    requires Itoa(m) == Itoa(n)
    ensures m == n
  {
    DecimalValue(if m < 0 then -m else m);
    DecimalValue(if n < 0 then -n else n);
    if m < 0 && n < 0 {
      assert Itoa(m)[1..] == Decimal(-m) && Itoa(n)[1..] == Decimal(-n);
    }
  }

  // ----- UUID text -----

  function HexDigit(d: nat): char
    requires d < 16
  {
    if d < 10 then '0' + d as char else 'a' + (d - 10) as char
  }

  function HexValue(c: char): nat {
    if '0' <= c <= '9' then (c - '0') as nat else if 'a' <= c <= 'f' then (c - 'a') as nat + 10 else 0
  }

  function Hex(n: nat, width: nat): (s: Text)
    ensures |s| == width
  {
    if width == 0 then [] else Hex(n / 16, width - 1) + [HexDigit(n % 16)]
  }

  function Unhex(s: string): nat {
    if |s| == 0 then 0 else 16 * Unhex(s[..|s| - 1]) + HexValue(s[|s| - 1])
  }

  function Pow16(k: nat): nat {
    if k == 0 then 1 else 16 * Pow16(k - 1)
  }

  lemma HexDigitValue(d: nat)
    requires d < 16
    ensures HexValue(HexDigit(d)) == d
  {
  }

  lemma {:induction false} UnhexHex(n: nat, width: nat)
    requires n < Pow16(width)
    ensures Unhex(Hex(n, width)) == n
  {
    hide HexDigit, HexValue;
    if width > 0 {
      var high, low := n / 16, n % 16;
      assert n == 16 * high + low;
      UnhexHex(high, width - 1);
      HexDigitValue(low);
      var s := Hex(n, width);
      assert s[..|s| - 1] == Hex(high, width - 1);
    }
  }

  function UuidText(u: Uuid): (s: Text)
    ensures |s| == 36
  {
    var h := Hex(u, 32);
    h[..8] + "-" + h[8..12] + "-" + h[12..16] + "-" + h[16..20] + "-" + h[20..]
  }

  function Undash(t: string): string
    requires |t| == 36
  {
    t[..8] + t[9..13] + t[14..18] + t[19..23] + t[24..]
  }

  lemma Pow16Of32()
    ensures Pow16(32) == UUID_SPACE
  {
    assert Pow16(4) == 0x1_0000;
    assert Pow16(8) == 0x1_0000_0000;
    assert Pow16(12) == 0x1_0000_0000_0000;
    assert Pow16(16) == 0x1_0000_0000_0000_0000;
    assert Pow16(20) == 0x1_0000_0000_0000_0000_0000;
    assert Pow16(24) == 0x1_0000_0000_0000_0000_0000_0000;
    assert Pow16(28) == 0x1_0000_0000_0000_0000_0000_0000_0000;
  }

  lemma UuidTextInjective(u: Uuid, v: Uuid)
    requires UuidText(u) == UuidText(v)
    ensures u == v
  {
    Pow16Of32();
    UnhexHex(u, 32);
    UnhexHex(v, 32);
    UndashText(u);
    UndashText(v);
  }

  lemma UndashText(u: Uuid)
    ensures Undash(UuidText(u)) == Hex(u, 32)
  {
    var h, t := Hex(u, 32), UuidText(u);
    assert t[..8] == h[..8] && t[9..13] == h[8..12] && t[14..18] == h[12..16];
    assert t[19..23] == h[16..20] && t[24..] == h[20..];
    assert h == h[..8] + h[8..12] + h[12..16] + h[16..20] + h[20..];
  }

  // ----- length-prefixed fields -----

  const UINT32: nat := 0x1_0000_0000

  function High(m: nat): nat {
    m / 256
  }

  function Low(m: nat): Byte {
    m % 256
  }

  /** binary.BigEndian.PutUint32 of uint32(n): longer lengths wrap. */
  function U32(n: nat): (b: seq<Byte>)
    ensures |b| == 4
  {
    FourBytes(n % UINT32)
  }

  function FourBytes(m: nat): (b: seq<Byte>)
    ensures |b| == 4
  {
    [Low(High(High(High(m)))), Low(High(High(m))), Low(High(m)), Low(m)]
  }

  function Prefixed(field: seq<Byte>): seq<Byte> {
    U32(|field|) + field
  }

  /** The buffer HashFields feeds to SHA-256. */
  function Frame(fields: seq<seq<Byte>>): seq<Byte> {
    if |fields| == 0 then [] else Prefixed(fields[0]) + Frame(fields[1..])
  }

  method AppendLenPrefixed(dst: seq<Byte>, field: seq<Byte>) returns (buf: seq<Byte>)
    ensures buf == dst + Prefixed(field)
  {
    hide U32;
    buf := dst + U32(|field|);
    buf := buf + field;
  }

  lemma FrameStep(fields: seq<seq<Byte>>, i: nat)
    requires i < |fields|
    ensures Frame(fields[i..]) == Prefixed(fields[i]) + Frame(fields[i + 1..])
  {
    assert fields[i..][0] == fields[i] && fields[i..][1..] == fields[i + 1..];
  }

  method HashFields(fields: seq<seq<Byte>>) returns (digest: Digest)
    ensures digest == Frame(fields)
  {
    var buf: seq<Byte> := [];
    for i := 0 to |fields|
      invariant buf + Frame(fields[i..]) == Frame(fields)
    {
      hide Prefixed, Frame;
      FrameStep(fields, i);
      ghost var rest := Frame(fields[i + 1..]);
      assert (buf + Prefixed(fields[i])) + rest == buf + (Prefixed(fields[i]) + rest);
      buf := AppendLenPrefixed(buf, fields[i]);
    }
    return buf;
  }

  predicate Sized(fields: seq<seq<Byte>>) {
    forall i :: 0 <= i < |fields| ==> |fields[i]| < UINT32
  }

  function BigEndian(b: seq<Byte>): nat
    requires |b| == 4
  {
    var b0: nat, b1: nat, b2: nat, b3: nat := b[0], b[1], b[2], b[3];
    ((b0 * 256 + b1) * 256 + b2) * 256 + b3
  }

  lemma HighLow(m: nat)
    ensures m == High(m) * 256 + Low(m)
  {
  }

  lemma HighBound(m: nat, k: nat)
    requires m < 256 * k
    ensures High(m) < k
  {
  }

  lemma LowOfByte(m: nat)
    requires m < 256
    ensures Low(m) == m
  {
  }

  lemma NoWrap(n: nat)
    requires n < UINT32
    ensures U32(n) == FourBytes(n)
  {
    hide FourBytes, High, Low;
    assert n % UINT32 == n;
  }

  lemma U32Value(n: nat)
    requires n < UINT32
    ensures BigEndian(U32(n)) == n
  {
    hide High, Low, U32;
    NoWrap(n);
    HighLow(n);
    HighLow(High(n));
    HighLow(High(High(n)));
    HighBound(n, 0x100_0000);
    HighBound(High(n), 0x1_0000);
    HighBound(High(High(n)), 256);
    LowOfByte(High(High(High(n))));
  }

  /** The buffer determines the field list, whatever its length. */
  lemma {:induction false} FrameInjective(f: seq<seq<Byte>>, g: seq<seq<Byte>>)
    requires Sized(f) && Sized(g) && Frame(f) == Frame(g)
    ensures f == g
  {
    if |f| > 0 && |g| > 0 {
      var b := Frame(f);
      assert b[..4] == U32(|f[0]|) == U32(|g[0]|);
      U32Value(|f[0]|);
      U32Value(|g[0]|);
      var n := 4 + |f[0]|;
      assert b[4..n] == f[0] == g[0];
      assert b[n..] == Frame(f[1..]) == Frame(g[1..]);
      FrameInjective(f[1..], g[1..]);
      assert f == [f[0]] + f[1..] && g == [g[0]] + g[1..];
    }
  }

  function Zeros(n: nat): seq<Byte> {
    seq(n, i => 0)
  }

  function Empties(k: nat): (fields: seq<seq<Byte>>)
    ensures |fields| == k && forall i :: 0 <= i < k ==> fields[i] == []
  {
    seq(k, i => [])
  }

  lemma {:induction false} FrameOfEmpties(k: nat)
    ensures Frame(Empties(k)) == Zeros(4 * k)
  {
    if k > 0 {
      FrameOfEmpties(k - 1);
      assert Empties(k)[1..] == Empties(k - 1);
      assert Prefixed([]) == Zeros(4);
      assert Frame(Empties(k)) == Prefixed([]) + Frame(Empties(k - 1));
      assert Zeros(4) + Zeros(4 * (k - 1)) == Zeros(4 * k);
    }
  }

  /** At 2^32 bytes the prefix wraps to zero and the encoding stops being injective. */
  lemma OversizedFieldsCollide()
    ensures exists f, g :: f != g && Frame(f) == Frame(g)
  {
    var f: seq<seq<Byte>> := [Zeros(UINT32)];
    var g := Empties(UINT32 / 4 + 1);
    FrameOfEmpties(UINT32 / 4 + 1);
    assert Frame(f) == Prefixed(f[0]) + Frame([]) == Prefixed(f[0]);
    assert U32(UINT32) == Zeros(4);
    assert Zeros(4) + Zeros(UINT32) == Zeros(4 + UINT32);
    assert |f| != |g| && Frame(f) == Frame(g);
  }

  // ----- request hashes -----

  function CreateFields(env: Envelope): seq<seq<Byte>> {
    [Bytes(UuidText(env.id)), Bytes(UuidText(env.vaultId)), Bytes(UuidText(env.sourceDeviceId)),
     Bytes(Itoa(env.formatVersion)), Bytes(Itoa(env.keyEpoch)), Bytes(env.contentType),
     env.nonce, env.ciphertext, Bytes(env.deliveryIntent)]
  }

  function CreateRequestHash(env: Envelope): Digest {
    Frame(CreateFields(env))
  }

  function KindName(kind: MutationKind): Text {
    match kind
    case TrashOp => "trash"
    case RestoreOp => "restore"
    case PurgeOp => "purge"
  }

  function OperationFields(kind: MutationKind, id: Uuid, expected: int): seq<seq<Byte>> {
    [Bytes(KindName(kind)), Bytes(UuidText(id)), Bytes(Itoa(expected))]
  }

  function OperationRequestHash(kind: MutationKind, id: Uuid, expected: int): Digest {
    Frame(OperationFields(kind, id, expected))
  }

  /** Two creates hash alike only when they are the same request. */
  lemma CreateHashInjective(e: Envelope, f: Envelope)
    requires Sized(CreateFields(e)) && Sized(CreateFields(f))
    ensures CreateRequestHash(e) == CreateRequestHash(f) <==> e == f
  {
    if CreateRequestHash(e) == CreateRequestHash(f) {
      FrameInjective(CreateFields(e), CreateFields(f));
      FieldsDetermineEnvelope(e, f);
    }
  }

  lemma FieldsDetermineEnvelope(e: Envelope, f: Envelope)
    requires CreateFields(e) == CreateFields(f)
    ensures e == f
  {
    var x, y := CreateFields(e), CreateFields(f);
    assert forall i :: 0 <= i < 9 ==> x[i] == y[i];
    assert x[0] == Bytes(UuidText(e.id)) && y[0] == Bytes(UuidText(f.id));
    BytesInjective(UuidText(e.id), UuidText(f.id));
    UuidTextInjective(e.id, f.id);
    BytesInjective(UuidText(e.vaultId), UuidText(f.vaultId));
    UuidTextInjective(e.vaultId, f.vaultId);
    BytesInjective(UuidText(e.sourceDeviceId), UuidText(f.sourceDeviceId));
    UuidTextInjective(e.sourceDeviceId, f.sourceDeviceId);
    BytesInjective(Itoa(e.formatVersion), Itoa(f.formatVersion));
    ItoaInjective(e.formatVersion, f.formatVersion);
    BytesInjective(Itoa(e.keyEpoch), Itoa(f.keyEpoch));
    ItoaInjective(e.keyEpoch, f.keyEpoch);
    BytesInjective(e.contentType, f.contentType);
    BytesInjective(e.deliveryIntent, f.deliveryIntent);
  }

  /** Two mutations hash alike only when kind, clip and expected version agree. */
  lemma OperationHashInjective(k: MutationKind, x: Uuid, m: int, l: MutationKind, y: Uuid, n: int)
    requires Sized(OperationFields(k, x, m)) && Sized(OperationFields(l, y, n))
    requires OperationRequestHash(k, x, m) == OperationRequestHash(l, y, n)
    ensures k == l && x == y && m == n
  {
    var f, g := OperationFields(k, x, m), OperationFields(l, y, n);
    FrameInjective(f, g);
    assert f[0] == g[0] && f[1] == g[1] && f[2] == g[2];
    BytesInjective(KindName(k), KindName(l));
    assert |KindName(k)| == |KindName(l)|;
    BytesInjective(UuidText(x), UuidText(y));
    UuidTextInjective(x, y);
    BytesInjective(Itoa(m), Itoa(n));
    ItoaInjective(m, n);
  }

  /** No request of one kind can be mistaken for one of the other. */
  lemma HashKindsDisjoint(e: Envelope, k: MutationKind, x: Uuid, n: int)
    requires Sized(CreateFields(e)) && Sized(OperationFields(k, x, n))
    ensures CreateRequestHash(e) != OperationRequestHash(k, x, n)
  {
    if CreateRequestHash(e) == OperationRequestHash(k, x, n) {
      FrameInjective(CreateFields(e), OperationFields(k, x, n));
      assert false;
    }
  }
}
