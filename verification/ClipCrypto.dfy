/** The context strings that bind ciphertexts to their place, and the recovery code. */
module ClipCrypto {
  import opened Domain
  import opened Base64
  import Canon

  // ----- context strings -----

  /** Where a ciphertext or a derived key belongs. */
  datatype Context =
    | VaultWrap(userId: string, vaultId: string)
    | PasswordWrap(userId: string, vaultId: string)
    | ItemSeal(userId: string, vaultId: string, clipId: string, sourceDeviceId: string, keyEpoch: int)
    | ItemKey(clipId: string, keyEpoch: int)

  function WrapAAD(userId: string, vaultId: string): string {
    "oc-v1|vault|" + userId + "|" + vaultId + "|1"
  }

  function PasswordWrapAAD(userId: string, vaultId: string): string {
    "oc-v1|vault-password|" + userId + "|" + vaultId + "|1"
  }

  function ItemInfo(clipId: string, keyEpoch: int): string {
    "onlineclipboard/v1/item|" + clipId + "|" + Canon.Itoa(keyEpoch)
  }

  /** strings.Join with the separator "|". */
  function Join(parts: seq<string>): string {
    if |parts| == 0 then ""
    else if |parts| == 1 then parts[0]
    else parts[0] + "|" + Join(parts[1..])
  }

  function ItemAAD(userId: string, vaultId: string, clipId: string, sourceDeviceId: string, keyEpoch: int): string {
    Join(["oc-v1", "clip", userId, vaultId, clipId, sourceDeviceId, Canon.Itoa(keyEpoch), "text/plain"])
  }

  function Text(c: Context): string {
    match c
    case VaultWrap(u, v) => WrapAAD(u, v)
    case PasswordWrap(u, v) => PasswordWrapAAD(u, v)
    case ItemSeal(u, v, c, d, k) => ItemAAD(u, v, c, d, k)
    case ItemKey(c, k) => ItemInfo(c, k)
  }

  function Fields(c: Context): seq<string> {
    match c
    case VaultWrap(u, v) => ["oc-v1", "vault", u, v, "1"]
    case PasswordWrap(u, v) => ["oc-v1", "vault-password", u, v, "1"]
    case ItemSeal(u, v, c, d, k) => ["oc-v1", "clip", u, v, c, d, Canon.Itoa(k), "text/plain"]
    case ItemKey(c, k) => ["onlineclipboard/v1/item", c, Canon.Itoa(k)]
  }

  predicate BarFree(s: string) {
    '|' !in s
  }

  predicate AllBarFree(parts: seq<string>) {
    forall i :: 0 <= i < |parts| ==> BarFree(parts[i])
  }

  /** The ids in a context contain no '|'. */
  predicate IdsBarFree(c: Context) {
    match c
    case VaultWrap(u, v) => BarFree(u) && BarFree(v)
    case PasswordWrap(u, v) => BarFree(u) && BarFree(v)
    case ItemSeal(u, v, c, d, _) => BarFree(u) && BarFree(v) && BarFree(c) && BarFree(d)
    case ItemKey(c, _) => BarFree(c)
  }

  /** Cutting at a bar: only one way to read a joined list whose parts have none. */
  lemma {:induction false} JoinInjective(f: seq<string>, g: seq<string>)
    requires |f| > 0 && |g| > 0 && AllBarFree(f) && AllBarFree(g) && Join(f) == Join(g)
    ensures f == g
  {
    HeadEnds(f);
    HeadEnds(g);
    var s, m, n := Join(f), |f[0]|, |g[0]|;
    assert f[0] == s[..m] == g[0];
    if |f| > 1 && |g| > 1 {
      assert s[m + 1..] == Join(f[1..]) == Join(g[1..]);
      JoinInjective(f[1..], g[1..]);
    }
    assert f == [f[0]] + f[1..] && g == [g[0]] + g[1..];
  }

  /** The first part ends at the first bar, or with the text. */
  lemma HeadEnds(f: seq<string>)
    requires |f| > 0
    ensures var s, m := Join(f), |f[0]|;
      && m <= |s| && s[..m] == f[0]
      && (|f| == 1 <==> m == |s|)
      && (|f| > 1 ==> s[m] == '|' && s[m + 1..] == Join(f[1..]))
  {
  }

  lemma ItoaBarFree(n: int)
    ensures BarFree(Canon.Itoa(n))
  {
    Canon.DecimalValue(if n < 0 then -n else n);
    var d := Canon.Decimal(if n < 0 then -n else n);
    assert forall i :: 0 <= i < |d| ==> '0' <= d[i] <= '9';
  }

  lemma JoinThree(a: string, b: string, c: string)
    ensures Join([a, b, c]) == a + "|" + b + "|" + c
  {
    assert [a, b, c][1..] == [b, c] && [b, c][1..] == [c];
    assert Join([b, c]) == b + "|" + Join([c]);
    assert Join([a, b, c]) == a + "|" + Join([b, c]);
  }

  lemma JoinFive(a: string, b: string, c: string, d: string, e: string)
    ensures Join([a, b, c, d, e]) == a + "|" + b + "|" + c + "|" + d + "|" + e
  {
    assert [a, b, c, d, e][1..] == [b, c, d, e] && [b, c, d, e][1..] == [c, d, e];
    JoinThree(c, d, e);
  }

  lemma WrapsJoin(u: string, v: string)
    ensures WrapAAD(u, v) == Join(["oc-v1", "vault", u, v, "1"])
    ensures PasswordWrapAAD(u, v) == Join(["oc-v1", "vault-password", u, v, "1"])
  {
    hide Join;
    JoinFive("oc-v1", "vault", u, v, "1");
    JoinFive("oc-v1", "vault-password", u, v, "1");
    assert "oc-v1" + "|" + "vault" + "|" == "oc-v1|vault|";
    assert "oc-v1" + "|" + "vault-password" + "|" == "oc-v1|vault-password|";
  }

  lemma InfoJoins(c: string, k: int)
    ensures ItemInfo(c, k) == Join(["onlineclipboard/v1/item", c, Canon.Itoa(k)])
  {
    hide Join;
    JoinThree("onlineclipboard/v1/item", c, Canon.Itoa(k));
    assert "onlineclipboard/v1/item" + "|" == "onlineclipboard/v1/item|";
  }

  lemma TextJoinsFields(c: Context)
    ensures Text(c) == Join(Fields(c))
  {
    hide Join;
    match c
    case VaultWrap(u, v) => WrapsJoin(u, v);
    case PasswordWrap(u, v) => WrapsJoin(u, v);
    case ItemKey(x, k) => InfoJoins(x, k);
    case ItemSeal(_, _, _, _, _) =>
  }

  lemma FieldsBarFree(c: Context)
    requires IdsBarFree(c)
    ensures AllBarFree(Fields(c))
  {
    if c.ItemSeal? || c.ItemKey? {
      ItoaBarFree(c.keyEpoch);
    }
  }

  lemma FieldsInjective(x: Context, y: Context)
    requires Fields(x) == Fields(y)
    ensures x == y
  {
    var f, g := Fields(x), Fields(y);
    assert |f| == |g| && forall i :: 0 <= i < |f| ==> f[i] == g[i];
    if x.ItemSeal? {
      assert y.ItemSeal?;
      Canon.ItoaInjective(x.keyEpoch, y.keyEpoch);
    } else if x.ItemKey? {
      assert y.ItemKey?;
      Canon.ItoaInjective(x.keyEpoch, y.keyEpoch);
    }
  }

  /** On ids without a bar no two contexts share a text: each form is injective, and the forms are disjoint. */
  lemma ContextInjective(x: Context, y: Context)
    requires IdsBarFree(x) && IdsBarFree(y)
    ensures Text(x) == Text(y) <==> x == y
  {
    if Text(x) == Text(y) {
      TextJoinsFields(x);
      TextJoinsFields(y);
      FieldsBarFree(x);
      FieldsBarFree(y);
      JoinInjective(Fields(x), Fields(y));
      FieldsInjective(x, y);
    }
  }

  /** With a bar in an id two vaults could share a context, so the restriction is needed. */
  lemma BarsCollide()
    ensures exists x, y :: x != y && Text(x) == Text(y)
  {
    var x, y := VaultWrap("a|b", "c"), VaultWrap("a", "b|c");
    assert Text(x) == Text(y) == "oc-v1|vault|a|b|c|1";
  }

  lemma {:induction false} HexBarFree(n: nat, width: nat)
    ensures BarFree(Canon.Hex(n, width))
  {
    if width > 0 {
      HexBarFree(n / 16, width - 1);
    }
  }

  /** The ids in use are UUIDs, whose text has no bar. */
  lemma UuidBarFree(u: Uuid)
    ensures BarFree(Canon.UuidText(u))
  {
    HexBarFree(u, 32);
    var h := Canon.Hex(u, 32);
    assert BarFree(h[..8]) && BarFree(h[8..12]) && BarFree(h[12..16]) && BarFree(h[16..20]) && BarFree(h[20..]);
  }

  /** So the associated data of two items agree only for the same user, vault, clip, device and epoch. */
  lemma ItemsDiffer(u: Uuid, v: Uuid, c: Uuid, d: Uuid, k: int, u': Uuid, v': Uuid, c': Uuid, d': Uuid, k': int)
    ensures ItemAAD(Canon.UuidText(u), Canon.UuidText(v), Canon.UuidText(c), Canon.UuidText(d), k)
        == ItemAAD(Canon.UuidText(u'), Canon.UuidText(v'), Canon.UuidText(c'), Canon.UuidText(d'), k')
      <==> (u, v, c, d, k) == (u', v', c', d', k')
  {
    UuidBarFree(u); UuidBarFree(v); UuidBarFree(c); UuidBarFree(d);
    UuidBarFree(u'); UuidBarFree(v'); UuidBarFree(c'); UuidBarFree(d');
    var x := ItemSeal(Canon.UuidText(u), Canon.UuidText(v), Canon.UuidText(c), Canon.UuidText(d), k);
    var y := ItemSeal(Canon.UuidText(u'), Canon.UuidText(v'), Canon.UuidText(c'), Canon.UuidText(d'), k');
    ContextInjective(x, y);
    if x == y {
      Canon.UuidTextInjective(u, u');
      Canon.UuidTextInjective(v, v');
      Canon.UuidTextInjective(c, c');
      Canon.UuidTextInjective(d, d');
    }
  }

  // ----- recovery code -----

  const PREFIX := "oc1_"

  function RecoveryCode(rk: seq<Byte>): string {
    PREFIX + Encode(rk)
  }

  /** strings.ReplaceAll(s, " ", ""). */
  function WithoutSpaces(s: string): string {
    if |s| == 0 then []
    else if s[0] == ' ' then WithoutSpaces(s[1..])
    else [s[0]] + WithoutSpaces(s[1..])
  }

  function ParseRecoveryCode(code: string): Option<seq<Byte>> {
    var c := WithoutSpaces(code);
    if !(PREFIX <= c) then None
    else
      var raw := DecodeCanonical(c[|PREFIX|..]);
      if raw.None? || |raw.value| != 32 then None else raw
  }

  /** A code is read as `rk` exactly when, spaces aside, it is the code written for those 32 bytes. */
  lemma ParseRecoveryCodeIff(code: string, rk: seq<Byte>)
    ensures ParseRecoveryCode(code) == Some(rk) <==> |rk| == 32 && WithoutSpaces(code) == RecoveryCode(rk)
  {
    var c := WithoutSpaces(code);
    if PREFIX <= c {
      DecodeCanonicalIff(c[|PREFIX|..], rk);
      assert c == PREFIX + c[|PREFIX|..];
    }
    if c == RecoveryCode(rk) {
      assert c[|PREFIX|..] == Encode(rk);
    }
  }

  /** `t` is `s` with spaces put in anywhere. */
  predicate Spaced(s: string, t: string) {
    if |t| == 0 then |s| == 0
    else (t[0] == ' ' && Spaced(s, t[1..])) || (|s| > 0 && s[0] == t[0] && Spaced(s[1..], t[1..]))
  }

  lemma {:induction false} SpacesVanish(s: string, t: string)
    requires Spaced(s, t) && ' ' !in s
    ensures WithoutSpaces(t) == s
    decreases |t|
  {
    if |t| > 0 {
      if t[0] == ' ' {
        assert |s| > 0 ==> s[0] != ' ';
        SpacesVanish(s, t[1..]);
      } else {
        SpacesVanish(s[1..], t[1..]);
        assert s == [s[0]] + s[1..];
      }
    }
  }

  /** A recovery key survives being written down and typed in with any spacing. */
  lemma RecoveryRoundTrip(rk: seq<Byte>, typed: string)
    requires |rk| == 32 && Spaced(RecoveryCode(rk), typed)
    ensures ParseRecoveryCode(typed) == Some(rk)
  {
    EncodedSymbols(rk);
    var e := Encode(rk);
    assert ' ' !in e by {
      assert forall i :: 0 <= i < |e| ==> IsSymbol(e[i]);
    }
    SpacesVanish(RecoveryCode(rk), typed);
    ParseRecoveryCodeIff(typed, rk);
  }
}
