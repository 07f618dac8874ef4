/** The texts that other clients must agree on: the published examples, and the shape of UUIDs and contexts. */
module Vectors {
  import opened Domain
  import opened Canon
  import opened Base64
  import opened ClipCrypto

  predicate IsLowerHex(c: char) {
    '0' <= c <= '9' || 'a' <= c <= 'f'
  }

  lemma {:induction false} HexIsLower(n: nat, width: nat)
    ensures forall i :: 0 <= i < width ==> IsLowerHex(Hex(n, width)[i])
  {
    if width > 0 {
      HexIsLower(n / 16, width - 1);
    }
  }

  /** A UUID is written as 8-4-4-4-12 lower-case digits that read back as the number. */
  lemma UuidTextReads(u: Uuid)
    ensures forall i :: 0 <= i < 36 ==>
      if i == 8 || i == 13 || i == 18 || i == 23 then UuidText(u)[i] == '-' else IsLowerHex(UuidText(u)[i])
    ensures Unhex(Undash(UuidText(u))) == u
  {
    HexIsLower(u, 32);
    UndashText(u);
    Pow16Of32();
    UnhexHex(u, 32);
  }

  // ----- hash inputs -----

  lemma FrameCons(field: seq<Byte>, rest: seq<seq<Byte>>)
    ensures Frame([field] + rest) == U32(|field|) + field + Frame(rest)
  {
    assert ([field] + rest)[1..] == rest;
  }

  /** The input of a mutation's hash: the word for the kind, the clip and the version, each after its length. */
  lemma OperationInputReads(kind: MutationKind, id: Uuid, expected: int)
    ensures OperationRequestHash(kind, id, expected) ==
      (match kind
       case TrashOp => [0, 0, 0, 5] + Bytes("trash")
       case RestoreOp => [0, 0, 0, 7] + Bytes("restore")
       case PurgeOp => [0, 0, 0, 5] + Bytes("purge"))
      + ([0, 0, 0, 36] + Bytes(UuidText(id)) + (U32(|Itoa(expected)|) + Bytes(Itoa(expected))))
  {
    hide UuidText, Itoa, Frame;
    var clip, version := Bytes(UuidText(id)), Bytes(Itoa(expected));
    FrameOne(version);
    FrameCons(clip, [version]);
    FrameCons(Bytes(KindName(kind)), [clip] + [version]);
    assert [Bytes(KindName(kind))] + ([clip] + [version]) == OperationFields(kind, id, expected);
    SmallPrefixes();
  }

  lemma SmallPrefixes()
    ensures U32(5) == [0, 0, 0, 5] && U32(7) == [0, 0, 0, 7] && U32(36) == [0, 0, 0, 36]
  {
  }

  lemma FrameOne(field: seq<Byte>)
    ensures Frame([field]) == U32(|field|) + field
  {
    assert [field][1..] == [];
  }

  /** The input of a create's hash begins with the three ids, in the order clip, vault, source device. */
  lemma CreateInputReads(env: Envelope)
    ensures CreateRequestHash(env) ==
      ([0, 0, 0, 36] + Bytes(UuidText(env.id)))
      + ([0, 0, 0, 36] + Bytes(UuidText(env.vaultId)))
      + ([0, 0, 0, 36] + Bytes(UuidText(env.sourceDeviceId)))
      + Frame([Bytes(Itoa(env.formatVersion)), Bytes(Itoa(env.keyEpoch)), Bytes(env.contentType),
               env.nonce, env.ciphertext, Bytes(env.deliveryIntent)])
  {
    hide UuidText, Itoa, Frame, Bytes;
    var tail := [Bytes(Itoa(env.formatVersion)), Bytes(Itoa(env.keyEpoch)), Bytes(env.contentType),
                 env.nonce, env.ciphertext, Bytes(env.deliveryIntent)];
    var clip, vault := Bytes(UuidText(env.id)), Bytes(UuidText(env.vaultId));
    var device := Bytes(UuidText(env.sourceDeviceId));
    FrameCons(device, tail);
    FrameCons(vault, [device] + tail);
    FrameCons(clip, [vault] + ([device] + tail));
    assert [clip] + ([vault] + ([device] + tail)) == CreateFields(env);
    SmallPrefixes();
  }

  // ----- published examples -----

  /** The beginning of a published nonce. */
  lemma NonceExample()
    ensures Encode([12, 13, 14, 15, 16, 17]) == "DA0ODxAR"
  {
  }

  /** A piece of a published ciphertext, with both symbols beyond letters and digits. */
  lemma CiphertextExample()
    ensures Encode([68, 47, 254, 73, 103, 131]) == "RC_-SWeD"
  {
  }

  /** A recovery code begins like the published one, and the rest is the encoded key. */
  lemma RecoveryCodeReads(rk: seq<Byte>)
    ensures RecoveryCode(rk)[..4] == "oc1_" && RecoveryCode(rk)[4..] == Encode(rk)
  {
  }

  lemma JoinCons(head: string, rest: seq<string>)
    requires |rest| > 0
    ensures Join([head] + rest) == head + "|" + Join(rest)
  {
    assert ([head] + rest)[1..] == rest;
  }

  /** The context of an item, as the published examples spell it. */
  lemma ItemContextReads(user: string, vault: string, clip: string, device: string, epoch: int)
    ensures ItemAAD(user, vault, clip, device, epoch)
      == "oc-v1|clip|" + user + "|" + vault + "|" + clip + "|" + device + "|" + Itoa(epoch) + "|text/plain"
  {
    hide Join, Itoa;
    var e := Itoa(epoch);
    var tail := [vault, clip, device, e, "text/plain"];
    JoinFive(vault, clip, device, e, "text/plain");
    JoinCons(user, tail);
    JoinCons("clip", [user] + tail);
    JoinCons("oc-v1", ["clip"] + ([user] + tail));
    assert ["oc-v1"] + (["clip"] + ([user] + tail)) == ["oc-v1", "clip", user, vault, clip, device, e, "text/plain"];
    assert "oc-v1" + "|" + "clip" + "|" == "oc-v1|clip|";
  }
}
