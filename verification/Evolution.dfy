/** How one state may follow another, however many transactions lie between: a transitive relation. */
module Evolution {
  import opened Domain
  import opened Accounts
  import opened EventLog
  import opened Invariant

  /** What becomes of one id. */
  predicate IdEvolves(a: Account, b: Account, id: Uuid) {
    // a row whose last event is old is untouched
    && (id in b.clips && b.clips[id].lastSeq <= a.nextSeq ==> id in a.clips && a.clips[id] == b.clips[id])
    // a changed row has a higher version and a new event
    && (id in a.clips && id in b.clips && a.clips[id] != b.clips[id] ==>
          && a.clips[id].env == b.clips[id].env
          && a.clips[id].version < b.clips[id].version && a.nextSeq < b.clips[id].lastSeq)
    // expired trash never changes again, short of being purged
    && (id in a.clips && id in b.clips && IsExpired(a.clips[id], a.clock) ==> a.clips[id] == b.clips[id])
    // registrations are permanent, tombstones final
    && (id in a.clipIds ==>
          && id in b.clipIds
          && var was, now := a.clipIds[id], b.clipIds[id];
             && now.hash == was.hash && now.createdSeq == was.createdSeq && now.createdAt == was.createdAt
             && (was.tomb.Some? ==> now == was)
             && (was.tomb.None? && now.tomb.Some? ==>
                   a.nextSeq < now.tomb.value.seqNo
                   && (id in a.clips ==> a.clips[id].version < now.tomb.value.version)))
    && (id !in a.clipIds && id in b.clipIds ==> a.nextSeq < b.clipIds[id].createdSeq)
  }

  ghost predicate IdsEvolve(a: Account, b: Account) {
    forall id :: IdEvolves(a, b, id)
  }

  predicate SessionsEvolve(a: Account, b: Account) {
    && a.issued <= b.issued
    && (forall t :: t in a.issued && t in b.snapshots ==> t in a.snapshots && a.snapshots[t] == b.snapshots[t])
    && (forall d :: d in a.devices ==> d in b.devices && (a.devices[d].Some? ==> b.devices[d] == a.devices[d]))
    && (a.vault.Some? ==> b.vault == a.vault)
  }

  ghost predicate Evolves(a: Account, b: Account) {
    && a.cfg == b.cfg
    && a.clock <= b.clock
    && a.log <= b.log && a.nextSeq <= b.nextSeq
    && a.minAvailableSeq <= b.minAvailableSeq
    && SessionsEvolve(a, b)
    && IdsEvolve(a, b)
  }

  lemma IdEvolvesTransitively(a: Account, b: Account, c: Account, id: Uuid)
    requires RowsOk(a) && RowsOk(b) && RowsOk(c) && a.clock <= b.clock && a.nextSeq <= b.nextSeq
    requires IdEvolves(a, b, id) && IdEvolves(b, c, id)
    ensures IdEvolves(a, c, id)
  {
    assert id in a.clips ==> RowOk(a, id);
    assert id in b.clips ==> RowOk(b, id);
    assert id in c.clips ==> RowOk(c, id);
  }

  lemma EvolvesTransitively(a: Account, b: Account, c: Account)
    requires Inv(a) && Inv(b) && Inv(c) && Evolves(a, b) && Evolves(b, c)
    ensures Evolves(a, c)
  {
    forall id ensures IdEvolves(a, c, id) {
      IdEvolvesTransitively(a, b, c, id);
    }
    assert SessionsEvolve(a, c);
  }

  /** A state follows itself; so does one that differs in no row, registration or event. */
  lemma QuietStepEvolves(a: Account, b: Account)
    requires Inv(a) && Inv(b)
    requires a.clips == b.clips && a.clipIds == b.clipIds && a.log == b.log && a.cfg == b.cfg && a.clock <= b.clock
    requires a.minAvailableSeq <= b.minAvailableSeq && SessionsEvolve(a, b)
    ensures Evolves(a, b)
  {
    assert a.nextSeq == b.nextSeq;
    RowsBounded(a);
    forall id ensures IdEvolves(a, b, id) {
    }
  }

  /** Every row's numbers lie in the log. */
  lemma RowsBounded(a: Account)
    requires Inv(a)
    ensures forall id :: id in a.clipIds ==> 1 <= a.clipIds[id].createdSeq <= a.nextSeq
    ensures forall id :: id in a.clips ==>
      id in a.clipIds && 1 <= a.clips[id].createdSeq <= a.clips[id].lastSeq <= a.nextSeq
    ensures forall id :: id in a.clipIds && a.clipIds[id].tomb.Some? ==>
      a.clipIds[id].createdSeq < a.clipIds[id].tomb.value.seqNo <= a.nextSeq
  {
    forall id | id in a.clipIds
      ensures 1 <= a.clipIds[id].createdSeq <= a.nextSeq
      ensures id in a.clips ==> a.clips[id].createdSeq <= a.clips[id].lastSeq <= a.nextSeq
      ensures a.clipIds[id].tomb.Some? ==> a.clipIds[id].createdSeq < a.clipIds[id].tomb.value.seqNo <= a.nextSeq
    {
      LifeSummarises(a.log, id);
      assert View(a)[id] == LifeOf(a, id);
      assert id in a.clips ==> RowOk(a, id);
    }
    ClipsAreRegistered(a);
  }

  lemma WriteEvolves(a: Account, b: Account, id: Uuid)
    requires Inv(a) && SameElsewhere(a, b, id) && IdEvolves(a, b, id)
    requires a.cfg == b.cfg && a.clock == b.clock && a.log <= b.log && a.nextSeq <= b.nextSeq
    requires a.minAvailableSeq == b.minAvailableSeq && SessionsEvolve(a, b)
    ensures Evolves(a, b)
  {
    forall x ensures IdEvolves(a, b, x) {
      if x != id && x in a.clips {
        assert RowOk(a, x);
      }
    }
  }

  lemma InsertEvolves(a: Account, env: Envelope, hash: Digest)
    requires Inv(a) && env.id !in a.clipIds
    ensures Evolves(a, Insert(a, env, hash))
  {
    ClipsAreRegistered(a);
    WriteEvolves(a, Insert(a, env, hash), env.id);
  }

  lemma BumpEvolves(a: Account, id: Uuid, status: Status)
    requires Inv(a) && id in a.clips && a.clips[id].status != status && !IsExpired(a.clips[id], a.clock)
    ensures Evolves(a, Bump(a, id, status))
  {
    WriteEvolves(a, Bump(a, id, status), id);
  }

  lemma PurgeEvolves(a: Account, id: Uuid)
    requires Inv(a) && id in a.clips && id in a.clipIds
    ensures Evolves(a, Purge(a, id))
  {
    assert RowOk(a, id);
    WriteEvolves(a, Purge(a, id), id);
  }
}
