/** Walking through a listing page by page, with arbitrary transactions before each page. */
module Listing {
  import opened Domain
  import opened Ordered
  import opened Accounts
  import opened EventLog
  import opened Evolution
  import opened Invariant
  import opened Runs
  import opened Paging

  // ----- one page -----

  /** A created_seq belongs to one clip, so a row found by it is the row. */
  lemma CreatedSeqNamesClip(a: Account, id: Uuid)
    requires Inv(a) && id in a.clips
    ensures HasClipAt(a, a.clips[id].createdSeq) && ClipAt(a, a.clips[id].createdSeq) == a.clips[id]
    ensures forall x :: x in a.clips && a.clips[x].createdSeq == a.clips[id].createdSeq ==> x == id
  {
    forall x | x in a.clips && a.clips[x].createdSeq == a.clips[id].createdSeq ensures x == id {
      CreationOf(a, x);
      CreationOf(a, id);
    }
  }

  lemma CreationOf(a: Account, id: Uuid)
    requires Inv(a) && id in a.clips
    ensures 1 <= a.clips[id].createdSeq <= |a.log| && a.log[a.clips[id].createdSeq - 1].clipId == id
  {
    assert RowOk(a, id);
    LifeSummarises(a.log, id);
    assert View(a)[id] == LifeOf(a, id);
  }

  /** (created_seq, id) in falling order. */
  predicate Newer(x: Clip, y: Clip) {
    x.createdSeq > y.createdSeq || (x.createdSeq == y.createdSeq && x.env.id > y.env.id)
  }

  predicate NewestFirst(items: seq<Clip>) {
    forall i, j :: 0 <= i < j < |items| ==> Newer(items[i], items[j])
  }

  function TokenOf(c: Clip): PageToken {
    PageToken(c.createdSeq, c.env.id)
  }

  lemma RowsAskedFor(a: Account, f: Filter, after: Option<PageToken>)
    requires Inv(a)
    ensures forall id :: id in ListRows(a, f, after) <==>
      && id in a.clips
      && var c := a.clips[id];
         && c.status == f.status
         && (f.device.Some? ==> c.env.sourceDeviceId == f.device.value)
         && (f.since.Some? ==> c.createdAt >= f.since.value)
         && (f.until.Some? ==> c.createdAt < f.until.value)
         && (c.status == Trash ==> c.expiresAt.Some? && c.expiresAt.value > a.clock)
         && (after.Some? ==>
               || c.createdSeq < after.value.createdSeq
               || (c.createdSeq == after.value.createdSeq && id < after.value.id))
  {
    hide LogOk, RetentionOk, LogIsState, QuotaOk, SnapshotsOk;
    assert forall id :: id in a.clips ==> RowOk(a, id);
  }

  /**
   * A page holds rows as they are now, of the status, device and window of time that were asked for and beyond
   * the token, newest first; expired trash is not among them, and no such row is skipped before the next token.
   */
  lemma PageIsNewest(a: Account, f: Filter, after: Option<PageToken>, limit: nat)
    requires Inv(a) && limit > 0
    ensures forall id :: id in ListRows(a, f, after) <==>
      && id in a.clips
      && var c := a.clips[id];
         && c.status == f.status
         && (f.device.Some? ==> c.env.sourceDeviceId == f.device.value)
         && (f.since.Some? ==> c.createdAt >= f.since.value)
         && (f.until.Some? ==> c.createdAt < f.until.value)
         && (c.status == Trash ==> c.expiresAt.Some? && c.expiresAt.value > a.clock)
         && (after.Some? ==>
               || c.createdSeq < after.value.createdSeq
               || (c.createdSeq == after.value.createdSeq && id < after.value.id))
    ensures var p := ListPage(a, f, after, limit);
      && NewestFirst(p.items)
      && (forall i :: 0 <= i < |p.items| ==>
            p.items[i].env.id in ListRows(a, f, after) && p.items[i] == a.clips[p.items[i].env.id])
      && (forall id :: id in ListRows(a, f, after) && !Contains(p.items, id) ==>
            p.next.Some? && a.clips[id].createdSeq < p.next.value.createdSeq)
      && (p.next.Some? ==> |p.items| == limit && p.next.value == TokenOf(p.items[limit - 1]))
  {
    hide Inv, Listed, Behind, ListRows;
    RowsAskedFor(a, f, after);
    var rows := ListRows(a, f, after);
    var seqs, p := Descending(CreatedSeqs(a, rows)), ListPage(a, f, after, limit);
    DescendingIsSorted(CreatedSeqs(a, rows));
    forall i | 0 <= i < |p.items|
      ensures p.items[i].createdSeq == seqs[i] && p.items[i].env.id in rows && p.items[i] == a.clips[p.items[i].env.id]
    {
      assert seqs[i] in seqs;
      ItemIsRow(a, rows, seqs[i]);
    }
    forall id | id in rows && !Contains(p.items, id)
      ensures p.next.Some? && a.clips[id].createdSeq < p.next.value.createdSeq
    {
      assert a.clips[id].createdSeq in seqs;
      var i :| 0 <= i < |seqs| && seqs[i] == a.clips[id].createdSeq;
      if i < |p.items| {
        SameSeqSameClip(a, id, p.items[i].env.id);
        assert false;
      }
    }
  }

  lemma ItemIsRow(a: Account, rows: set<Uuid>, seqNo: nat)
    requires Inv(a) && rows <= a.clips.Keys && seqNo in CreatedSeqs(a, rows)
    ensures HasClipAt(a, seqNo)
    ensures var c := ClipAt(a, seqNo); c.createdSeq == seqNo && c.env.id in rows && a.clips[c.env.id] == c
  {
    var id :| id in rows && a.clips[id].createdSeq == seqNo;
    CreatedSeqNamesClip(a, id);
    assert RowOk(a, id);
  }

  lemma SameSeqSameClip(a: Account, x: Uuid, y: Uuid)
    requires Inv(a) && x in a.clips && y in a.clips && a.clips[x].createdSeq == a.clips[y].createdSeq
    ensures x == y
  {
    CreatedSeqNamesClip(a, x);
  }

  // ----- a whole walk -----

  function Bound(after: Option<PageToken>): nat {
    if after.Some? then after.value.createdSeq else 0
  }

  lemma TokenFalls(a: Account, f: Filter, after: Option<PageToken>, limit: nat)
    requires Inv(a) && limit > 0 && ListPage(a, f, after, limit).next.Some?
    ensures var next := ListPage(a, f, after, limit).next.value;
      after.Some? ==> (next.createdSeq < after.value.createdSeq
                       || (next.createdSeq == after.value.createdSeq && next.id < after.value.id))
  {
    PageIsNewest(a, f, after, limit);
    var p := ListPage(a, f, after, limit);
    assert p.items[limit - 1].env.id in ListRows(a, f, after);
  }

  /** All pages of a listing, one after the other; it ends because the token only falls. */
  ghost function Walk(a: Account, f: Filter, after: Option<PageToken>, limit: nat, others: seq<seq<Action>>): seq<Clip>
    requires Inv(a) && limit > 0
    decreases after.None?, Bound(after), if after.Some? then after.value.id else 0
  {
    var b := Next(a, others);
    NextFollows(a, others);
    var p := ListPage(b, f, after, limit);
    if p.next.None? then p.items
    else
      TokenFalls(b, f, after, limit);
      p.items + Walk(b, f, p.next, limit, Rest(others))
  }

  predicate AllBehind(items: seq<Clip>, after: Option<PageToken>) {
    forall i :: 0 <= i < |items| ==> Behind(items[i], after)
  }

  lemma {:induction false} WalkIsNewestFirst(a: Account, f: Filter, after: Option<PageToken>, limit: nat,
      others: seq<seq<Action>>)
    requires Inv(a) && limit > 0
    ensures NewestFirst(Walk(a, f, after, limit, others)) && AllBehind(Walk(a, f, after, limit, others), after)
    decreases after.None?, Bound(after), if after.Some? then after.value.id else 0
  {
    hide Inv, Evolves, ListPage, ListRows, NewestFirst, AllBehind;
    var b := Next(a, others);
    NextFollows(a, others);
    var p := ListPage(b, f, after, limit);
    PageIsBehind(b, f, after, limit);
    if p.next.Some? {
      TokenFalls(b, f, after, limit);
      WalkIsNewestFirst(b, f, p.next, limit, Rest(others));
      PagesStayOrdered(p.items, Walk(b, f, p.next, limit, Rest(others)), after);
    }
  }

  lemma PageIsBehind(a: Account, f: Filter, after: Option<PageToken>, limit: nat)
    requires Inv(a) && limit > 0
    ensures var p := ListPage(a, f, after, limit);
      && NewestFirst(p.items) && AllBehind(p.items, after)
      && (p.next.Some? ==> |p.items| > 0 && p.next.value == TokenOf(p.items[|p.items| - 1]))
  {
    PageIsNewest(a, f, after, limit);
    var p := ListPage(a, f, after, limit);
    forall i | 0 <= i < |p.items| ensures Behind(p.items[i], after) {
      assert p.items[i].env.id in ListRows(a, f, after);
    }
  }

  lemma PagesStayOrdered(items: seq<Clip>, rest: seq<Clip>, after: Option<PageToken>)
    requires |items| > 0 && NewestFirst(items) && AllBehind(items, after)
    requires NewestFirst(rest) && AllBehind(rest, Some(TokenOf(items[|items| - 1])))
    ensures NewestFirst(items + rest) && AllBehind(items + rest, after)
  {
    var all, last := items + rest, items[|items| - 1];
    forall i | 0 <= i < |all| ensures Behind(all[i], after) {
      if i >= |items| {
        assert Behind(last, after) && Behind(rest[i - |items|], Some(TokenOf(last)));
      }
    }
    forall i, j | 0 <= i < j < |all| ensures Newer(all[i], all[j]) {
      if i < |items| <= j {
        assert Behind(rest[j - |items|], Some(TokenOf(last)));
        assert i < |items| - 1 ==> Newer(items[i], last);
      }
    }
  }

  // ----- every clip once -----

  /** A clip's created_seq never changes, so neither does its place in the listing. */
  predicate KeepsPlace(items: seq<Clip>, id: Uuid, createdSeq: nat) {
    forall i :: 0 <= i < |items| && items[i].env.id == id ==> items[i].createdSeq == createdSeq
  }

  lemma {:induction false} WalkKeepsPlace(
      a: Account, f: Filter, after: Option<PageToken>, limit: nat, others: seq<seq<Action>>, id: Uuid)
    requires Inv(a) && limit > 0 && id in a.clipIds
    ensures KeepsPlace(Walk(a, f, after, limit, others), id, a.clipIds[id].createdSeq)
    decreases after.None?, Bound(after), if after.Some? then after.value.id else 0
  {
    hide Inv, Evolves, ListPage, ListRows;
    var b := Next(a, others);
    NextFollows(a, others);
    RegistrationStays(a, b, id);
    PageKeepsPlace(b, f, after, limit, id);
    if ListPage(b, f, after, limit).next.Some? {
      TokenFalls(b, f, after, limit);
      WalkKeepsPlace(b, f, ListPage(b, f, after, limit).next, limit, Rest(others), id);
    }
  }

  lemma RegistrationStays(a: Account, b: Account, id: Uuid)
    requires Follows(a, b) && id in a.clipIds
    ensures id in b.clipIds && b.clipIds[id].createdSeq == a.clipIds[id].createdSeq
  {
    assert IdEvolves(a, b, id);
  }

  lemma PageKeepsPlace(a: Account, f: Filter, after: Option<PageToken>, limit: nat, id: Uuid)
    requires Inv(a) && limit > 0 && id in a.clipIds
    ensures KeepsPlace(ListPage(a, f, after, limit).items, id, a.clipIds[id].createdSeq)
  {
    PageIsNewest(a, f, after, limit);
    assert id in a.clips ==> RowOk(a, id);
  }

  /** Of the status, device and time asked for, and not expired, at every page, whatever lands in between. */
  ghost predicate StaysListed(a: Account, f: Filter, id: Uuid, others: seq<seq<Action>>)
    decreases |others|
  {
    && id in Next(a, others).clips
    && (var c := Next(a, others).clips[id];
        && c.status == f.status
        && (f.device.Some? ==> c.env.sourceDeviceId == f.device.value)
        && (f.since.Some? ==> c.createdAt >= f.since.value)
        && (f.until.Some? ==> c.createdAt < f.until.value)
        && (c.status == Trash ==> c.expiresAt.Some? && c.expiresAt.value > Next(a, others).clock))
    && (|others| > 0 ==> StaysListed(Next(a, others), f, id, Rest(others)))
  }

  lemma StaysListedOnward(a: Account, f: Filter, id: Uuid, others: seq<seq<Action>>)
    requires StaysListed(a, f, id, others)
    ensures Listed(Next(a, others), f, id) && StaysListed(Next(a, others), f, id, Rest(others))
  {
  }

  lemma PageReaches(a: Account, f: Filter, after: Option<PageToken>, limit: nat, id: Uuid)
    requires Inv(a) && limit > 0 && Listed(a, f, id) && id in a.clipIds
    requires PlaceBehind(a.clipIds[id].createdSeq, id, after)
    ensures var p := ListPage(a, f, after, limit);
      Contains(p.items, id) || (p.next.Some? && PlaceBehind(a.clipIds[id].createdSeq, id, p.next))
  {
    assert RowOk(a, id);
    PageIsNewest(a, f, after, limit);
    assert id in ListRows(a, f, after);
  }

  lemma {:induction false} WalkIsComplete(
      a: Account, f: Filter, after: Option<PageToken>, limit: nat, others: seq<seq<Action>>, id: Uuid)
    requires Inv(a) && limit > 0 && id in a.clipIds && PlaceBehind(a.clipIds[id].createdSeq, id, after)
    requires StaysListed(a, f, id, others)
    ensures Contains(Walk(a, f, after, limit, others), id)
    decreases after.None?, Bound(after), if after.Some? then after.value.id else 0
  {
    hide Inv, Evolves, ListPage, ListRows, Contains, Listed, StaysListed, PlaceBehind;
    var b := Next(a, others);
    NextFollows(a, others);
    StaysListedOnward(a, f, id, others);
    RegistrationStays(a, b, id);
    PageReaches(b, f, after, limit, id);
    var p := ListPage(b, f, after, limit);
    if p.next.Some? {
      TokenFalls(b, f, after, limit);
      if PlaceBehind(b.clipIds[id].createdSeq, id, p.next) {
        WalkIsComplete(b, f, p.next, limit, Rest(others), id);
      }
      ContainsEither(p.items, Walk(b, f, p.next, limit, Rest(others)), id);
    }
  }

  /** What is returned was of the status, device and time asked for when its page was read. */
  predicate AllAskedFor(items: seq<Clip>, f: Filter) {
    forall i :: 0 <= i < |items| ==>
      && items[i].status == f.status
      && (f.device.Some? ==> items[i].env.sourceDeviceId == f.device.value)
      && (f.since.Some? ==> items[i].createdAt >= f.since.value)
      && (f.until.Some? ==> items[i].createdAt < f.until.value)
  }

  lemma {:induction false} WalkIsAskedFor(a: Account, f: Filter, after: Option<PageToken>, limit: nat,
      others: seq<seq<Action>>)
    requires Inv(a) && limit > 0
    ensures AllAskedFor(Walk(a, f, after, limit, others), f)
    decreases after.None?, Bound(after), if after.Some? then after.value.id else 0
  {
    hide Inv, Evolves, ListPage, ListRows;
    var b := Next(a, others);
    NextFollows(a, others);
    PageIsAskedFor(b, f, after, limit);
    if ListPage(b, f, after, limit).next.Some? {
      TokenFalls(b, f, after, limit);
      WalkIsAskedFor(b, f, ListPage(b, f, after, limit).next, limit, Rest(others));
    }
  }

  lemma PageIsAskedFor(a: Account, f: Filter, after: Option<PageToken>, limit: nat)
    requires Inv(a) && limit > 0
    ensures AllAskedFor(ListPage(a, f, after, limit).items, f)
  {
    hide Inv, ListPage, ListRows;
    PageIsNewest(a, f, after, limit);
  }

  /** A clip that stays listed throughout comes back exactly once, however pages and transactions fall. */
  lemma WalkReturnsOnce(a: Account, f: Filter, limit: nat, others: seq<seq<Action>>, id: Uuid)
    requires Inv(a) && limit > 0 && id in a.clipIds && StaysListed(a, f, id, others)
    ensures var rows := Walk(a, f, None, limit, others);
      && Contains(rows, id) && AllAskedFor(rows, f)
      && forall i, j :: 0 <= i < |rows| && 0 <= j < |rows| && rows[i].env.id == id && rows[j].env.id == id ==> i == j
  {
    hide Inv, Walk, StaysListed;
    WalkIsComplete(a, f, None, limit, others, id);
    WalkIsAskedFor(a, f, None, limit, others);
    WalkIsNewestFirst(a, f, None, limit, others);
    WalkKeepsPlace(a, f, None, limit, others, id);
  }
}
