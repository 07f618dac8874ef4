/** A whole scan, with arbitrary transactions of other devices before each page. */
module SnapshotScan {
  import opened Domain
  import opened Accounts
  import opened Evolution
  import opened Invariant
  import opened Runs
  import opened Replica
  import opened Paging

  /** Other transactions keep the invariant and the base, and can only take rows away from the scan. */
  lemma TurnPasses(a: Account, base: nat, after: Uuid, others: seq<seq<Action>>)
    requires Inv(a) && base <= a.nextSeq
    ensures Follows(a, Next(a, others)) && base <= Next(a, others).nextSeq
    ensures ScanRows(Next(a, others), base, after) <= ScanRows(a, base, after)
  {
    NextFollows(a, others);
    OthersAddNoScanRows(a, Next(a, others), base, after);
  }

  /** All rows a scan from `base` returns. It ends: rows with created_seq <= base beyond the token only get fewer. */
  ghost function Scan(a: Account, base: nat, after: Uuid, limit: nat, others: seq<seq<Action>>): seq<Clip>
    requires Inv(a) && base <= a.nextSeq && limit > 0
    decreases ScanRows(a, base, after)
  {
    var b := Next(a, others);
    TurnPasses(a, base, after, others);
    var (items, next) := ScanPage(b, base, after, limit);
    if next.None? then items
    else
      ScanShrinks(b, base, after, limit);
      items + Scan(b, base, next.value, limit, Rest(others))
  }

  /** Ids rise strictly from `after` on. */
  predicate Ordered(items: seq<Clip>, after: Uuid) {
    && (forall i :: 0 <= i < |items| ==> after < items[i].env.id)
    && (forall i, j :: 0 <= i < j < |items| ==> items[i].env.id < items[j].env.id)
  }

  lemma PageIsOrdered(a: Account, base: nat, after: Uuid, limit: nat)
    requires Inv(a) && limit > 0
    ensures var (items, next) := ScanPage(a, base, after, limit);
      Ordered(items, after) && (next.Some? ==> |items| > 0 && items[|items| - 1].env.id == next.value)
  {
    hide Inv, ScanPage, Visible;
    InvHasRows(a);
    PageContents(a, base, after, limit);
    var items := ScanPage(a, base, after, limit).0;
    forall i | 0 <= i < |items| ensures after < items[i].env.id {
      assert items[i].env.id in ScanVisible(a, base, after);
    }
  }

  /** Ids rise strictly across all pages, so none comes twice. */
  lemma {:induction false} ScanIsOrdered(a: Account, base: nat, after: Uuid, limit: nat, others: seq<seq<Action>>)
    requires Inv(a) && base <= a.nextSeq && limit > 0
    ensures Ordered(Scan(a, base, after, limit, others), after)
    decreases ScanRows(a, base, after)
  {
    hide Inv, Evolves, ScanPage, ScanRows, Ordered;
    var b := Next(a, others);
    TurnPasses(a, base, after, others);
    PageIsOrdered(b, base, after, limit);
    var (items, next) := ScanPage(b, base, after, limit);
    if next.Some? {
      ScanShrinks(b, base, after, limit);
      ScanIsOrdered(b, base, next.value, limit, Rest(others));
      PagesStayOrdered(items, Scan(b, base, next.value, limit, Rest(others)), after);
    }
  }

  lemma PagesStayOrdered(items: seq<Clip>, rest: seq<Clip>, after: Uuid)
    requires |items| > 0 && Ordered(items, after) && Ordered(rest, items[|items| - 1].env.id)
    ensures Ordered(items + rest, after)
  {
    var all, last := items + rest, items[|items| - 1].env.id;
    assert after < last;
    forall i | 0 <= i < |all| ensures after < all[i].env.id {
    }
    forall i, j | 0 <= i < j < |all| ensures all[i].env.id < all[j].env.id {
      if i < |items| <= j {
        assert i < |items| - 1 ==> items[i].env.id < last;
        assert last < rest[j - |items|].env.id;
      }
    }
  }

  /** Visible before every page, whatever lands in between. */
  ghost predicate StaysVisible(a: Account, id: Uuid, others: seq<seq<Action>>)
    decreases |others|
  {
    && Visible(Next(a, others), id)
    && (|others| > 0 ==> StaysVisible(Next(a, others), id, Rest(others)))
  }

  lemma StaysVisibleOnward(a: Account, id: Uuid, others: seq<seq<Action>>)
    requires StaysVisible(a, id, others)
    ensures Visible(Next(a, others), id) && StaysVisible(Next(a, others), id, Rest(others))
  {
  }

  lemma StillToScan(a: Account, b: Account, base: nat, after: Uuid, id: Uuid)
    requires Inv(a) && Follows(a, b) && after < id
    requires id in a.clips && a.clips[id].createdSeq <= base && Visible(b, id)
    ensures id in ScanVisible(b, base, after) && id in b.clips && b.clips[id].createdSeq <= base
  {
    ClipsAreRegistered(a);
    ScanRowWasThere(a, b, id);
  }

  lemma PageReaches(a: Account, base: nat, after: Uuid, limit: nat, id: Uuid)
    requires Inv(a) && limit > 0 && id in ScanVisible(a, base, after)
    ensures var (items, next) := ScanPage(a, base, after, limit);
      Contains(items, id) || (next.Some? && next.value < id)
  {
    PageContents(a, base, after, limit);
  }

  /** A clip created by the base that stays visible throughout is returned, whatever else happens. */
  lemma {:induction false} ScanIsComplete(a: Account, base: nat, after: Uuid, limit: nat, others: seq<seq<Action>>,
      id: Uuid)
    requires Inv(a) && base <= a.nextSeq && limit > 0
    requires after < id && id in a.clips && a.clips[id].createdSeq <= base && StaysVisible(a, id, others)
    ensures Contains(Scan(a, base, after, limit, others), id)
    decreases ScanRows(a, base, after)
  {
    hide Inv, Evolves, ScanPage, ScanRows, ScanVisible, Contains, StaysVisible, Visible;
    var b := Next(a, others);
    TurnPasses(a, base, after, others);
    StaysVisibleOnward(a, id, others);
    StillToScan(a, b, base, after, id);
    PageReaches(b, base, after, limit, id);
    var (items, next) := ScanPage(b, base, after, limit);
    if next.Some? {
      ScanShrinks(b, base, after, limit);
      if next.value < id {
        ScanIsComplete(b, base, next.value, limit, Rest(others), id);
      }
      ContainsEither(items, Scan(b, base, next.value, limit, Rest(others)), id);
    }
  }

  /**
   * Every clip with created_seq <= base and an id above the nil UUID that stays visible throughout
   * comes back exactly once; a clip with the nil UUID never does.
   */
  lemma ScanReturnsOnce(a: Account, base: nat, limit: nat, others: seq<seq<Action>>, id: Uuid)
    requires Inv(a) && base <= a.nextSeq && limit > 0
    requires id in a.clips && a.clips[id].createdSeq <= base && StaysVisible(a, id, others)
    ensures var rows := Scan(a, base, NIL_UUID, limit, others);
      && (Contains(rows, id) <==> id != NIL_UUID)
      && forall i, j :: 0 <= i < |rows| && 0 <= j < |rows| && rows[i].env.id == rows[j].env.id ==> i == j
  {
    hide Inv, Scan, StaysVisible;
    ScanIsOrdered(a, base, NIL_UUID, limit, others);
    if id != NIL_UUID {
      ScanIsComplete(a, base, NIL_UUID, limit, others, id);
    }
  }
}
