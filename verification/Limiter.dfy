/** The sliding-window gate in front of sign-in and registration. */
module Limiter {
  import opened Domain

  type Key = string
  type Hits = map<Key, seq<Time>>

  /** One request that asks for the gate: `limit` differs by endpoint even where the key is the same. */
  datatype Call = Call(key: Key, at: Time, limit: nat)

  function Stored(hits: Hits, key: Key): seq<Time> {
    if key in hits then hits[key] else []
  }

  /** The hits of the last minute, in their order. */
  function Recent(list: seq<Time>, now: Time): seq<Time> {
    if |list| == 0 then []
    else
      var front, t := Recent(list[..|list| - 1], now), list[|list| - 1];
      if t > now - MINUTE then front + [t] else front
  }

  predicate Admits(hits: Hits, c: Call) {
    |Recent(Stored(hits, c.key), c.at)| < c.limit
  }

  function After(hits: Hits, c: Call): Hits {
    if Admits(hits, c) then hits[c.key := Recent(Stored(hits, c.key), c.at) + [c.at]] else hits
  }

  class Gate {
    var loginHits: Hits

    constructor ()
      ensures loginHits == map[]
    {
      loginHits := map[];
    }

    method GateKey(key: Key, now: Time, n: nat) returns (ok: bool)
      modifies this
      ensures ok <==> Admits(old(loginHits), Call(key, now, n))
      ensures loginHits == After(old(loginHits), Call(key, now, n))
    {
      var cut := now - MINUTE;
      var list := if key in loginHits then loginHits[key] else [];
      var kept: seq<Time> := [];
      for i := 0 to |list|
        invariant kept == Recent(list[..i], now)
      {
        assert list[..i + 1][..i] == list[..i];
        if list[i] > cut {
          kept := kept + [list[i]];
        }
      }
      assert list[..|list|] == list;
      if |kept| >= n {
        return false;
      }
      loginHits := loginHits[key := kept + [now]];
      return true;
    }
  }

  // ----- histories -----

  function HitsAfter(calls: seq<Call>): Hits {
    if |calls| == 0 then map[] else After(HitsAfter(calls[..|calls| - 1]), calls[|calls| - 1])
  }

  /** The times of the calls with this key that were let through. */
  function Accepted(calls: seq<Call>, key: Key): seq<Time> {
    if |calls| == 0 then []
    else
      var front, c := calls[..|calls| - 1], calls[|calls| - 1];
      if c.key == key && Admits(HitsAfter(front), c) then Accepted(front, key) + [c.at] else Accepted(front, key)
  }

  function LargestLimit(calls: seq<Call>, key: Key): nat {
    if |calls| == 0 then 0
    else
      var m, c := LargestLimit(calls[..|calls| - 1], key), calls[|calls| - 1];
      if c.key == key && c.limit > m then c.limit else m
  }

  predicate InOrder(calls: seq<Call>) {
    forall i, j :: 0 <= i < j < |calls| ==> calls[i].at <= calls[j].at
  }

  function Now(calls: seq<Call>): Time {
    if |calls| == 0 then 0 else calls[|calls| - 1].at
  }

  predicate Sorted(times: seq<Time>) {
    forall i, j :: 0 <= i < j < |times| ==> times[i] <= times[j]
  }

  /** `list` is the end of `times`, and what comes before it is at least a minute old. */
  predicate HoldsLastMinute(list: seq<Time>, times: seq<Time>, now: Time) {
    && |list| <= |times|
    && list == times[|times| - |list|..]
    && forall i :: 0 <= i < |times| - |list| ==> times[i] + MINUTE <= now
  }

  predicate AllAfter(times: seq<Time>, limit: int) {
    forall i :: 0 <= i < |times| ==> times[i] > limit
  }

  lemma {:induction false} RecentIsEnd(list: seq<Time>, now: Time)
    requires Sorted(list)
    ensures HoldsLastMinute(Recent(list, now), list, now) && AllAfter(Recent(list, now), now - MINUTE)
  {
    hide HoldsLastMinute, AllAfter;
    if |list| > 0 {
      var front, t := list[..|list| - 1], list[|list| - 1];
      assert list == front + [t];
      RecentIsEnd(front, now);
      OneMoreRecent(Recent(front, now), front, t, now);
    } else {
      NoneRecent(list, now);
    }
  }

  lemma NoneRecent(list: seq<Time>, now: Time)
    requires list == []
    ensures HoldsLastMinute([], list, now) && AllAfter([], now - MINUTE)
  {
  }

  lemma LastIsRecent(recent: seq<Time>, times: seq<Time>, now: Time)
    requires HoldsLastMinute(recent, times, now) && AllAfter(recent, now - MINUTE) && |recent| > 0
    ensures times[|times| - 1] > now - MINUTE
  {
    assert recent[|recent| - 1] == times[|times| - 1];
  }

  lemma OneMoreRecent(recent: seq<Time>, front: seq<Time>, t: Time, now: Time)
    requires Sorted(front + [t]) && HoldsLastMinute(recent, front, now) && AllAfter(recent, now - MINUTE)
    ensures t > now - MINUTE ==> HoldsLastMinute(recent + [t], front + [t], now) && AllAfter(recent + [t], now - MINUTE)
    ensures t <= now - MINUTE ==> HoldsLastMinute(recent, front + [t], now)
  {
    var list := front + [t];
    if t > now - MINUTE {
      assert list[|list| - |recent| - 1..] == recent + [t];
    } else {
      assert forall i :: 0 <= i < |front| ==> list[i] <= list[|front|];
      assert |front| > 0 ==> front[|front| - 1] == list[|front| - 1];
      if |recent| > 0 {
        LastIsRecent(recent, front, now);
        assert false;
      }
    }
  }

  lemma EndOfEnd(inner: seq<Time>, list: seq<Time>, times: seq<Time>, before: Time, now: Time)
    requires HoldsLastMinute(list, times, before) && HoldsLastMinute(inner, list, now) && before <= now
    ensures HoldsLastMinute(inner, times, now)
  {
    var k := |times| - |list|;
    forall i | 0 <= i < |times| - |inner| ensures times[i] + MINUTE <= now {
      if i >= k {
        assert times[i] == list[i - k];
      }
    }
  }

  predicate UpTo(times: seq<Time>, now: Time) {
    Sorted(times) && forall i :: 0 <= i < |times| ==> times[i] <= now
  }

  lemma LaterHoldsToo(list: seq<Time>, times: seq<Time>, now: Time, at: Time)
    requires HoldsLastMinute(list, times, now) && UpTo(times, now) && now <= at
    ensures HoldsLastMinute(list, times, at) && UpTo(times, at)
  {
  }

  lemma NewHitHolds(list: seq<Time>, times: seq<Time>, at: Time)
    requires HoldsLastMinute(list, times, at) && UpTo(times, at)
    ensures HoldsLastMinute(list + [at], times + [at], at) && UpTo(times + [at], at)
  {
    assert (times + [at])[|times| - |list|..] == list + [at];
  }

  /** The stored list never misses an accepted hit of the last minute, and the history is in order. */
  lemma {:induction false} StoredHoldsLastMinute(calls: seq<Call>, key: Key)
    requires InOrder(calls)
    ensures HoldsLastMinute(Stored(HitsAfter(calls), key), Accepted(calls, key), Now(calls))
    ensures UpTo(Accepted(calls, key), Now(calls))
  {
    hide HoldsLastMinute, UpTo, Recent;
    if |calls| > 0 {
      var front, c := calls[..|calls| - 1], calls[|calls| - 1];
      StoredHoldsLastMinute(front, key);
      LaterHoldsToo(Stored(HitsAfter(front), key), Accepted(front, key), Now(front), c.at);
      if c.key == key && Admits(HitsAfter(front), c) {
        RecentOfHistory(front, c);
        NewHitHolds(Recent(Stored(HitsAfter(front), key), c.at), Accepted(front, key), c.at);
      }
    } else {
      assert HoldsLastMinute([], [], 0) && UpTo([], 0) by { NothingHolds(); }
    }
  }

  lemma NothingHolds()
    ensures HoldsLastMinute([], [], 0) && UpTo([], 0)
  {
  }

  /** What the gate counts is the end of the accepted history. */
  lemma RecentOfHistory(front: seq<Call>, c: Call)
    requires HoldsLastMinute(Stored(HitsAfter(front), c.key), Accepted(front, c.key), Now(front)) && Now(front) <= c.at
    requires Sorted(Accepted(front, c.key))
    ensures HoldsLastMinute(Recent(Stored(HitsAfter(front), c.key), c.at), Accepted(front, c.key), c.at)
  {
    hide HoldsLastMinute, Recent, HitsAfter, Accepted;
    var list := Stored(HitsAfter(front), c.key);
    StoredIsSorted(list, Accepted(front, c.key), Now(front));
    RecentIsEnd(list, c.at);
    EndOfEnd(Recent(list, c.at), list, Accepted(front, c.key), Now(front), c.at);
  }

  /** How many of the times fall into the half-open minute that starts at `from`. */
  function InMinute(times: seq<Time>, from: int): nat {
    if |times| == 0 then 0
    else
      var t := times[|times| - 1];
      InMinute(times[..|times| - 1], from) + (if from <= t < from + MINUTE then 1 else 0)
  }

  lemma {:induction false} EarlyOnesDoNotCount(times: seq<Time>, from: int, k: nat)
    requires k <= |times| && forall i :: 0 <= i < k ==> times[i] < from
    ensures InMinute(times, from) <= |times| - k
    decreases |times|
  {
    if |times| > 0 {
      EarlyOnesDoNotCount(times[..|times| - 1], from, if k < |times| then k else k - 1);
    }
  }

  /** Any `limit` + 1 accepted hits in a row span a minute. */
  predicate Spread(times: seq<Time>, limit: nat) {
    forall i :: 0 <= i < |times| - limit ==> times[i] + MINUTE <= times[i + limit]
  }

  lemma {:induction false} SpreadBoundsMinute(times: seq<Time>, limit: nat, from: int)
    requires Sorted(times) && Spread(times, limit)
    ensures InMinute(times, from) <= limit
  {
    if |times| > 0 {
      SpreadBoundsMinute(times[..|times| - 1], limit, from);
      var n, last := |times| - 1, times[|times| - 1];
      if from <= last < from + MINUTE && n >= limit {
        forall i | 0 <= i < n - limit + 1 ensures times[i] < from {
          assert times[i] + MINUTE <= times[i + limit] <= last;
        }
        EarlyOnesDoNotCount(times, from, n - limit + 1);
      } else if n < limit {
        EarlyOnesDoNotCount(times, from, 0);
      }
    }
  }

  lemma NewHitIsSpread(list: seq<Time>, times: seq<Time>, at: Time, limit: nat)
    requires HoldsLastMinute(list, times, at) && Spread(times, limit) && |list| < limit
    ensures Spread(times + [at], limit)
  {
  }

  lemma LargerLimitSpreads(times: seq<Time>, m: nat, n: nat)
    requires Spread(times, m) && Sorted(times) && m <= n
    ensures Spread(times, n)
  {
    forall i | 0 <= i < |times| - n ensures times[i] + MINUTE <= times[i + n] {
      assert times[i] + MINUTE <= times[i + m];
    }
  }

  lemma {:induction false} AcceptedAreSpread(calls: seq<Call>, key: Key)
    requires InOrder(calls)
    ensures Spread(Accepted(calls, key), LargestLimit(calls, key))
  {
    hide HoldsLastMinute, Spread, Recent, HitsAfter;
    if |calls| > 0 {
      var front, c := calls[..|calls| - 1], calls[|calls| - 1];
      AcceptedAreSpread(front, key);
      StoredHoldsLastMinute(front, key);
      LargerLimitSpreads(Accepted(front, key), LargestLimit(front, key), LargestLimit(calls, key));
      assert Now(front) <= c.at;
      if c.key == key && Admits(HitsAfter(front), c) {
        RecentOfHistory(front, c);
        NewHitIsSpread(
          Recent(Stored(HitsAfter(front), key), c.at), Accepted(front, key), c.at, LargestLimit(calls, key));
      }
    } else {
      assert Spread([], 0) by { NothingIsSpread(); }
    }
  }

  lemma NothingIsSpread()
    ensures Spread([], 0)
  {
  }

  /**
   * Along any run with non-decreasing time, no minute sees more accepted hits on a key than the
   * largest limit any call with that key came with.
   */
  lemma MinuteIsBounded(calls: seq<Call>, key: Key, from: int)
    requires InOrder(calls)
    ensures InMinute(Accepted(calls, key), from) <= LargestLimit(calls, key)
  {
    StoredHoldsLastMinute(calls, key);
    AcceptedAreSpread(calls, key);
    SpreadBoundsMinute(Accepted(calls, key), LargestLimit(calls, key), from);
  }

  /** And nobody is refused without cause: a call passes exactly when the last minute holds fewer than its limit. */
  lemma AdmittedIff(calls: seq<Call>, c: Call)
    requires InOrder(calls) && Now(calls) <= c.at
    ensures Admits(HitsAfter(calls), c) <==> InMinute(Accepted(calls, c.key), c.at - MINUTE + 1) < c.limit
  {
    hide HoldsLastMinute, Recent, HitsAfter, Accepted, InMinute, InOrder;
    StoredHoldsLastMinute(calls, c.key);
    RecentOfHistory(calls, c);
    StoredIsSorted(Stored(HitsAfter(calls), c.key), Accepted(calls, c.key), Now(calls));
    RecentIsEnd(Stored(HitsAfter(calls), c.key), c.at);
    EndIsCount(Recent(Stored(HitsAfter(calls), c.key), c.at), Accepted(calls, c.key), c.at);
  }

  lemma StoredIsSorted(list: seq<Time>, times: seq<Time>, now: Time)
    requires HoldsLastMinute(list, times, now) && Sorted(times)
    ensures Sorted(list)
  {
  }

  lemma {:induction false} EndIsCount(list: seq<Time>, times: seq<Time>, now: Time)
    requires HoldsLastMinute(list, times, now) && UpTo(times, now)
    requires AllAfter(list, now - MINUTE)
    ensures InMinute(times, now - MINUTE + 1) == |list|
    decreases |times|
  {
    if |list| > 0 {
      var front, ahead := list[..|list| - 1], times[..|times| - 1];
      assert ahead[|ahead| - |front|..] == front;
      assert list[|list| - 1] == times[|times| - 1];
      EndIsCount(front, ahead, now);
    } else {
      EarlyOnesDoNotCount(times, now - MINUTE + 1, |times|);
    }
  }
}
