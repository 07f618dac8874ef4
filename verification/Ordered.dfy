/** ORDER BY for finite sets of numbers. */
module Ordered {
  predicate IsLeast(s: set<nat>, m: nat) {
    m in s && forall x :: x in s ==> m <= x
  }

  lemma {:induction false} LeastExists(s: set<nat>)
    requires s != {}
    ensures exists m :: IsLeast(s, m)
  {
    var y :| y in s;
    var rest := s - {y};
    if rest == {} {
      forall x | x in s ensures y <= x {
        assert x in rest || x == y;
      }
      assert IsLeast(s, y);
    } else {
      LeastExists(rest);
      var m :| IsLeast(rest, m);
      var z := if m < y then m else y;
      forall x | x in s ensures z <= x {
        assert x == y || x in rest;
      }
      assert IsLeast(s, z);
    }
  }

  ghost function Least(s: set<nat>): (m: nat)
    requires s != {}
    ensures IsLeast(s, m)
  {
    LeastExists(s);
    var m :| IsLeast(s, m);
    m
  }

  ghost function Ascending(s: set<nat>): seq<nat> {
    if s == {} then [] else [Least(s)] + Ascending(s - {Least(s)})
  }

  predicate StrictlyIncreasing(ids: seq<nat>) {
    forall i, j :: 0 <= i < j < |ids| ==> ids[i] < ids[j]
  }

  ghost predicate Enumerates(ids: seq<nat>, s: set<nat>) {
    forall x :: x in ids <==> x in s
  }

  /** Ascending lists every element once, in order. */
  lemma {:induction false} AscendingIsSorted(s: set<nat>)
    ensures Enumerates(Ascending(s), s)
    ensures |Ascending(s)| == |s|
    ensures StrictlyIncreasing(Ascending(s))
  {
    if s != {} {
      var m := Least(s);
      var rest := Ascending(s - {m});
      AscendingIsSorted(s - {m});
      ConsIsSorted(m, rest, s);
    }
  }

  lemma ConsIsSorted(m: nat, rest: seq<nat>, s: set<nat>)
    requires IsLeast(s, m) && Enumerates(rest, s - {m}) && StrictlyIncreasing(rest)
    ensures Enumerates([m] + rest, s) && StrictlyIncreasing([m] + rest)
  {
    var ids := [m] + rest;
    forall i, j | 0 <= i < j < |ids| ensures ids[i] < ids[j] {
      assert ids[j] == rest[j - 1] && rest[j - 1] in rest;
      if i > 0 {
        assert ids[i] == rest[i - 1];
      }
    }
    forall x ensures x in ids <==> x in s {
      assert x in ids <==> x == m || x in rest;
    }
  }

  function Backwards(ids: seq<nat>): seq<nat> {
    seq(|ids|, i requires 0 <= i < |ids| => ids[|ids| - 1 - i])
  }

  ghost function Descending(s: set<nat>): seq<nat> {
    Backwards(Ascending(s))
  }

  predicate StrictlyDecreasing(ids: seq<nat>) {
    forall i, j :: 0 <= i < j < |ids| ==> ids[i] > ids[j]
  }

  /** Descending lists every element once, in falling order. */
  lemma DescendingIsSorted(s: set<nat>)
    ensures Enumerates(Descending(s), s)
    ensures |Descending(s)| == |s|
    ensures StrictlyDecreasing(Descending(s))
  {
    AscendingIsSorted(s);
    var up, down := Ascending(s), Descending(s);
    forall x ensures x in down <==> x in up {
      if x in up {
        var i :| 0 <= i < |up| && up[i] == x;
        assert down[|up| - 1 - i] == x;
      }
    }
  }
}
