/** What the two paged walks share: the turns other devices take between pages, and the rows collected. */
module Paging {
  import opened Domain
  import opened Accounts
  import opened Invariant
  import opened Runs

  function Rest(others: seq<seq<Action>>): seq<seq<Action>> {
    if |others| == 0 then [] else others[1..]
  }

  /** The state the next page is read from; once the turns are used up, the server is quiet. */
  ghost function Next(a: Account, others: seq<seq<Action>>): Account {
    if |others| == 0 then a else Run(a, others[0])
  }

  lemma NextFollows(a: Account, others: seq<seq<Action>>)
    requires Inv(a)
    ensures Follows(a, Next(a, others))
  {
    if |others| == 0 {
      FollowsItself(a);
    } else {
      RunFollows(a, others[0]);
    }
  }

  predicate Contains(items: seq<Clip>, id: Uuid) {
    exists i :: 0 <= i < |items| && items[i].env.id == id
  }

  lemma ContainsEither(items: seq<Clip>, rest: seq<Clip>, id: Uuid)
    requires Contains(items, id) || Contains(rest, id)
    ensures Contains(items + rest, id)
  {
    if Contains(items, id) {
      var i :| 0 <= i < |items| && items[i].env.id == id;
      assert (items + rest)[i].env.id == id;
    } else {
      var i :| 0 <= i < |rest| && rest[i].env.id == id;
      assert (items + rest)[|items| + i].env.id == id;
    }
  }
}
