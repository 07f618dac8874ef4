/** The event history as a program: replaying it yields the state of every clip that ever existed. */
module EventLog {
  import opened Domain

  datatype Phase = Live | Binned | Gone

  datatype Life = Life(phase: Phase, version: nat, createdSeq: nat, lastSeq: nat, expiresAt: Option<Time>)

  type Lives = map<Uuid, Life>

  /** One event on one life; None marks an event the lifecycle does not allow. */
  function Advance(l: Life, e: Event): Option<Life> {
    if e.version != l.version + 1 then None
    else match e.kind {
      case Created => None
      case Trashed =>
        if l.phase == Live then
          Some(Life(Binned, e.version, l.createdSeq, e.seqNo, Some(e.occurredAt + TRASH_PERIOD)))
        else None
      case Restored =>
        if l.phase == Binned && l.expiresAt.Some? && e.occurredAt < l.expiresAt.value then
          Some(Life(Live, e.version, l.createdSeq, e.seqNo, None))
        else None
      case Purged =>
        if l.phase == Binned then Some(Life(Gone, e.version, l.createdSeq, e.seqNo, None)) else None
    }
  }

  function Apply(lives: Lives, e: Event): Option<Lives> {
    if e.clipId !in lives then
      if e.kind == Created && e.version == 1 then
        Some(lives[e.clipId := Life(Live, 1, e.seqNo, e.seqNo, None)])
      else None
    else
      var l := Advance(lives[e.clipId], e);
      if l.Some? then Some(lives[e.clipId := l.value]) else None
  }

  function Replay(log: seq<Event>): Option<Lives> {
    if |log| == 0 then Some(map[])
    else
      var before := Replay(log[..|log| - 1]);
      if before.Some? then Apply(before.value, log[|log| - 1]) else None
  }

  predicate Numbered(log: seq<Event>) {
    forall i :: 0 <= i < |log| ==> log[i].seqNo == i + 1
  }

  lemma ReplayAppend(log: seq<Event>, e: Event)
    requires Replay(log).Some?
    ensures Replay(log + [e]) == Apply(Replay(log).value, e)
  {
    assert (log + [e])[..|log|] == log;
  }

  /** Every prefix of a legal history is legal. */
  lemma {:induction false} PrefixReplays(log: seq<Event>, n: nat)
    requires n <= |log| && Replay(log).Some?
    ensures Replay(log[..n]).Some?
    decreases |log|
  {
    if n < |log| {
      var shorter := log[..|log| - 1];
      PrefixReplays(shorter, n);
      assert shorter[..n] == log[..n];
    } else {
      assert log[..n] == log;
    }
  }

  function EventsOf(log: seq<Event>, id: Uuid): nat {
    if |log| == 0 then 0
    else EventsOf(log[..|log| - 1], id) + if log[|log| - 1].clipId == id then 1 else 0
  }

  /** A life's version counts its events, and its last_seq is the number of the newest of them. */
  lemma {:induction false} LifeSummarises(log: seq<Event>, id: Uuid)
    requires Replay(log).Some? && Numbered(log)
    ensures id in Replay(log).value <==> EventsOf(log, id) > 0
    ensures id in Replay(log).value ==>
      var l := Replay(log).value[id];
      && l.version == EventsOf(log, id)
      && 1 <= l.createdSeq <= l.lastSeq <= |log|
      && log[l.createdSeq - 1] == Event(l.createdSeq, id, Created, 1, log[l.createdSeq - 1].occurredAt)
      && log[l.lastSeq - 1].clipId == id && log[l.lastSeq - 1].version == l.version
      && (l.phase == Gone ==> l.createdSeq < l.lastSeq)
      && forall i :: l.lastSeq <= i < |log| ==> log[i].clipId != id
  {
    if |log| > 0 {
      LifeSummarises(log[..|log| - 1], id);
    }
  }

  /** Versions of one clip are 1, 2, 3, ... in log order, so no version is reached twice. */
  lemma {:induction false} VersionsCount(log: seq<Event>, i: nat)
    requires i < |log| && Replay(log).Some? && Numbered(log)
    ensures log[i].version == EventsOf(log[..i], log[i].clipId) + 1
    ensures log[i].kind == Created <==> log[i].version == 1
  {
    var upTo := log[..i + 1];
    PrefixReplays(log, i + 1);
    assert upTo[..i] == log[..i] && upTo[i] == log[i];
    LifeSummarises(log[..i], log[i].clipId);
  }

  lemma {:induction false} EventsOfGrows(log: seq<Event>, id: Uuid, i: nat, j: nat)
    requires i <= j <= |log|
    ensures EventsOf(log[..i], id) <= EventsOf(log[..j], id)
    decreases j
  {
    if i < j {
      assert log[..j][..j - 1] == log[..j - 1];
      EventsOfGrows(log, id, i, j - 1);
    }
  }

  lemma VersionUsedOnce(log: seq<Event>, i: nat, j: nat)
    requires i < j < |log| && Replay(log).Some? && Numbered(log) && log[i].clipId == log[j].clipId
    ensures log[i].version < log[j].version
  {
    VersionsCount(log, i);
    VersionsCount(log, j);
    assert log[..i + 1][..i] == log[..i];
    EventsOfGrows(log, log[i].clipId, i + 1, j);
  }
}
