/**
  The verdict on a transaction, on which handle_lock_release waits (raft.c:88-104,
  server.c:55-68): committed, lost, or not known yet.
*/
module Verdict {
  import opened RaftTypes
  import opened ServerSpec
  import opened TermLogs

  const COMMITTED := 1
  const LOST := -1
  const OPEN := 0

  predicate Is(e: Entry, term: int, id: int) {
    e.term == term && e.id == id
  }

  predicate Contains(log: Log, term: int, id: int) {
    exists k :: 0 <= k < |log| && Is(log[k], term, id)
  }

  /** No sorted log that begins with the prefix holds the entry. */
  ghost predicate NeverIn(prefix: Log, term: int, id: int) {
    forall more: Log :: Sorted(prefix + more) ==> !Contains(prefix + more, term, id)
  }

  /** Raft_is_entry_committed from slot k of the window on, whose first `committed` slots are committed. */
  function Scan(log: Log, committed: int, term: int, id: int, k: nat): int
    requires k <= |log|
    decreases |log| - k
  {
    if k == |log| then OPEN
    else if Is(log[k], term, id) then if k < committed then COMMITTED else OPEN
    else if log[k].term > term then if k < committed then LOST else OPEN
    else Scan(log, committed, term, id, k + 1)
  }

  function VerdictOf(s: Server, term: int, id: int): int {
    Scan(s.log, s.commit - s.start + 1, term, id, 0)
  }

  /** What the scan finds, if it has found nothing before slot k. */
  lemma {:induction false} ScanFinds(log: Log, committed: nat, term: int, id: int, k: nat)
    requires Sorted(log) && k <= |log| && committed <= |log|
    requires forall j :: 0 <= j < k ==> !Is(log[j], term, id) && log[j].term <= term
    ensures Scan(log, committed, term, id, k) == COMMITTED <==> Contains(log[..committed], term, id)
    ensures Scan(log, committed, term, id, k) == LOST
       <==> !Contains(log[..committed], term, id) && exists j :: 0 <= j < committed && log[j].term > term
    ensures Scan(log, committed, term, id, k) in {COMMITTED, LOST, OPEN}
    decreases |log| - k
  {
    if k < |log| {
      if Is(log[k], term, id) {
        assert k < committed ==> log[..committed][k] == log[k];
      } else if log[k].term > term {
        assert forall j :: k <= j < |log| ==> log[j].term > term;
      } else {
        ScanFinds(log, committed, term, id, k + 1);
      }
    }
  }

  /** The entry can still come exactly if it is there, or no committed term is beyond its term. */
  lemma NeverInIff(prefix: Log, term: int, id: int)
    requires Sorted(prefix)
    ensures NeverIn(prefix, term, id)
       <==> !Contains(prefix, term, id) && exists j :: 0 <= j < |prefix| && prefix[j].term > term
  {
    if Contains(prefix, term, id) {
      assert prefix + [] == prefix;
      assert !NeverIn(prefix, term, id);
    } else if j :| 0 <= j < |prefix| && prefix[j].term > term {
      forall more: Log | Sorted(prefix + more)
        ensures !Contains(prefix + more, term, id)
      {
        forall k | 0 <= k < |prefix + more|
          ensures !Is((prefix + more)[k], term, id)
        {
          assert k < |prefix| ==> (prefix + more)[k] == prefix[k];
          assert (prefix + more)[j] == prefix[j];
        }
      }
    } else {
      var more := [Entry(term, ClientLog, id, 0, [])];
      assert Sorted(prefix + more);
      assert Is((prefix + more)[|prefix|], term, id);
    }
  }

  /**
    The verdict is exact for a window that begins at position 0: committed if and
    only if the entry is in the committed prefix, lost if and only if no sorted
    log with that committed prefix can ever hold it.
  */
  lemma VerdictExact(s: Server, term: int, id: int)
    requires s.start == 0 && -1 <= s.commit < |s.log| && Sorted(s.log)
    ensures VerdictOf(s, term, id) == COMMITTED <==> Contains(s.log[..s.commit + 1], term, id)
    ensures VerdictOf(s, term, id) == LOST <==> NeverIn(s.log[..s.commit + 1], term, id)
    ensures VerdictOf(s, term, id) in {COMMITTED, LOST, OPEN}
  {
    var prefix := s.log[..s.commit + 1];
    ScanFinds(s.log, s.commit + 1, term, id, 0);
    NeverInIff(prefix, term, id);
    assert forall j :: 0 <= j < |prefix| ==> prefix[j] == s.log[j];
  }

  /** A client's transaction with the pair, and not an entry that opened a tenure. */
  predicate ContainsOwn(log: Log, term: int, id: int) {
    exists k :: 0 <= k < |log| && Is(log[k], term, id) && log[k].kind.ClientLog?
  }

  const E_LOST := -9

  /** What the release makes of the verdicts that it gets: of the first that is not open. */
  function Awaited(answers: seq<int>): Option<int> {
    if answers == [] then None
    else if answers[0] == OPEN then Awaited(answers[1..])
    else Some(if answers[0] == COMMITTED then 0 else E_LOST)
  }

  /** The release ends with the first verdict that is not open, and tells committed from lost. */
  lemma {:induction false} AwaitedMeans(answers: seq<int>)
    requires forall k :: 0 <= k < |answers| ==> answers[k] in {COMMITTED, LOST, OPEN}
    ensures Awaited(answers).None? <==> forall k :: 0 <= k < |answers| ==> answers[k] == OPEN
    ensures Awaited(answers) == Some(0) ==> COMMITTED in answers
    ensures Awaited(answers) == Some(E_LOST) ==> LOST in answers
    ensures Awaited(answers).Some? ==> Awaited(answers).value in {0, E_LOST}
  {
    if answers != [] && answers[0] == OPEN {
      AwaitedMeans(answers[1..]);
      assert answers == [answers[0]] + answers[1..];
    }
  }

  /** It is the first verdict that is not open which decides. */
  lemma AwaitedIsFirst(answers: seq<int>, k: nat)
    requires k < |answers| && answers[k] != OPEN && forall j :: 0 <= j < k ==> answers[j] == OPEN
    ensures Awaited(answers) == Some(if answers[k] == COMMITTED then 0 else E_LOST)
  {
    AwaitedAfter(answers, k);
  }

  lemma AwaitedAfter(answers: seq<int>, k: nat)
    requires k <= |answers| && forall j :: 0 <= j < k ==> answers[j] == OPEN
    ensures Awaited(answers) == Awaited(answers[k..])
    decreases k
  {
    if k > 0 {
      AwaitedAfter(answers[1..], k - 1);
      assert answers[1..][k - 1..] == answers[k..];
    } else {
      assert answers[0..] == answers;
    }
  }

  /** The loop at the end of handle_lock_release; `answers` are the verdicts that it will get. */
  method AwaitVerdict(answers: seq<int>) returns (rc: Option<int>)
    ensures rc == Awaited(answers)
  {
    var k := 0;
    while k < |answers| && answers[k] == OPEN
      invariant 0 <= k <= |answers|
      invariant forall j :: 0 <= j < k ==> answers[j] == OPEN
    {
      k := k + 1;
    }
    AwaitedAfter(answers, k);
    if k == |answers| {
      return None;
    }
    rc := Some(if answers[k] == COMMITTED then 0 else E_LOST);
  }

  // ---------------------------------------------------------------------------
  // After compaction

  /**
    With `below` the committed entries that a compaction has dropped, the verdict
    "lost" is wrong exactly for an entry that lies only there, once an entry of a
    later term is committed in the window.
  */
  lemma LostThoughCommittedIff(s: Server, below: Log, term: int, id: int)
    requires s.start == |below| && s.start - 1 <= s.commit < s.LogCount() && Sorted(below + s.log)
    ensures var committed := s.log[..s.commit + 1 - s.start];
      VerdictOf(s, term, id) == LOST && Contains(below + committed, term, id)
      <==> Contains(below, term, id) && !Contains(committed, term, id)
           && exists j :: 0 <= j < |committed| && committed[j].term > term
  {
    var committed := s.log[..s.commit + 1 - s.start];
    WindowSorted(s, below);
    ScanOfCommitted(s.log, committed, term, id);
    ContainsConcat(below, committed, term, id);
  }

  /**
    A committed entry is found so exactly if the window still holds it; otherwise
    the verdict stays open, exactly until an entry of a later term is committed.
  */
  lemma CommittedIffInWindow(s: Server, below: Log, term: int, id: int)
    requires s.start == |below| && s.start - 1 <= s.commit < s.LogCount() && Sorted(below + s.log)
    requires Contains(below + s.log[..s.commit + 1 - s.start], term, id)
    ensures var committed := s.log[..s.commit + 1 - s.start];
      && (VerdictOf(s, term, id) == COMMITTED <==> Contains(committed, term, id))
      && (VerdictOf(s, term, id) == OPEN
          <==> !Contains(committed, term, id) && forall j :: 0 <= j < |committed| ==> committed[j].term <= term)
  {
    var committed := s.log[..s.commit + 1 - s.start];
    WindowSorted(s, below);
    ScanOfCommitted(s.log, committed, term, id);
  }

  /** What the whole scan finds, in terms of the committed part of the window alone. */
  lemma ScanOfCommitted(log: Log, committed: Log, term: int, id: int)
    requires Sorted(log) && committed <= log
    ensures Scan(log, |committed|, term, id, 0) == COMMITTED <==> Contains(committed, term, id)
    ensures Scan(log, |committed|, term, id, 0) == LOST
       <==> !Contains(committed, term, id) && exists j :: 0 <= j < |committed| && committed[j].term > term
    ensures Scan(log, |committed|, term, id, 0) in {COMMITTED, LOST, OPEN}
  {
    ScanFinds(log, |committed|, term, id, 0);
    assert log[..|committed|] == committed;
    if j :| 0 <= j < |committed| && log[j].term > term {
      assert committed[j].term > term;
    }
  }

  lemma WindowSorted(s: Server, below: Log)
    requires Sorted(below + s.log)
    ensures Sorted(s.log)
  {
    forall i, j | 0 <= i <= j < |s.log|
      ensures s.log[i].term <= s.log[j].term
    {
      assert (below + s.log)[|below| + i] == s.log[i] && (below + s.log)[|below| + j] == s.log[j];
    }
  }

  lemma ContainsConcat(a: Log, b: Log, term: int, id: int)
    ensures Contains(a + b, term, id) <==> Contains(a, term, id) || Contains(b, term, id)
  {
    if Contains(a + b, term, id) {
      var k :| 0 <= k < |a + b| && Is((a + b)[k], term, id);
      assert k >= |a| ==> Is(b[k - |a|], term, id);
    }
    if Contains(a, term, id) {
      var k :| 0 <= k < |a| && Is(a[k], term, id);
      assert Is((a + b)[k], term, id);
    }
    if Contains(b, term, id) {
      var k :| 0 <= k < |b| && Is(b[k], term, id);
      assert Is((a + b)[|a| + k], term, id);
    }
  }
}
