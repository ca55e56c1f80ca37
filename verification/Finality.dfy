/**
  Verdicts are final: what one server has answered about a transaction stays
  right at every server and every later moment, over every run of the cluster
  without compaction or install.
*/
module Finality {
  import opened RaftTypes
  import opened ServerSpec
  import opened Cluster
  import opened TermLogs
  import opened LogMatching
  import opened StateMachineSafety
  import opened SortedTerms
  import opened Openings
  import opened Verdict

  /** The prefix that server i has committed. */
  function CommittedOf(s: Server): Log
    requires -1 <= s.commit < |s.log|
  {
    s.log[..s.commit + 1]
  }

  lemma StateFacts(capacity: nat, states: seq<Cluster>, actions: seq<Action>, n: nat, i: Id)
    requires IsWholeLogRun(STRICT, capacity, states, actions) && n < |states|
    ensures var s := states[n].servers[i]; s.start == 0 && -1 <= s.commit < |s.log| && Sorted(s.log)
  {
    RunKeepsLogs(STRICT, capacity, states, actions, n);
    CommitInsideLog(capacity, states, actions, n, i);
    SortedTermsHold(STRICT, capacity, states, actions, n);
  }

  lemma SameEntries(capacity: nat, states: seq<Cluster>, actions: seq<Action>, m: nat, n: nat, i: Id, j: Id, k: nat)
    requires IsWholeLogRun(STRICT, capacity, states, actions) && m < |states| && n < |states|
    requires k <= states[m].servers[i].commit && k <= states[n].servers[j].commit
    ensures var (a, b) := (states[m].servers[i].log, states[n].servers[j].log);
      k < |a| && k < |b| && forall p :: 0 <= p <= k ==> a[p] == b[p]
  {
    StateMachineSafetyHolds(capacity, states, actions, m, n, i, j, k);
    var (a, b) := (states[m].servers[i].log[..k + 1], states[n].servers[j].log[..k + 1]);
    forall p | 0 <= p <= k
      ensures states[m].servers[i].log[p] == states[n].servers[j].log[p]
    {
      assert a[p] == b[p];
    }
  }

  lemma SameIn(a: Log, b: Log, term: int, id: int)
    requires |a| <= |b| && (forall p :: 0 <= p < |a| ==> a[p] == b[p])
    requires Contains(a, term, id)
    ensures Contains(b, term, id)
  {
    var k :| 0 <= k < |a| && Is(a[k], term, id);
    assert Is(b[k], term, id);
  }

  /** If one server has found the entry committed, so does every server that has come as far, at any moment. */
  lemma CommittedIsFinal(capacity: nat, states: seq<Cluster>, actions: seq<Action>,
                         m: nat, i: Id, n: nat, j: Id, term: int, id: int)
    requires IsWholeLogRun(STRICT, capacity, states, actions) && m < |states| && n < |states|
    requires VerdictOf(states[m].servers[i], term, id) == COMMITTED
    requires states[n].servers[j].commit >= states[m].servers[i].commit
    ensures VerdictOf(states[n].servers[j], term, id) == COMMITTED
  {
    var (a, b) := (states[m].servers[i], states[n].servers[j]);
    StateFacts(capacity, states, actions, m, i);
    StateFacts(capacity, states, actions, n, j);
    VerdictExact(a, term, id);
    VerdictExact(b, term, id);
    if a.commit >= 0 {
      SameEntries(capacity, states, actions, m, n, i, j, a.commit);
    }
    SameIn(CommittedOf(a), CommittedOf(b), term, id);
  }

  /** If one server has found the entry lost, no server has it committed, before or ever after. */
  lemma LostIsFinal(capacity: nat, states: seq<Cluster>, actions: seq<Action>,
                    m: nat, i: Id, n: nat, j: Id, term: int, id: int)
    requires IsWholeLogRun(STRICT, capacity, states, actions) && m < |states| && n < |states|
    requires VerdictOf(states[m].servers[i], term, id) == LOST
    ensures VerdictOf(states[n].servers[j], term, id) != COMMITTED
  {
    var (a, b) := (states[m].servers[i], states[n].servers[j]);
    StateFacts(capacity, states, actions, m, i);
    StateFacts(capacity, states, actions, n, j);
    VerdictExact(a, term, id);
    VerdictExact(b, term, id);
    if Contains(CommittedOf(b), term, id) {
      var k :| 0 <= k < |CommittedOf(b)| && Is(CommittedOf(b)[k], term, id);
      var low := if k <= a.commit then k else a.commit;
      if low >= 0 {
        SameEntries(capacity, states, actions, m, n, i, j, low);
      }
      SharedPrefixFinds(CommittedOf(a), CommittedOf(b), low + 1, k, term, id);
    }
  }

  /** A log that shares a prefix with `a` and holds the entry at k, when `a` is all prefix or reaches k. */
  lemma SharedPrefixFinds(a: Log, b: Log, n: nat, k: nat, term: int, id: int)
    requires Sorted(a) && Sorted(b) && k < |b| && Is(b[k], term, id) && n <= |a| && n <= |b|
    requires (forall p :: 0 <= p < n ==> a[p] == b[p]) && (k < n || n == |a|)
    ensures !NeverIn(a, term, id)
  {
    if k < n {
      assert a + [] == a;
      assert Is((a + [])[k], term, id);
    } else {
      assert a + b[n..] == b;
      assert Is((a + b[n..])[k], term, id);
    }
  }

  /** The verdicts that server i gives on the entry at the moments `polls`. */
  function Polled(states: seq<Cluster>, i: Id, polls: seq<nat>, term: int, id: int): (answers: seq<int>)
    requires (forall n :: 0 <= n < |states| ==> states[n].Shaped())
    requires forall p :: 0 <= p < |polls| ==> polls[p] < |states|
    ensures |answers| == |polls|
  {
    seq(|polls|, p requires 0 <= p < |polls| && polls[p] < |states| && states[polls[p]].Shaped() =>
      VerdictOf(states[polls[p]].servers[i], term, id))
  }

  /**
    What handle_lock_release answers is final: if it polls server i at any moments
    of a run and returns 0, then no server ever finds the transaction lost, and
    every server that comes as far as server i had come at some moment m finds it
    committed; if it returns E_LOST, no server ever has it committed. What is
    committed is a client's transaction, if the term did not open with this id.
  */
  lemma ReleaseIsFinal(capacity: nat, states: seq<Cluster>, actions: seq<Action>, i: Id, polls: seq<nat>,
                       term: int, id: int, n: nat, j: Id) returns (m: nat)
    requires IsWholeLogRun(STRICT, capacity, states, actions) && n < |states|
    requires forall p :: 0 <= p < |polls| ==> polls[p] < |states|
    ensures m < |states|
    ensures Awaited(Polled(states, i, polls, term, id)) == Some(0) ==>
      VerdictOf(states[m].servers[i], term, id) == COMMITTED && VerdictOf(states[n].servers[j], term, id) != LOST
    ensures Awaited(Polled(states, i, polls, term, id)) == Some(0) ==>
      states[n].servers[j].commit < states[m].servers[i].commit || VerdictOf(states[n].servers[j], term, id) == COMMITTED
    ensures Awaited(Polled(states, i, polls, term, id)) == Some(0) ==>
      var s := states[m].servers[i];
      -1 <= s.commit < |s.log|
      && (OpenedWith(states[m].h.termLog, term, id) || ContainsOwn(CommittedOf(s), term, id))
    ensures Awaited(Polled(states, i, polls, term, id)) == Some(E_LOST) ==>
      VerdictOf(states[n].servers[j], term, id) != COMMITTED
  {
    var answers := Polled(states, i, polls, term, id);
    VerdictsKnown(capacity, states, actions, i, polls, term, id);
    AwaitedMeans(answers);
    m := n;
    if Awaited(answers) == Some(0) {
      var p :| 0 <= p < |answers| && answers[p] == COMMITTED;
      m := polls[p];
      CommittedIsOwn(capacity, states, actions, m, i, term, id);
      if VerdictOf(states[n].servers[j], term, id) == LOST {
        LostIsFinal(capacity, states, actions, n, j, m, i, term, id);
      }
      if states[n].servers[j].commit >= states[m].servers[i].commit {
        CommittedIsFinal(capacity, states, actions, m, i, n, j, term, id);
      }
    } else if Awaited(answers) == Some(E_LOST) {
      var p :| 0 <= p < |answers| && answers[p] == LOST;
      LostIsFinal(capacity, states, actions, polls[p], i, n, j, term, id);
    }
  }

  /** The log and the family of terms that the verdict is about. */
  ghost predicate Settled(s: Server, tl: Family) {
    s.start == 0 && -1 <= s.commit < |s.log| && Sorted(s.log) && Matched(s.log, tl) && AllOpened(tl)
  }

  lemma RunSettled(capacity: nat, states: seq<Cluster>, actions: seq<Action>, m: nat, i: Id)
    requires IsWholeLogRun(STRICT, capacity, states, actions) && m < |states|
    ensures Settled(states[m].servers[i], states[m].h.termLog)
  {
    StateFacts(capacity, states, actions, m, i);
    RunKeepsLogs(STRICT, capacity, states, actions, m);
    TermsOpenOnce(STRICT, capacity, states, actions, m);
    assert Fits(states[m].servers[i], states[m].h.termLog);
  }

  /** The server has committed the entry that opened term t at o. */
  predicate OpeningCommitted(s: Server, t: int, o: nat) {
    o <= s.commit < |s.log| && s.log[o].term == t
  }

  lemma VerdictAtOpening(s: Server, tl: Family, t: int, id: int, o: nat)
    requires Settled(s, tl) && t in tl && OpensAt(tl[t], t, o)
    ensures VerdictOf(s, t, id) == COMMITTED
       <==> if tl[t][o].id == id then OpeningCommitted(s, t, o) else ContainsOwn(CommittedOf(s), t, id)
  {
    var prefix := CommittedOf(s);
    VerdictExact(s, t, id);
    forall k | 0 <= k < |prefix| && prefix[k].term == t
      ensures o <= k && prefix[o] == tl[t][o] && (prefix[k].kind.LeaderLog? <==> k == o)
    {
      EntryOfTerm(s.log, tl, t, o, k);
    }
    if OpeningCommitted(s, t, o) {
      assert prefix[o].term == t;
      assert tl[t][o].id == id ==> Is(prefix[o], t, id);
    }
  }

  /**
    What a committed verdict on (t, id) means at any moment of a run, when the
    entry that opened term t is at position o of its leader's log: if that entry
    has another id, that a client's transaction is committed; if it has this id,
    that the opening entry is committed, whatever has become of the client's.
  */
  lemma VerdictByOpening(capacity: nat, states: seq<Cluster>, actions: seq<Action>, m: nat, i: Id, t: int, id: int, o: nat)
    requires IsWholeLogRun(STRICT, capacity, states, actions) && m < |states|
    requires t in states[m].h.termLog && OpensAt(states[m].h.termLog[t], t, o)
    ensures var s := states[m].servers[i];
      && -1 <= s.commit < |s.log|
      && (VerdictOf(s, t, id) == COMMITTED
          <==> if states[m].h.termLog[t][o].id == id then OpeningCommitted(s, t, o) else ContainsOwn(CommittedOf(s), t, id))
  {
    RunSettled(capacity, states, actions, m, i);
    VerdictAtOpening(states[m].servers[i], states[m].h.termLog, t, id, o);
  }

  lemma CommittedIsOwn(capacity: nat, states: seq<Cluster>, actions: seq<Action>, m: nat, i: Id, term: int, id: int)
    requires IsWholeLogRun(STRICT, capacity, states, actions) && m < |states|
    requires VerdictOf(states[m].servers[i], term, id) == COMMITTED
    ensures var s := states[m].servers[i];
      -1 <= s.commit < |s.log|
      && (OpenedWith(states[m].h.termLog, term, id) || ContainsOwn(CommittedOf(s), term, id))
  {
    RunSettled(capacity, states, actions, m, i);
    CommittedAtOpening(states[m].servers[i], states[m].h.termLog, term, id);
  }

  lemma CommittedAtOpening(s: Server, tl: Family, term: int, id: int)
    requires Settled(s, tl) && VerdictOf(s, term, id) == COMMITTED
    ensures OpenedWith(tl, term, id) || ContainsOwn(CommittedOf(s), term, id)
  {
    var prefix := CommittedOf(s);
    VerdictExact(s, term, id);
    var k: nat :| k < |prefix| && Is(prefix[k], term, id);
    assert s.log[k] == prefix[k];
    assert MatchedAt(s.log, k, tl);
    assert Opened(tl, term);
    var o: nat :| OpensAt(tl[term], term, o);
    VerdictAtOpening(s, tl, term, id, o);
  }

  lemma VerdictsKnown(capacity: nat, states: seq<Cluster>, actions: seq<Action>, i: Id, polls: seq<nat>, term: int, id: int)
    requires IsWholeLogRun(STRICT, capacity, states, actions)
    requires forall p :: 0 <= p < |polls| ==> polls[p] < |states|
    ensures var answers := Polled(states, i, polls, term, id);
      forall p :: 0 <= p < |answers| ==> answers[p] in {COMMITTED, LOST, OPEN}
  {
    var answers := Polled(states, i, polls, term, id);
    forall p | 0 <= p < |answers|
      ensures answers[p] in {COMMITTED, LOST, OPEN}
    {
      StateFacts(capacity, states, actions, polls[p], i);
      VerdictExact(states[polls[p]].servers[i], term, id);
    }
  }
}
