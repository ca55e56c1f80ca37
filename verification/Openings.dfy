/**
  Every term begins with one entry of its own, over every run of the cluster
  without compaction or install: the leader of the term opens it with a leader's
  entry, and everything after that is from clients.
*/
module Openings {
  import opened RaftTypes
  import opened ServerSpec
  import opened Cluster
  import opened Elections
  import opened TermLogs
  import opened LogMatching

  /** In the log of the leader of term t, the entries of t begin at o, and only the one at o is a leader's. */
  ghost predicate OpensAt(log: Log, t: int, o: nat) {
    && o < |log| && log[o].kind.LeaderLog?
    && (forall k :: 0 <= k < |log| ==> (log[k].term == t <==> o <= k))
    && (forall k :: o < k < |log| ==> log[k].kind.ClientLog?)
  }

  ghost predicate Opened(tl: Family, t: int) {
    t in tl && exists o: nat :: OpensAt(tl[t], t, o)
  }

  ghost predicate AllOpened(tl: Family) {
    forall t :: t in tl ==> Opened(tl, t)
  }

  /** Term t opened with an entry of this id. */
  ghost predicate OpenedWith(tl: Family, t: int, id: int) {
    t in tl && exists o: nat :: OpensAt(tl[t], t, o) && tl[t][o].id == id
  }

  lemma OneOpening(log: Log, t: int, o: nat, p: nat)
    requires OpensAt(log, t, o) && OpensAt(log, t, p)
    ensures o == p
  {
    assert log[o].term == t && log[p].term == t;
  }

  // ---------------------------------------------------------------------------
  // Every step keeps it

  lemma WinOpens(tl: Family, log: Log, t: int, e: Entry)
    requires AllOpened(tl) && Matched(log, tl) && t !in tl && e.term == t && e.kind.LeaderLog?
    ensures AllOpened(tl[t := log + [e]])
  {
    forall k | 0 <= k < |log|
      ensures (log + [e])[k].term != t
    {
      assert MatchedAt(log, k, tl);
    }
    assert OpensAt(log + [e], t, |log|);
    forall u | u in tl && u != t
      ensures Opened(tl[t := log + [e]], u)
    {
      assert Opened(tl, u);
    }
  }

  lemma ClientExtends(tl: Family, t: int, e: Entry)
    requires AllOpened(tl) && t in tl && e.term == t && e.kind.ClientLog?
    ensures AllOpened(tl[t := tl[t] + [e]])
  {
    assert Opened(tl, t);
    var o: nat :| OpensAt(tl[t], t, o);
    assert OpensAt(tl[t] + [e], t, o);
    forall u | u in tl && u != t
      ensures Opened(tl[t := tl[t] + [e]], u)
    {
      assert Opened(tl, u);
    }
  }

  lemma ReplyKeepsOpened(mode: Delivery, c: Cluster, r: Reply, stale: Entry)
    requires LogInv(c) && ElectionInv(c) && r in c.net.replies && AllOpened(c.h.termLog)
    ensures AllOpened(DoReply(mode, c, r, stale).h.termLog)
  {
    var s := c.servers[r.to];
    if Wins(s, r) {
      WonTermIsNew(c, r);
      assert Fits(s, c.h.termLog);
      WinOpens(c.h.termLog, s.log, s.term, Opening(s.term, stale));
      assert DoReply(mode, c, r, stale).h.termLog == c.h.termLog[s.term := s.log + [Opening(s.term, stale)]];
    } else {
      assert DoReply(mode, c, r, stale).h.termLog == c.h.termLog;
    }
  }

  lemma ClientKeepsOpened(c: Cluster, i: Id, e: Entry)
    requires LogInv(c) && AllOpened(c.h.termLog)
    ensures AllOpened(DoClient(c, i, e).h.termLog)
  {
    var s := c.servers[i];
    if CanAppend(s) {
      assert RoleFits(s, c.h);
      ClientExtends(c.h.termLog, s.term, e.(term := s.term, kind := ClientLog));
    }
  }

  lemma OthersKeepFamily(mode: Delivery, c: Cluster, a: Action)
    requires c.Shaped() && Enabled(mode, c, a) && KeepsWholeLog(a) && !a.DeliverReply? && !a.ClientAppend?
    ensures Step(mode, c, a).h.termLog == c.h.termLog
  {
  }

  lemma StepKeepsOpened(mode: Delivery, c: Cluster, a: Action)
    requires LogInv(c) && ElectionInv(c) && Enabled(mode, c, a) && KeepsWholeLog(a) && AllOpened(c.h.termLog)
    ensures AllOpened(Step(mode, c, a).h.termLog)
  {
    match a
    case DeliverReply(r, stale) => ReplyKeepsOpened(mode, c, r, stale);
    case ClientAppend(i, e) => ClientKeepsOpened(c, i, e);
    case _ => OthersKeepFamily(mode, c, a);
  }

  /** Every term that has had a leader began with one leader's entry, and had no other. */
  lemma {:induction false} TermsOpenOnce(mode: Delivery, capacity: nat, states: seq<Cluster>, actions: seq<Action>, n: nat)
    requires IsWholeLogRun(mode, capacity, states, actions) && n < |states| && !mode.duplicateVotes
    ensures AllOpened(states[n].h.termLog)
  {
    if n > 0 {
      TermsOpenOnce(mode, capacity, states, actions, n - 1);
      RunKeepsLogs(mode, capacity, states, actions, n - 1);
      StepKeepsOpened(mode, states[n - 1], actions[n - 1]);
    }
  }

  // ---------------------------------------------------------------------------
  // In any log

  /** An entry of term t is the leader's, if it is at o, and otherwise a client's, behind the leader's. */
  lemma EntryOfTerm(log: Log, tl: Family, t: int, o: nat, k: nat)
    requires Matched(log, tl) && t in tl && OpensAt(tl[t], t, o) && k < |log| && log[k].term == t
    ensures o <= k && log[o] == tl[t][o] && (log[k].kind.LeaderLog? <==> k == o)
  {
    assert MatchedAt(log, k, tl);
    assert log[k] == log[..k + 1][k] == tl[t][..k + 1][k] == tl[t][k];
    assert log[o] == log[..k + 1][o] == tl[t][..k + 1][o];
  }

  /** How term t opened does not change as its log grows. */
  lemma OpeningStays(a: Log, b: Log, t: int, o: nat, p: nat)
    requires a <= b && OpensAt(a, t, o) && OpensAt(b, t, p)
    ensures o == p && a[o] == b[p]
  {
    assert forall k :: 0 <= k < |a| ==> a[k] == b[k];
    assert a[o].term == t && b[p].term == t;
  }
}
