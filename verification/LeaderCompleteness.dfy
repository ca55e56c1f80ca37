/**
  Leader completeness: an entry of term t that a majority has stored while in
  term t is in the log of every later leader. The inductive form does not speak
  of majorities: whoever stored such an entry still has it, unless the leader of
  some later term never had it.
*/
module LeaderCompleteness {
  import opened RaftTypes
  import opened ServerSpec
  import opened Cluster
  import opened Elections
  import opened TermLogs
  import opened LogMatching

  /** Server i stored, while in term t, the entry of term t at position k. */
  predicate Took(h: History, t: int, i: Id, k: int) {
    && (t, i) in h.stored && t in h.termLog
    && 0 <= k < h.stored[(t, i)] && k < |h.termLog[t]| && h.termLog[t][k].term == t
  }

  /** The log of the leader of term t up to position k. */
  function UpTo(tl: Family, t: int, k: int): Log
    requires t in tl && 0 <= k < |tl[t]|
  {
    tl[t][..k + 1]
  }

  ghost predicate HeldOrLost(log: Log, tl: Family, t: int, k: int, hi: int)
    requires t in tl && 0 <= k < |tl[t]|
  {
    Holds(log, UpTo(tl, t, k)) || LostBetween(tl, UpTo(tl, t, k), t, hi)
  }

  ghost predicate LogsRetain(c: Cluster)
    requires c.Shaped()
  {
    forall t: int, i: Id, k: int :: Took(c.h, t, i, k) ==>
      HeldOrLost(c.servers[i].log, c.h.termLog, t, k, c.servers[i].term)
  }

  /** A candidate has what its voter stored in earlier terms, or it was lost. */
  ghost predicate VotesRetain(h: History) {
    forall u: int, v: Id, t: int, k: int :: (u, v) in h.votes && Took(h, t, v, k) && t < u ==>
      (u, h.votes[(u, v)]) in h.candidateLog
      && HeldOrLost(h.candidateLog[(u, h.votes[(u, v)])], h.termLog, t, k, u)
  }

  /** A leader has what any of its electors stored in earlier terms, or it was lost before. */
  ghost predicate QuorumsRetain(h: History) {
    forall u: int, v: Id, t: int, k: int ::
      u in h.quorum && u in h.termLog && v in h.quorum[u] && Took(h, t, v, k) && t < u ==>
        HeldOrLost(h.termLog[u], h.termLog, t, k, u - 1)
  }

  ghost predicate RetentionInv(c: Cluster) {
    c.Shaped() && LogsRetain(c) && VotesRetain(c.h) && QuorumsRetain(c.h)
  }

  // ---------------------------------------------------------------------------
  // Steps

  lemma QuietRetains(c: Cluster, c': Cluster, i: Id, s': Server)
    requires RetentionInv(c) && c'.Shaped()
    requires LogQuiet(c.servers[i], s') && c'.servers == c.servers[i := s']
    requires c'.h == c.h.(settled := c'.h.settled, tally := c'.h.tally)
    ensures RetentionInv(c')
  {
    forall t: int, j: Id, k: int | Took(c'.h, t, j, k)
      ensures HeldOrLost(c'.servers[j].log, c'.h.termLog, t, k, c'.servers[j].term)
    {
      assert Took(c.h, t, j, k);
    }
    forall u: int, v: Id, t: int, k: int | (u, v) in c'.h.votes && Took(c'.h, t, v, k) && t < u
      ensures (u, c'.h.votes[(u, v)]) in c'.h.candidateLog
      ensures HeldOrLost(c'.h.candidateLog[(u, c'.h.votes[(u, v)])], c'.h.termLog, t, k, u)
    {
      assert Took(c.h, t, v, k);
    }
    forall u: int, v: Id, t: int, k: int |
      u in c'.h.quorum && u in c'.h.termLog && v in c'.h.quorum[u] && Took(c'.h, t, v, k) && t < u
      ensures HeldOrLost(c'.h.termLog[u], c'.h.termLog, t, k, u - 1)
    {
      assert Took(c.h, t, v, k);
    }
  }

  lemma AdoptRetains(c: Cluster, i: Id, t: int)
    requires RetentionInv(c)
    ensures RetentionInv(Adopt(c, i, t))
  {
    QuietRetains(c, Adopt(c, i, t), i, Adopt(c, i, t).servers[i]);
  }

  /** A vote of i for w in term u is added; w's log has or lost all that i took. */
  lemma VoteRetains(c: Cluster, c': Cluster, i: Id, s': Server, u: int, w: Id)
    requires RetentionInv(c) && LogInv(c) && c'.Shaped()
    requires c'.servers == c.servers[i := s'] && s'.log == c.servers[i].log && s'.term >= c.servers[i].term
    requires c'.h.stored == c.h.stored && c'.h.termLog == c.h.termLog && c'.h.quorum == c.h.quorum
    requires c'.h.votes == c.h.votes[(u, i) := w]
    requires (u, w) in c'.h.candidateLog
    requires forall t: int, v: Id :: (t, v) in c.h.candidateLog ==>
      (t, v) in c'.h.candidateLog && c'.h.candidateLog[(t, v)] == c.h.candidateLog[(t, v)]
    requires forall t: int, k: int :: Took(c.h, t, i, k) && t < u ==>
      HeldOrLost(c'.h.candidateLog[(u, w)], c.h.termLog, t, k, u)
    ensures RetentionInv(c')
  {
    forall t: int, j: Id, k: int | Took(c'.h, t, j, k)
      ensures HeldOrLost(c'.servers[j].log, c'.h.termLog, t, k, c'.servers[j].term)
    {
      assert Took(c.h, t, j, k);
    }
    forall x: int, v: Id, t: int, k: int | (x, v) in c'.h.votes && Took(c'.h, t, v, k) && t < x
      ensures (x, c'.h.votes[(x, v)]) in c'.h.candidateLog
      ensures HeldOrLost(c'.h.candidateLog[(x, c'.h.votes[(x, v)])], c'.h.termLog, t, k, x)
    {
      assert Took(c.h, t, v, k);
    }
    forall x: int, v: Id, t: int, k: int |
      x in c'.h.quorum && x in c'.h.termLog && v in c'.h.quorum[x] && Took(c'.h, t, v, k) && t < x
      ensures HeldOrLost(c'.h.termLog[x], c'.h.termLog, t, k, x - 1)
    {
      assert Took(c.h, t, v, k);
    }
  }

  lemma ElectRetains(c: Cluster, i: Id)
    requires RetentionInv(c) && LogInv(c) && ElectionInv(c)
    ensures RetentionInv(DoElect(c, i))
  {
    var c' := DoElect(c, i);
    var u := c.servers[i].term + 1;
    assert (u, i) !in c.h.candidateLog;
    forall t: int, k: int | Took(c.h, t, i, k) && t < u
      ensures HeldOrLost(c'.h.candidateLog[(u, i)], c.h.termLog, t, k, u)
    {
      assert HeldOrLost(c.servers[i].log, c.h.termLog, t, k, c.servers[i].term);
    }
    VoteRetains(c, c', i, c'.servers[i], u, i);
  }

  /** The election restriction at work (raft_candidate.c:85-98). */
  lemma GrantRetains(c: Cluster, i: Id, m: VoteRequest)
    requires RetentionInv(c) && LogInv(c) && m in c.net.votes && Grants(c.servers[i], m)
    ensures RetentionInv(DoVote(c, i, m))
  {
    var c' := DoVote(c, i, m);
    var s := c.servers[i];
    var candidate := c.h.candidateLog[(m.term, m.candidate)];
    assert Fits(s, c.h.termLog) && Describes(m, candidate);
    forall t: int, k: int | Took(c.h, t, i, k) && t < m.term
      ensures HeldOrLost(candidate, c.h.termLog, t, k, m.term)
    {
      assert HeldOrLost(s.log, c.h.termLog, t, k, s.term);
      if Holds(s.log, UpTo(c.h.termLog, t, k)) {
        UpToDateKeeps(s.log, candidate, c.h.termLog, t, k);
      }
    }
    VoteRetains(c, c', i, c'.servers[i], m.term, m.candidate);
  }

  lemma VoteStepRetains(c: Cluster, i: Id, m: VoteRequest)
    requires RetentionInv(c) && LogInv(c) && m in c.net.votes
    ensures RetentionInv(DoVote(c, i, m))
  {
    var c1 := Adopt(c, i, m.term);
    AdoptRetains(c, i, m.term);
    AdoptKeepsLogs(c, i, m.term);
    assert DoVote(c, i, m) == DoVote(c1, i, m);
    if Grants(c1.servers[i], m) {
      GrantRetains(c1, i, m);
    } else {
      QuietRetains(c1, DoVote(c1, i, m), i, c1.servers[i]);
    }
  }

  /** What was taken before a term opens is unaffected by its opening. */
  lemma OpenedHeldOrLost(log: Log, tl: Family, t: int, k: int, hi: int, u: int, opening: Log)
    requires t in tl && 0 <= k < |tl[t]| && HeldOrLost(log, tl, t, k, hi) && u !in tl
    ensures HeldOrLost(log, tl[u := opening], t, k, hi)
  {
    if !Holds(log, UpTo(tl, t, k)) {
      LostOpened(tl, UpTo(tl, t, k), t, hi, u, opening);
    }
  }

  /** The electors' votes give the new leader what they had stored, or it was lost earlier. */
  lemma ElectedHasOrLost(c: Cluster, i: Id, quorum: set<Id>, v: Id, t: int, k: int, opening: Log)
    requires c.Shaped() && VotesRetain(c.h) && LogsFit(c) && c.servers[i].role.Candidate?
    requires v in quorum && (c.servers[i].term, v) in c.h.votes && c.h.votes[(c.servers[i].term, v)] == i
    requires c.servers[i].term !in c.h.termLog && c.servers[i].log <= opening
    requires Took(c.h, t, v, k) && t < c.servers[i].term
    ensures HeldOrLost(opening, c.h.termLog, t, k, c.servers[i].term - 1)
  {
    var u := c.servers[i].term;
    assert RoleFits(c.servers[i], c.h);
    assert HeldOrLost(c.servers[i].log, c.h.termLog, t, k, u);
    var x := UpTo(c.h.termLog, t, k);
    if !Holds(c.servers[i].log, x) {
      var w :| t < w <= u && w in c.h.termLog && !Holds(c.h.termLog[w], x);
      assert w <= u - 1;
    }
  }

  // What the elections give: a voter has seen the term it voted in, and electors have voted.

  ghost predicate VotersSeen(c: Cluster)
    requires c.Shaped()
  {
    forall x: int, v: Id :: (x, v) in c.h.votes ==> x <= c.servers[v].term
  }

  ghost predicate ElectorsVoted(h: History) {
    forall x: int, v: Id :: x in h.quorum && v in h.quorum[x] ==> (x, v) in h.votes
  }

  lemma ElectionFacts(c: Cluster)
    requires ElectionInv(c)
    ensures VotersSeen(c) && ElectorsVoted(c.h)
  {
    forall x: int, v: Id | x in c.h.quorum && v in c.h.quorum[x]
      ensures (x, v) in c.h.votes
    {
      assert Won(x, c.servers[c.h.leaderOf[x]], c.h.quorum[x], c.h.votes);
    }
  }

  /** What c' has in common with c when candidate i wins with the votes of the quorum. */
  ghost predicate WinStep(c: Cluster, c': Cluster, i: Id, s': Server, quorum: set<Id>) {
    && c.Shaped() && c'.Shaped() && c.servers[i].role.Candidate?
    && (var s := c.servers[i];
        && s.term !in c.h.termLog && s.log <= s'.log && s'.term == s.term
        && c'.servers == c.servers[i := s']
        && c'.h.termLog == c.h.termLog[s.term := s'.log]
        && c'.h.stored == c.h.stored[(s.term, i) := |s'.log|]
        && c'.h.quorum == c.h.quorum[s.term := quorum]
        && (forall v: Id :: v in quorum ==> (s.term, v) in c.h.votes && c.h.votes[(s.term, v)] == i))
    && c'.h.votes == c.h.votes && c'.h.candidateLog == c.h.candidateLog
  }

  lemma WinRetainsLogs(c: Cluster, c': Cluster, i: Id, s': Server, quorum: set<Id>)
    requires WinStep(c, c', i, s', quorum) && LogsRetain(c) && StoredFits(c)
    ensures LogsRetain(c')
  {
    var (u, tl, tl') := (s'.term, c.h.termLog, c'.h.termLog);
    forall t: int, j: Id, k: int | Took(c'.h, t, j, k)
      ensures HeldOrLost(c'.servers[j].log, tl', t, k, c'.servers[j].term)
    {
      if t != u {
        assert Took(c.h, t, j, k);
        OpenedHeldOrLost(c.servers[j].log, tl, t, k, c.servers[j].term, u, s'.log);
      } else {
        WinnerOnlyTakes(c, c', i, s', j, k);
      }
    }
  }

  lemma WinRetainsQuorums(c: Cluster, c': Cluster, i: Id, s': Server, quorum: set<Id>)
    requires WinStep(c, c', i, s', quorum) && VotesRetain(c.h) && QuorumsRetain(c.h) && StoredFits(c) && LogsFit(c)
    requires VotersSeen(c) && ElectorsVoted(c.h)
    ensures QuorumsRetain(c'.h)
  {
    var (u, tl, tl') := (s'.term, c.h.termLog, c'.h.termLog);
    forall x: int, v: Id, t: int, k: int |
      x in c'.h.quorum && x in tl' && v in c'.h.quorum[x] && Took(c'.h, t, v, k) && t < x
      ensures HeldOrLost(tl'[x], tl', t, k, x - 1)
    {
      assert (x, v) in c.h.votes && x <= c.servers[v].term;
      if t == u {
        WinnerOnlyTakes(c, c', i, s', v, k);
      }
      assert Took(c.h, t, v, k);
      if x == u {
        ElectedHasOrLost(c, i, quorum, v, t, k, s'.log);
      }
      OpenedHeldOrLost(tl'[x], tl, t, k, x - 1, u, s'.log);
    }
  }

  /** Nobody but the new leader has stored anything of a term that just opens. */
  lemma WinnerOnlyTakes(c: Cluster, c': Cluster, i: Id, s': Server, j: Id, k: int)
    requires c.Shaped() && StoredFits(c) && c.servers[i].term !in c.h.termLog
    requires c'.h.stored == c.h.stored[(c.servers[i].term, i) := |s'.log|]
    requires Took(c'.h, c.servers[i].term, j, k)
    ensures j == i
  {
    assert forall t: int, v: Id :: (t, v) in c.h.stored ==> t in c.h.termLog by {
      forall t: int, v: Id | (t, v) in c.h.stored
        ensures t in c.h.termLog
      {
        assert Keeps(c.servers[v], t, c.h.stored[(t, v)], c.h.termLog);
      }
    }
  }

  lemma WinRetainsVotes(c: Cluster, c': Cluster, i: Id, s': Server, quorum: set<Id>)
    requires WinStep(c, c', i, s', quorum) && VotesRetain(c.h) && StoredFits(c) && VotersSeen(c)
    ensures VotesRetain(c'.h)
  {
    var (u, tl, tl') := (s'.term, c.h.termLog, c'.h.termLog);
    forall x: int, v: Id, t: int, k: int | (x, v) in c'.h.votes && Took(c'.h, t, v, k) && t < x
      ensures (x, c'.h.votes[(x, v)]) in c'.h.candidateLog
      ensures HeldOrLost(c'.h.candidateLog[(x, c'.h.votes[(x, v)])], tl', t, k, x)
    {
      assert x <= c.servers[v].term;
      if t == u {
        WinnerOnlyTakes(c, c', i, s', v, k);
      }
      assert Took(c.h, t, v, k);
      OpenedHeldOrLost(c.h.candidateLog[(x, c.h.votes[(x, v)])], tl, t, k, x, u, s'.log);
    }
  }

  lemma WinRetains(c: Cluster, c': Cluster, i: Id, s': Server, quorum: set<Id>)
    requires RetentionInv(c) && LogInv(c) && ElectionInv(c) && WinStep(c, c', i, s', quorum)
    ensures RetentionInv(c')
  {
    ElectionFacts(c);
    WinRetainsLogs(c, c', i, s', quorum);
    WinRetainsVotes(c, c', i, s', quorum);
    WinRetainsQuorums(c, c', i, s', quorum);
  }

  lemma ExtendedHeldOrLost(log: Log, tl: Family, t: int, k: int, hi: int, u: int, e: Entry)
    requires Coherent(tl) && t in tl && 0 <= k < |tl[t]| && HeldOrLost(log, tl, t, k, hi)
    requires u in tl && e.term == u
    ensures HeldOrLost(log, Extended(tl, u, e), t, k, hi)
  {
    assert UpTo(Extended(tl, u, e), t, k) == UpTo(tl, t, k);
    if !Holds(log, UpTo(tl, t, k)) {
      LostExtended(tl, UpTo(tl, t, k), t, hi, u, e);
    }
  }

  /** What c' has in common with c when leader i appends e to its log. */
  ghost predicate GrowStep(c: Cluster, c': Cluster, i: Id, s': Server, e: Entry) {
    && c.Shaped() && c'.Shaped() && c.servers[i].role.Leader?
    && (var s := c.servers[i];
        && e.term == s.term && s'.log == s.log + [e] && s'.term == s.term
        && s.term in c.h.termLog && c.h.termLog[s.term] == s.log
        && c'.servers == c.servers[i := s']
        && c'.h == c.h.(termLog := c.h.termLog[s.term := s'.log], stored := c.h.stored[(s.term, i) := |s'.log|]))
  }

  lemma GrowRetainsLogs(c: Cluster, c': Cluster, i: Id, s': Server, e: Entry)
    requires GrowStep(c, c', i, s', e) && LogsRetain(c) && StoredFits(c) && Coherent(c.h.termLog)
    ensures LogsRetain(c')
  {
    var (u, tl, tl') := (s'.term, c.h.termLog, c'.h.termLog);
    assert tl' == Extended(tl, u, e);
    forall t: int, j: Id, k: int | Took(c'.h, t, j, k)
      ensures HeldOrLost(c'.servers[j].log, tl', t, k, c'.servers[j].term)
    {
      if (t, j) != (u, i) {
        TookBefore(c, c', u, i, t, j, k, e);
        ExtendedHeldOrLost(c.servers[j].log, tl, t, k, c.servers[j].term, u, e);
      }
    }
  }

  lemma GrowRetainsVotes(c: Cluster, c': Cluster, i: Id, s': Server, e: Entry)
    requires GrowStep(c, c', i, s', e) && VotesRetain(c.h) && StoredFits(c) && Coherent(c.h.termLog) && VotersSeen(c)
    ensures VotesRetain(c'.h)
  {
    var (u, tl, tl') := (s'.term, c.h.termLog, c'.h.termLog);
    assert tl' == Extended(tl, u, e);
    forall x: int, v: Id, t: int, k: int | (x, v) in c'.h.votes && Took(c'.h, t, v, k) && t < x
      ensures (x, c'.h.votes[(x, v)]) in c'.h.candidateLog
      ensures HeldOrLost(c'.h.candidateLog[(x, c'.h.votes[(x, v)])], tl', t, k, x)
    {
      assert x <= c.servers[v].term;
      TookBefore(c, c', u, i, t, v, k, e);
      ExtendedHeldOrLost(c.h.candidateLog[(x, c.h.votes[(x, v)])], tl, t, k, x, u, e);
    }
  }

  lemma GrowRetainsQuorums(c: Cluster, c': Cluster, i: Id, s': Server, e: Entry)
    requires GrowStep(c, c', i, s', e) && QuorumsRetain(c.h) && StoredFits(c) && Coherent(c.h.termLog)
    requires VotersSeen(c) && ElectorsVoted(c.h)
    ensures QuorumsRetain(c'.h)
  {
    var (u, tl, tl') := (s'.term, c.h.termLog, c'.h.termLog);
    assert tl' == Extended(tl, u, e);
    forall x: int, v: Id, t: int, k: int |
      x in c'.h.quorum && x in tl' && v in c'.h.quorum[x] && Took(c'.h, t, v, k) && t < x
      ensures HeldOrLost(tl'[x], tl', t, k, x - 1)
    {
      assert (x, v) in c.h.votes && x <= c.servers[v].term;
      TookBefore(c, c', u, i, t, v, k, e);
      ExtendedHeldOrLost(tl[x], tl, t, k, x - 1, u, e);
      assert tl[x] <= tl'[x];
    }
  }

  lemma ExtendRetains(c: Cluster, c': Cluster, i: Id, s': Server, e: Entry)
    requires RetentionInv(c) && LogInv(c) && ElectionInv(c) && GrowStep(c, c', i, s', e)
    ensures RetentionInv(c')
  {
    ElectionFacts(c);
    GrowRetainsLogs(c, c', i, s', e);
    GrowRetainsVotes(c, c', i, s', e);
    GrowRetainsQuorums(c, c', i, s', e);
  }

  lemma TookBefore(c: Cluster, c': Cluster, u: int, i: Id, t: int, j: Id, k: int, e: Entry)
    requires c.Shaped() && StoredFits(c) && u in c.h.termLog
    requires c'.h.termLog == Extended(c.h.termLog, u, e)
    requires c'.h.stored == c.h.stored[(u, i) := |c'.h.termLog[u]|]
    requires Took(c'.h, t, j, k) && (t, j) != (u, i)
    ensures Took(c.h, t, j, k)
  {
    assert Keeps(c.servers[j], t, c.h.stored[(t, j)], c.h.termLog);
  }

  /** Only what follower i stored in term t changes in the history. */
  ghost predicate OnlyStores(h: History, h': History, t: int, i: Id) {
    && h' == h.(stored := h'.stored)
    && (forall u: int, j: Id :: (u, j) != (t, i) ==> ((u, j) in h'.stored <==> (u, j) in h.stored))
    && (forall u: int, j: Id :: (u, j) != (t, i) && (u, j) in h.stored ==> h'.stored[(u, j)] == h.stored[(u, j)])
  }

  /** A server stores in its current term only, so past votes are not concerned. */
  lemma StoringRetainsVotes(c: Cluster, h': History, i: Id)
    requires c.Shaped() && VotesRetain(c.h) && VotersSeen(c) && OnlyStores(c.h, h', c.servers[i].term, i)
    ensures VotesRetain(h')
  {
    forall x: int, v: Id, t: int, k: int | (x, v) in h'.votes && Took(h', t, v, k) && t < x
      ensures (x, h'.votes[(x, v)]) in h'.candidateLog
      ensures HeldOrLost(h'.candidateLog[(x, h'.votes[(x, v)])], c.h.termLog, t, k, x)
    {
      assert x <= c.servers[v].term;
      assert Took(c.h, t, v, k);
    }
  }

  lemma StoringRetainsQuorums(c: Cluster, h': History, i: Id)
    requires c.Shaped() && QuorumsRetain(c.h) && VotersSeen(c) && ElectorsVoted(c.h)
    requires OnlyStores(c.h, h', c.servers[i].term, i)
    ensures QuorumsRetain(h')
  {
    var tl := c.h.termLog;
    forall x: int, v: Id, t: int, k: int |
      x in h'.quorum && x in tl && v in h'.quorum[x] && Took(h', t, v, k) && t < x
      ensures HeldOrLost(tl[x], tl, t, k, x - 1)
    {
      assert (x, v) in c.h.votes && x <= c.servers[v].term;
      assert Took(c.h, t, v, k);
    }
  }

  /** What c' has in common with c when a follower accepts m. */
  ghost predicate AcceptStep(c: Cluster, c': Cluster, m: AppendRequest, s': Server) {
    && c.Shaped() && c'.Shaped() && m in c.net.appends && m.prevIndex >= -1
    && (var s := c.servers[m.follower];
        && s.term == m.term && Consistent(s, m) && s.start == 0 && s'.term == s.term
        && (m.entry.None? ==> s'.log == s.log)
        && (m.entry.Some? ==> s'.log == Put(s.log, m.prevIndex + 1, m.entry.value)))
    && c'.servers == c.servers[m.follower := s']
    && OnlyStores(c.h, c'.h, m.term, m.follower)
  }

  /** A follower stores an entry, and perhaps drops a tail that the leader never had. */
  lemma AcceptRetainsLogs(c: Cluster, c': Cluster, m: AppendRequest, s': Server)
    requires LogInv(c) && AcceptStep(c, c', m, s') && LogsRetain(c) && StoredFits(c')
    ensures LogsRetain(c')
  {
    forall t: int, j: Id, k: int | Took(c'.h, t, j, k)
      ensures HeldOrLost(c'.servers[j].log, c'.h.termLog, t, k, c'.servers[j].term)
    {
      if (t, j) == (m.term, m.follower) {
        assert Keeps(s', t, c'.h.stored[(t, j)], c'.h.termLog);
        assert UpTo(c'.h.termLog, t, k) == s'.log[..k + 1];
      } else {
        assert Took(c.h, t, j, k);
        assert HeldOrLost(c.servers[j].log, c.h.termLog, t, k, c.servers[j].term);
        if j == m.follower {
          AcceptedHeldOrLost(c, m, s', t, k);
        }
      }
    }
  }

  lemma AcceptRetains(c: Cluster, c': Cluster, m: AppendRequest, s': Server)
    requires RetentionInv(c) && LogInv(c) && ElectionInv(c) && AcceptStep(c, c', m, s') && StoredFits(c')
    ensures RetentionInv(c')
  {
    ElectionFacts(c);
    StoringRetainsVotes(c, c'.h, m.follower);
    StoringRetainsQuorums(c, c'.h, m.follower);
    AcceptRetainsLogs(c, c', m, s');
  }

  lemma AcceptedHeldOrLost(c: Cluster, m: AppendRequest, s': Server, t: int, k: int)
    requires LogInv(c) && m in c.net.appends && m.prevIndex >= -1 && t != m.term
    requires var s := c.servers[m.follower];
      && s.term == m.term && Consistent(s, m) && s.start == 0
      && (m.entry.None? ==> s'.log == s.log)
      && (m.entry.Some? ==> s'.log == Put(s.log, m.prevIndex + 1, m.entry.value))
    requires Took(c.h, t, m.follower, k) && HeldOrLost(c.servers[m.follower].log, c.h.termLog, t, k, m.term)
    ensures HeldOrLost(s'.log, c.h.termLog, t, k, m.term)
  {
    var (s, tl) := (c.servers[m.follower], c.h.termLog);
    assert Fits(s, tl) && CutFrom(m, tl[m.term]) && Keeps(s, t, c.h.stored[(t, m.follower)], tl);
    if m.entry.Some? && Holds(s.log, UpTo(tl, t, k)) && !Holds(s'.log, UpTo(tl, t, k)) {
      DroppedMeansLost(s.log, tl, m, t, k);
    }
  }

  lemma DroppedMeansLost(log: Log, tl: Family, m: AppendRequest, t: int, k: int)
    requires Coherent(tl) && Matched(log, tl) && m.term in tl && CutFrom(m, tl[m.term])
    requires m.prevIndex < |log| && TermOf(log, m.prevIndex) == m.prevTerm && m.entry.Some?
    requires t in tl && 0 <= k < |tl[t]| && t < m.term
    requires Holds(log, UpTo(tl, t, k)) && !Holds(Put(log, m.prevIndex + 1, m.entry.value), UpTo(tl, t, k))
    ensures LostBetween(tl, UpTo(tl, t, k), t, m.term)
  {
    var x := UpTo(tl, t, k);
    var p := m.prevIndex + 1;
    PutFollowsLeader(log, tl, m);
    var put := Put(log, p, m.entry.value);
    assert put == tl[m.term][..p + 1];
    CheckMeansAgreement(log, tl, m);
    assert log[..p] == put[..p];
    assert |x| > p;
    assert x[p] == log[p] != tl[m.term][p];
    assert !Holds(tl[m.term], x);
  }

  /** What DoAppend does, when the follower has moved to the term of the request. */
  lemma AppendIsAccept(c: Cluster, c': Cluster, m: AppendRequest, s': Server)
    requires c.Shaped() && m in c.net.appends && m.prevIndex >= -1 && c.servers[m.follower].start == 0
    requires c.servers[m.follower].term >= m.term
    requires Consistent(c.servers[m.follower], m) && Storable(c.servers[m.follower], m)
    requires c' == DoAppend(c, m) && s' == HandleAppendRequest(c.servers[m.follower], m).0
    ensures AcceptStep(c, c', m, s')
  {
  }

  lemma AppendIsQuiet(c: Cluster, c': Cluster, m: AppendRequest, s': Server)
    requires c.Shaped() && c.servers[m.follower].term >= m.term && !Consistent(c.servers[m.follower], m)
    requires c' == DoAppend(c, m) && s' == HandleAppendRequest(c.servers[m.follower], m).0
    ensures c'.Shaped() && LogQuiet(c.servers[m.follower], s') && c'.servers == c.servers[m.follower := s'] && c'.h == c.h
  {
  }

  lemma AppendRetainsAtTerm(c: Cluster, c': Cluster, m: AppendRequest)
    requires RetentionInv(c) && LogInv(c) && ElectionInv(c)
    requires m in c.net.appends && c.servers[m.follower].term >= m.term
    requires Consistent(c.servers[m.follower], m) ==> Storable(c.servers[m.follower], m)
    requires c' == DoAppend(c, m) && LogInv(c')
    ensures RetentionInv(c')
  {
    var s' := HandleAppendRequest(c.servers[m.follower], m).0;
    assert Fits(c.servers[m.follower], c.h.termLog) && CutFrom(m, c.h.termLog[m.term]);
    if Consistent(c.servers[m.follower], m) {
      AppendIsAccept(c, c', m, s');
      AcceptRetains(c, c', m, s');
    } else {
      AppendIsQuiet(c, c', m, s');
      QuietRetains(c, c', m.follower, s');
    }
  }

  lemma AppendRetains(c: Cluster, m: AppendRequest)
    requires RetentionInv(c) && LogInv(c) && ElectionInv(c) && Enabled(STRICT, c, DeliverAppend(m))
    ensures RetentionInv(DoAppend(c, m))
  {
    AdoptFirst(c, m);
    AppendKeepsLogs(c, m);
    AdoptKeeps(c, m.follower, m.term);
    AdoptKeepsLogs(c, m.follower, m.term);
    AdoptRetains(c, m.follower, m.term);
    AppendRetainsAtTerm(Adopt(c, m.follower, m.term), DoAppend(c, m), m);
  }

  lemma ReplyRetains(mode: Delivery, c: Cluster, r: Reply, stale: Entry)
    requires RetentionInv(c) && LogInv(c) && ElectionInv(c) && r in c.net.replies
    ensures RetentionInv(DoReply(mode, c, r, stale))
  {
    var s := c.servers[r.to];
    var s' := HandleReply(s, r, stale);
    if Wins(s, r) {
      CountedIsNew(c, r);
      WonTermIsNew(c, r);
      assert TallyOf(s, c.h.tally[r.to], c.h.votes, c.net.replies);
      WinRetains(c, DoReply(mode, c, r, stale), r.to, s', c.h.tally[r.to] + {r.from});
    } else {
      LogQuietReply(s, r, stale);
      QuietRetains(c, DoReply(mode, c, r, stale), r.to, s');
    }
  }

  lemma ClientRetains(c: Cluster, i: Id, e: Entry)
    requires RetentionInv(c) && LogInv(c) && ElectionInv(c)
    ensures RetentionInv(DoClient(c, i, e))
  {
    assert RoleFits(c.servers[i], c.h);
    if CanAppend(c.servers[i]) {
      ExtendRetains(c, DoClient(c, i, e), i, AppendEntry(c.servers[i], e),
                    e.(term := c.servers[i].term, kind := ClientLog));
    }
  }

  lemma StepRetains(mode: Delivery, c: Cluster, a: Action)
    requires RetentionInv(c) && LogInv(c) && ElectionInv(c) && Enabled(mode, c, a) && KeepsWholeLog(a)
    ensures RetentionInv(Step(mode, c, a))
  {
    match a
    case Elect(i) => ElectRetains(c, i);
    case DeliverVote(i, m) => VoteStepRetains(c, i, m);
    case CrashInVote(i, m) =>
      QuietRetains(c, DoCrashInVote(c, i, m), i, Restore(ConvertToFollower(c.servers[i], m.term)));
    case DeliverReply(r, stale) => ReplyRetains(mode, c, r, stale);
    case SendAppend(i, f) =>
    case DeliverAppend(m) => AppendRetains(c, m);
    case ClientAppend(i, e) => ClientRetains(c, i, e);
    case Restart(i) => QuietRetains(c, DoRestart(c, i), i, Restore(c.disk[i]));
  }

  /** The three invariants together. */
  ghost predicate CoreInv(c: Cluster) {
    ElectionInv(c) && LogInv(c) && RetentionInv(c)
  }

  lemma {:induction false} RunKeepsCore(mode: Delivery, capacity: nat, states: seq<Cluster>, actions: seq<Action>, n: nat)
    requires IsWholeLogRun(mode, capacity, states, actions) && n < |states| && !mode.duplicateVotes
    ensures CoreInv(states[n])
  {
    RunKeepsLogs(mode, capacity, states, actions, n);
    if n > 0 {
      RunKeepsCore(mode, capacity, states, actions, n - 1);
      StepRetains(mode, states[n - 1], actions[n - 1]);
    }
  }

  // ---------------------------------------------------------------------------
  // Chosen entries

  ghost function Takers(h: History, t: int, k: int): set<Id> {
    set v | v in AllIds() && Took(h, t, v, k)
  }

  /** A majority stored the entry of term t at position k while in term t. */
  ghost predicate Chosen(h: History, t: int, k: int) {
    && t in h.termLog && 0 <= k < |h.termLog[t]| && h.termLog[t][k].term == t
    && IsMajority(|Takers(h, t, k)|)
  }

  /** Leader completeness, as a consequence of the invariant. */
  lemma {:induction false} ChosenStays(c: Cluster, t: int, k: int, u: int)
    requires CoreInv(c) && Chosen(c.h, t, k) && t < u && u in c.h.termLog
    ensures Holds(c.h.termLog[u], UpTo(c.h.termLog, t, k))
    decreases u
  {
    var x := UpTo(c.h.termLog, t, k);
    assert Won(u, c.servers[c.h.leaderOf[u]], c.h.quorum[u], c.h.votes);
    var v := MajoritiesMeet(Takers(c.h, t, k), c.h.quorum[u]);
    assert HeldOrLost(c.h.termLog[u], c.h.termLog, t, k, u - 1);
    if !Holds(c.h.termLog[u], x) {
      var w :| t < w <= u - 1 && w in c.h.termLog && !Holds(c.h.termLog[w], x);
      ChosenStays(c, t, k, w);
    }
  }

  /** Leaders' logs grow at their end, and the takers of an entry only grow. */
  ghost predicate HistoryGrows(h: History, h': History) {
    && (forall t :: t in h.termLog ==> t in h'.termLog && h.termLog[t] <= h'.termLog[t])
    && (forall t: int, i: Id, k: int :: Took(h, t, i, k) ==> Took(h', t, i, k))
  }

  /** Storing more of term t on one server, and extending one leader's log, is growth. */
  lemma UpdateGrows(h: History, h': History)
    requires forall u :: u in h.termLog ==> u in h'.termLog && h.termLog[u] <= h'.termLog[u]
    requires forall u: int, j: Id :: (u, j) in h.stored ==> (u, j) in h'.stored && h.stored[(u, j)] <= h'.stored[(u, j)]
    ensures HistoryGrows(h, h')
  {
    forall u: int, j: Id, k: int | Took(h, u, j, k)
      ensures Took(h', u, j, k)
    {
      assert h.termLog[u][k] == h'.termLog[u][k];
    }
  }

  /** What a term that opens, or that grows, adds to the history. */
  lemma OpenedGrows(h: History, h': History, t: int, i: Id, log: Log)
    requires (t in h.termLog ==> h.termLog[t] <= log) && ((t, i) in h.stored ==> h.stored[(t, i)] <= |log|)
    requires h'.termLog == h.termLog[t := log] && h'.stored == h.stored[(t, i) := |log|]
    ensures HistoryGrows(h, h')
  {
    UpdateGrows(h, h');
  }

  lemma NothingStored(c: Cluster, t: int, i: Id)
    requires c.Shaped() && StoredFits(c) && t !in c.h.termLog
    ensures (t, i) !in c.h.stored
  {
  }

  lemma ReplyGrows(mode: Delivery, c: Cluster, r: Reply, stale: Entry)
    requires CoreInv(c) && r in c.net.replies
    ensures HistoryGrows(c.h, DoReply(mode, c, r, stale).h)
  {
    var (s, s') := (c.servers[r.to], HandleReply(c.servers[r.to], r, stale));
    if Wins(s, r) {
      WonTermIsNew(c, r);
      NothingStored(c, s.term, r.to);
    }
    NotedGrows(c.h, s, s', r);
  }

  lemma NotedGrows(h: History, s: Server, s': Server, r: Reply)
    requires s.Shaped() && |h.tally| == N_SERVERS
    requires Wins(s, r) ==> s.term !in h.termLog && (s.term, s.id) !in h.stored
    ensures HistoryGrows(h, NotedReply(h, s, s', r))
  {
    if Wins(s, r) {
      OpenedGrows(h, NotedReply(h, s, s', r), s.term, s.id, s'.log);
    }
  }

  lemma ClientGrows(c: Cluster, i: Id, e: Entry)
    requires c.Shaped() && LogsFit(c) && StoredFits(c)
    ensures HistoryGrows(c.h, DoClient(c, i, e).h)
  {
    var (s, h') := (c.servers[i], DoClient(c, i, e).h);
    assert RoleFits(s, c.h);
    assert (s.term, i) in c.h.stored ==> Keeps(s, s.term, c.h.stored[(s.term, i)], c.h.termLog);
    if CanAppend(s) {
      OpenedGrows(c.h, h', s.term, i, AppendEntry(s, e).log);
    }
  }

  lemma AppendGrows(c: Cluster, m: AppendRequest)
    requires c.Shaped() && (Consistent(c.servers[m.follower], m) ==> Storable(c.servers[m.follower], m))
    ensures HistoryGrows(c.h, DoAppend(c, m).h)
  {
    UpdateGrows(c.h, DoAppend(c, m).h);
  }

  lemma BallotGrows(mode: Delivery, c: Cluster, a: Action)
    requires c.Shaped() && Enabled(mode, c, a) && (a.Elect? || a.DeliverVote?)
    ensures HistoryGrows(c.h, Step(mode, c, a).h)
  {
    UpdateGrows(c.h, Step(mode, c, a).h);
  }

  lemma StepGrows(mode: Delivery, c: Cluster, a: Action)
    requires CoreInv(c) && Enabled(mode, c, a) && KeepsWholeLog(a)
    ensures HistoryGrows(c.h, Step(mode, c, a).h)
  {
    match a
    case DeliverReply(r, stale) => ReplyGrows(mode, c, r, stale);
    case DeliverAppend(m) => AppendGrows(c, m);
    case ClientAppend(i, e) => ClientGrows(c, i, e);
    case Elect(i) => BallotGrows(mode, c, a);
    case DeliverVote(i, m) => BallotGrows(mode, c, a);
    case _ =>
  }

  lemma GrowthTransitive(a: History, b: History, d: History)
    requires HistoryGrows(a, b) && HistoryGrows(b, d)
    ensures HistoryGrows(a, d)
  {
  }

  lemma ChosenGrows(h: History, h': History, t: int, k: int)
    requires HistoryGrows(h, h') && Chosen(h, t, k)
    ensures Chosen(h', t, k) && UpTo(h'.termLog, t, k) == UpTo(h.termLog, t, k)
  {
    SubsetCardinality(Takers(h, t, k), Takers(h', t, k));
    assert h.termLog[t][k] == h'.termLog[t][k];
  }
}
