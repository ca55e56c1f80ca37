/**
  The bookkeeping of a tenure. A leader has at most one outstanding request per
  follower; once a success has come back, `next_index` never moves below an
  acknowledged entry, so `n_servers_replicated` counts distinct servers. This
  needs the delivery hypotheses: no stale replies, no blind acknowledgements.
*/
module Replication {
  import opened RaftTypes
  import opened ServerSpec
  import opened Cluster
  import opened Elections
  import opened TermLogs
  import opened LogMatching
  import opened LeaderCompleteness

  /** All requests with the outstanding id have the position of `next_index`. */
  ghost predicate RequestsCurrent(s: Server, appends: set<AppendRequest>)
    requires s.Shaped()
  {
    forall m :: m in appends && m.term == s.term ==>
      && m.requestId <= s.lastRequest[m.follower]
      && (m.requestId == s.lastRequest[m.follower] ==> m.prevIndex == s.nextIndex[m.follower] - 1)
  }

  predicate AnswersTerm(r: Reply, t: int) {
    r.origin.Appending? && r.origin.term == t
  }

  ghost predicate RepliesCurrent(s: Server, replies: set<Reply>)
    requires s.Shaped()
  {
    forall r :: r in replies && AnswersTerm(r, s.term) ==>
      && r.requestId <= s.lastRequest[r.from]
      && (r.requestId == s.lastRequest[r.from] ==> r.origin.prevIndex == s.nextIndex[r.from] - 1)
  }

  /** The reply answers the outstanding request of its sender, in the term of both. */
  predicate Outstanding(r: Reply, s: Server)
    requires s.Shaped()
  {
    AnswersTerm(r, s.term) && r.term == s.term && r.requestId == s.lastRequest[r.from]
  }

  /** After the first success of f, everything below `next_index` is stored, and no refusal can come. */
  ghost predicate SettledSound(s: Server, h: History, replies: set<Reply>)
    requires s.Shaped()
  {
    && (forall f: Id :: (s.term, f) in h.settled ==> StoredBy(h, s.term, f) >= s.nextIndex[f])
    && (forall r :: r in replies && Outstanding(r, s) && (s.term, r.from) in h.settled ==> r.success > 0)
  }

  /** The followers whose acknowledgement of position k the leader has seen. */
  ghost function Confirmed(s: Server, settled: set<(int, Id)>, k: int): set<Id>
    requires s.Shaped()
  {
    set f | f in AllIds() && f != s.id && (s.term, f) in settled && s.nextIndex[f] > k
  }

  ghost predicate CountsSound(s: Server, h: History)
    requires s.Shaped()
  {
    forall k :: 0 <= k < |s.log| && s.log[k].term == s.term ==> s.replicated[k] <= 1 + |Confirmed(s, h.settled, k)|
  }

  ghost predicate NextInLog(s: Server)
    requires s.Shaped()
  {
    forall f: Id :: 0 <= s.nextIndex[f] <= |s.log|
  }

  ghost predicate TenureSound(s: Server, h: History, net: Network)
    requires s.Shaped()
  {
    && NextInLog(s)
    && RequestsCurrent(s, net.appends)
    && RepliesCurrent(s, net.replies)
    && SettledSound(s, h, net.replies)
    && CountsSound(s, h)
    && StoredBy(h, s.term, s.id) == |s.log|
  }

  /** What a reply says about the log of its sender. */
  predicate ReplySound(r: Reply, h: History)
    requires r.origin.Appending?
  {
    var acknowledged := r.origin.prevIndex + (if r.origin.carried then 2 else 1);
    && r.origin.term in h.leaderOf && r.from != r.to
    && (r.success > 0 ==> r.success == 1)
    && (r.success > 0 ==> r.term == r.origin.term && StoredBy(h, r.term, r.from) >= acknowledged)
    && (r.success <= 0 ==> r.success == 0)
    && (r.success <= 0 && r.term == r.origin.term ==> r.origin.prevIndex >= 0)
  }

  ghost predicate TenureInv(c: Cluster) {
    && c.Shaped()
    && (forall i: Id :: c.servers[i].role.Leader? ==> TenureSound(c.servers[i], c.h, c.net))
    && (forall r :: r in c.net.replies && r.origin.Appending? ==> ReplySound(r, c.h))
    && (forall t: int, f: Id :: (t, f) in c.h.settled ==> t in c.h.leaderOf)
  }

  // ---------------------------------------------------------------------------
  // Steps that leaders do not notice

  /** Server i becomes or stays a follower or candidate, or keeps everything a leader uses. */
  predicate TenureQuiet(s: Server, s': Server) {
    s'.role.Leader? ==>
      && s.role.Leader? && s'.term == s.term && s'.id == s.id && s'.log == s.log && s'.replicated == s.replicated
      && s'.nextIndex == s.nextIndex && s'.lastRequest == s.lastRequest
  }

  lemma TenureQuietKeeps(c: Cluster, c': Cluster, i: Id, s': Server)
    requires TenureInv(c) && c'.Shaped()
    requires TenureQuiet(c.servers[i], s') && c'.servers == c.servers[i := s']
    requires c'.h.settled == c.h.settled && c'.h.stored == c.h.stored && c'.h.leaderOf == c.h.leaderOf
    requires c'.net.appends == c.net.appends
    requires forall r :: r in c'.net.replies && r !in c.net.replies ==> !r.origin.Appending?
    ensures TenureInv(c')
  {
    forall j: Id | c'.servers[j].role.Leader?
      ensures TenureSound(c'.servers[j], c'.h, c'.net)
    {
      assert TenureSound(c.servers[j], c.h, c.net);
      forall k | 0 <= k < |c'.servers[j].log| && c'.servers[j].log[k].term == c'.servers[j].term
        ensures c'.servers[j].replicated[k] <= 1 + |Confirmed(c'.servers[j], c'.h.settled, k)|
      {
        assert Confirmed(c'.servers[j], c'.h.settled, k) == Confirmed(c.servers[j], c.h.settled, k);
      }
    }
  }

  lemma SendKeepsTenure(c: Cluster, i: Id, f: Id)
    requires TenureInv(c) && LeadersWon(c) && Enabled(STRICT, c, SendAppend(i, f))
    ensures TenureInv(DoSend(c, i, f))
  {
    var c' := DoSend(c, i, f);
    var m := AppendRequestTo(c.servers[i], f);
    forall j: Id | c'.servers[j].role.Leader?
      ensures TenureSound(c'.servers[j], c'.h, c'.net)
    {
      assert m.term == c.servers[j].term ==> j == i;
      SentRequestCurrent(c.servers[j], c.h, c.net, m);
    }
  }

  /** A leader's own new request is the outstanding one; requests of other terms do not count. */
  lemma SentRequestCurrent(s: Server, h: History, net: Network, m: AppendRequest)
    requires s.Shaped() && TenureSound(s, h, net)
    requires m.term == s.term ==>
      m.requestId == s.lastRequest[m.follower] && m.prevIndex == s.nextIndex[m.follower] - 1
    ensures TenureSound(s, h, net.(appends := net.appends + {m}))
  {
  }

  /** The only entry of its own term that a new leader has is the one it adds. */
  lemma NewLeaderCounts(log: Log, s': Server, tl: Family, h': History)
    requires s'.Shaped() && Matched(log, tl) && s'.term !in tl
    requires |s'.log| == |log| + 1 && log <= s'.log && s'.replicated[|log|] == 1
    ensures CountsSound(s', h')
  {
    forall n | 0 <= n < |log|
      ensures s'.log[n].term in tl
    {
      assert MatchedAt(log, n, tl) && s'.log[n] == log[n];
    }
    forall k | 0 <= k < |s'.log| && s'.log[k].term == s'.term
      ensures s'.replicated[k] <= 1 + |Confirmed(s', h'.settled, k)|
    {
      assert k == |log|;
    }
  }

  /** A tenure begins: nothing of its term is in the network yet. */
  lemma WinKeepsTenure(c: Cluster, c': Cluster, i: Id, s': Server)
    requires TenureInv(c) && LogInv(c) && LeadersWon(c) && TrafficFromWinners(c.net, c.h.leaderOf) && c'.Shaped()
    requires var s := c.servers[i];
      && s.term !in c.h.leaderOf && s'.term == s.term && s'.id == i && s'.role.Leader?
      && |s'.log| == |s.log| + 1 && s.log <= s'.log
      && |s'.replicated| == |s'.log| && s'.replicated[|s.log|] == 1
      && s'.nextIndex == Filled(|s'.log|)
      && c'.servers == c.servers[i := s']
      && c'.h.stored == c.h.stored[(s.term, i) := |s'.log|]
      && c'.h.leaderOf == c.h.leaderOf[s.term := i]
    requires c'.h.settled == c.h.settled
    requires c'.net.appends == c.net.appends && c'.net.replies <= c.net.replies
    ensures TenureInv(c')
  {
    assert Fits(c.servers[i], c.h.termLog) && c'.servers[i] == s';
    NothingStoredYet(c, s'.term, i);
    NewLeaderCounts(c.servers[i].log, s', c.h.termLog, c'.h);
    NewLeaderSound(s', c'.h, c'.net);
    forall j: Id | j != i && c'.servers[j].role.Leader?
      ensures TenureSound(c'.servers[j], c'.h, c'.net)
    {
      assert TenureSound(c.servers[j], c.h, c.net);
      OthersKeepTenure(c, c', j, s'.term);
    }
    RepliesStaySound(c'.net.replies, c.h, c'.h);
  }

  lemma NothingStoredYet(c: Cluster, t: int, i: Id)
    requires c.Shaped() && StoredFits(c) && t !in c.h.termLog
    ensures (t, i) !in c.h.stored
  {
    assert forall u: int, j: Id :: (u, j) in c.h.stored ==> Keeps(c.servers[j], u, c.h.stored[(u, j)], c.h.termLog);
  }

  lemma NewLeaderSound(s: Server, h: History, net: Network)
    requires s.Shaped() && CountsSound(s, h) && StoredBy(h, s.term, s.id) == |s.log| && s.nextIndex == Filled(|s.log|)
    requires forall m :: m in net.appends ==> m.term != s.term
    requires forall r :: r in net.replies ==> !AnswersTerm(r, s.term)
    requires forall f: Id :: (s.term, f) !in h.settled
    ensures TenureSound(s, h, net)
  {
  }

  /** A leader of another term is not affected. */
  lemma OthersKeepTenure(c: Cluster, c': Cluster, j: Id, t: int)
    requires c.Shaped() && c'.Shaped() && c'.servers[j] == c.servers[j] && c.servers[j].term != t
    requires TenureSound(c.servers[j], c.h, c.net)
    requires forall u: int, f: Id :: u != t ==> StoredBy(c'.h, u, f) == StoredBy(c.h, u, f)
    requires forall u: int, f: Id :: u != t ==> ((u, f) in c'.h.settled <==> (u, f) in c.h.settled)
    requires c'.net.appends == c.net.appends && c'.net.replies <= c.net.replies
    ensures TenureSound(c'.servers[j], c'.h, c'.net)
  {
    var s := c.servers[j];
    forall k | 0 <= k < |s.log| && s.log[k].term == s.term
      ensures s.replicated[k] <= 1 + |Confirmed(s, c'.h.settled, k)|
    {
      assert Confirmed(s, c'.h.settled, k) == Confirmed(s, c.h.settled, k);
    }
  }

  // ---------------------------------------------------------------------------
  // Client entries

  lemma LeaderAppends(s: Server, s': Server, h: History, h': History, net: Network, e: Entry)
    requires s.Shaped() && CanAppend(s) && TenureSound(s, h, net) && s' == AppendEntry(s, e)
    requires h' == h.(termLog := h'.termLog, stored := h.stored[(s.term, s.id) := |s'.log|])
    ensures TenureSound(s', h', net)
  {
    forall k | 0 <= k < |s'.log| && s'.log[k].term == s'.term
      ensures s'.replicated[k] <= 1 + |Confirmed(s', h'.settled, k)|
    {
      assert Confirmed(s', h'.settled, k) == Confirmed(s, h.settled, k);
    }
  }

  lemma ClientKeepsTenure(c: Cluster, i: Id, e: Entry)
    requires TenureInv(c) && LeadersWon(c)
    ensures TenureInv(DoClient(c, i, e))
  {
    var s := c.servers[i];
    if CanAppend(s) {
      var c' := DoClient(c, i, e);
      assert TenureSound(s, c.h, c.net);
      LeaderAppends(s, c'.servers[i], c.h, c'.h, c.net, e);
      OtherTenuresKept(c, c', i);
      RepliesStaySound(c.net.replies, c.h, c'.h);
    }
  }

  /** A reply stays true as the recorded copies grow. */
  lemma RepliesStaySound(replies: set<Reply>, h: History, h': History)
    requires h.leaderOf.Keys <= h'.leaderOf.Keys
    requires forall t: int, i: Id :: StoredBy(h', t, i) >= StoredBy(h, t, i)
    requires forall r :: r in replies && r.origin.Appending? ==> ReplySound(r, h)
    ensures forall r :: r in replies && r.origin.Appending? ==> ReplySound(r, h')
  {
  }

  /** A step of the leader of one term does not concern the leaders of other terms. */
  lemma OtherTenuresKept(c: Cluster, c': Cluster, i: Id)
    requires TenureInv(c) && LeadersWon(c) && c.servers[i].role.Leader? && c'.Shaped()
    requires forall j: Id :: j != i ==> c'.servers[j] == c.servers[j]
    requires forall u: int, f: Id :: u != c.servers[i].term ==> StoredBy(c'.h, u, f) == StoredBy(c.h, u, f)
    requires forall u: int, f: Id :: u != c.servers[i].term ==> ((u, f) in c'.h.settled <==> (u, f) in c.h.settled)
    requires c'.net.appends == c.net.appends && c'.net.replies <= c.net.replies
    ensures forall j: Id :: j != i && c'.servers[j].role.Leader? ==> TenureSound(c'.servers[j], c'.h, c'.net)
  {
    forall j: Id | j != i && c'.servers[j].role.Leader?
      ensures TenureSound(c'.servers[j], c'.h, c'.net)
    {
      assert c.servers[j].term != c.servers[i].term;
      OthersKeepTenure(c, c', j, c.servers[i].term);
    }
  }

  // ---------------------------------------------------------------------------
  // Followers

  /** A follower that has stored what precedes the request passes the check. */
  lemma StoredPasses(c: Cluster, m: AppendRequest)
    requires c.Shaped() && LogsFit(c) && StoredFits(c) && m.term in c.h.termLog && CutFrom(m, c.h.termLog[m.term])
    requires c.servers[m.follower].term == m.term
    requires StoredBy(c.h, m.term, m.follower) >= m.prevIndex + 1
    ensures Consistent(c.servers[m.follower], m)
  {
    var s := c.servers[m.follower];
    assert Fits(s, c.h.termLog) && CutFrom(m, c.h.termLog[m.term]);
    if m.prevIndex >= 0 {
      var n := c.h.stored[(m.term, m.follower)];
      assert Keeps(s, m.term, n, c.h.termLog);
      assert s.log[m.prevIndex] == s.log[..n][m.prevIndex] == c.h.termLog[m.term][..n][m.prevIndex];
    }
  }

  lemma NewReplySound(c: Cluster, m: AppendRequest, r: Reply, h': History)
    requires c.Shaped() && LogsFit(c) && StoredFits(c) && m.term in c.h.termLog && CutFrom(m, c.h.termLog[m.term])
    requires c.servers[m.follower].term >= m.term && m.leader != m.follower && m.term in h'.leaderOf
    requires r == AppendReply(c.servers[m.follower], m, c.servers[m.follower].term,
                              if Consistent(c.servers[m.follower], m) then 1 else 0)
    requires r.success == 1 ==> StoredBy(h', m.term, m.follower) >= Covered(m)
    ensures ReplySound(r, h')
  {
    if r.success == 0 && r.term == m.term && m.prevIndex < 0 {
      StoredPasses(c, m);
    }
  }

  /** Once a follower has settled, it accepts the outstanding request. */
  lemma OutstandingPasses(c: Cluster, m: AppendRequest, r: Reply, s: Server)
    requires c.Shaped() && LogsFit(c) && StoredFits(c) && m.term in c.h.termLog && CutFrom(m, c.h.termLog[m.term])
    requires s.Shaped() && TenureSound(s, c.h, c.net) && m in c.net.appends
    requires r == AppendReply(c.servers[m.follower], m, c.servers[m.follower].term,
                              if Consistent(c.servers[m.follower], m) then 1 else 0)
    requires Outstanding(r, s) && (s.term, r.from) in c.h.settled
    ensures r.success == 1
  {
    StoredPasses(c, m);
  }

  lemma LeaderSeesReply(s: Server, h: History, h': History, net: Network, m: AppendRequest, r: Reply)
    requires s.Shaped() && TenureSound(s, h, net) && m in net.appends
    requires r.origin == Appending(m.term, m.prevIndex, m.entry.Some?) && r.from == m.follower
    requires r.requestId == m.requestId
    requires Outstanding(r, s) && (s.term, r.from) in h.settled ==> r.success > 0
    requires h'.settled == h.settled
    requires forall t: int, i: Id :: StoredBy(h', t, i) >= StoredBy(h, t, i)
    requires StoredBy(h', s.term, s.id) == StoredBy(h, s.term, s.id)
    ensures TenureSound(s, h', net.(replies := net.replies + {r}))
  {
    forall k | 0 <= k < |s.log| && s.log[k].term == s.term
      ensures s.replicated[k] <= 1 + |Confirmed(s, h'.settled, k)|
    {
    }
  }

  lemma LeadersSeeAppend(c: Cluster, m: AppendRequest, h': History, r: Reply)
    requires TenureInv(c) && LogsFit(c) && StoredFits(c) && LeadersWon(c) && TrafficFromWinners(c.net, c.h.leaderOf)
    requires m in c.net.appends && m.term in c.h.termLog && CutFrom(m, c.h.termLog[m.term])
    requires r == AppendReply(c.servers[m.follower], m, c.servers[m.follower].term,
                              if Consistent(c.servers[m.follower], m) then 1 else 0)
    requires h'.settled == c.h.settled
    requires forall t: int, i: Id :: StoredBy(h', t, i) >= StoredBy(c.h, t, i)
    requires forall t: int, i: Id :: (t, i) != (m.term, m.follower) ==> StoredBy(h', t, i) == StoredBy(c.h, t, i)
    ensures forall j: Id :: c.servers[j].role.Leader? ==>
      TenureSound(c.servers[j], h', c.net.(replies := c.net.replies + {r}))
  {
    forall j: Id | c.servers[j].role.Leader?
      ensures TenureSound(c.servers[j], h', c.net.(replies := c.net.replies + {r}))
    {
      var s := c.servers[j];
      assert TenureSound(s, c.h, c.net);
      if Outstanding(r, s) && (s.term, r.from) in c.h.settled {
        OutstandingPasses(c, m, r, s);
      }
      assert s.term == m.term ==> j != m.follower;
      LeaderSeesReply(s, c.h, h', c.net, m, r);
    }
  }

  /** What an append request changes, whatever the log of the follower. */
  lemma AppendChanges(c: Cluster, m: AppendRequest)
    requires c.Shaped() && c.servers[m.follower].term >= m.term && Covered(m) >= 0
    requires Consistent(c.servers[m.follower], m) ==> Storable(c.servers[m.follower], m)
    ensures var (s', r, c') := (HandleAppendRequest(c.servers[m.follower], m).0,
        AppendReply(c.servers[m.follower], m, c.servers[m.follower].term,
                    if Consistent(c.servers[m.follower], m) then 1 else 0), DoAppend(c, m));
      && c'.servers == c.servers[m.follower := s'] && (s' == c.servers[m.follower] || s'.role.Follower?)
      && c'.net == c.net.(replies := c.net.replies + {r})
      && c'.h == c.h.(stored := c'.h.stored)
      && (r.success == 1 ==> StoredBy(c'.h, m.term, m.follower) >= Covered(m))
      && (forall t: int, i: Id :: StoredBy(c'.h, t, i) >= StoredBy(c.h, t, i))
      && (forall t: int, i: Id :: (t, i) != (m.term, m.follower) ==> StoredBy(c'.h, t, i) == StoredBy(c.h, t, i))
  {
  }

  lemma AppendKeepsTenureAtTerm(c: Cluster, m: AppendRequest)
    requires TenureInv(c) && LogInv(c) && LeadersWon(c) && TrafficFromWinners(c.net, c.h.leaderOf)
    requires m in c.net.appends && c.servers[m.follower].term >= m.term
    requires Consistent(c.servers[m.follower], m) ==> Storable(c.servers[m.follower], m)
    ensures TenureInv(DoAppend(c, m))
  {
    assert CutFrom(m, c.h.termLog[m.term]);
    AppendChanges(c, m);
    var r := AppendReply(c.servers[m.follower], m, c.servers[m.follower].term,
                         if Consistent(c.servers[m.follower], m) then 1 else 0);
    AppendStepKeepsTenure(c, DoAppend(c, m), m, r);
  }

  lemma AppendStepKeepsTenure(c: Cluster, c': Cluster, m: AppendRequest, r: Reply)
    requires TenureInv(c) && LogsFit(c) && StoredFits(c) && LeadersWon(c) && TrafficFromWinners(c.net, c.h.leaderOf)
    requires m in c.net.appends && m.term in c.h.termLog && CutFrom(m, c.h.termLog[m.term])
    requires c.servers[m.follower].term >= m.term && c'.Shaped()
    requires r == AppendReply(c.servers[m.follower], m, c.servers[m.follower].term,
                              if Consistent(c.servers[m.follower], m) then 1 else 0)
    requires c'.servers == c.servers[m.follower := c'.servers[m.follower]]
    requires c'.servers[m.follower] == c.servers[m.follower] || c'.servers[m.follower].role.Follower?
    requires c'.net == c.net.(replies := c.net.replies + {r}) && c'.h == c.h.(stored := c'.h.stored)
    requires r.success == 1 ==> StoredBy(c'.h, m.term, m.follower) >= Covered(m)
    requires forall t: int, i: Id :: StoredBy(c'.h, t, i) >= StoredBy(c.h, t, i)
    requires forall t: int, i: Id :: (t, i) != (m.term, m.follower) ==> StoredBy(c'.h, t, i) == StoredBy(c.h, t, i)
    ensures TenureInv(c')
  {
    NewReplySound(c, m, r, c'.h);
    RepliesStaySound(c.net.replies, c.h, c'.h);
    LeadersSeeAppend(c, m, c'.h, r);
  }

  lemma AdoptKeepsTenure(c: Cluster, i: Id, t: int)
    requires TenureInv(c)
    ensures TenureInv(Adopt(c, i, t))
  {
    TenureQuietKeeps(c, Adopt(c, i, t), i, Adopt(c, i, t).servers[i]);
  }

  lemma AppendKeepsTenure(c: Cluster, m: AppendRequest)
    requires TenureInv(c) && LogInv(c) && ElectionInv(c) && Enabled(STRICT, c, DeliverAppend(m))
    ensures TenureInv(DoAppend(c, m))
  {
    AdoptFirst(c, m);
    AdoptKeeps(c, m.follower, m.term);
    AdoptKeepsLogs(c, m.follower, m.term);
    AdoptKeepsTenure(c, m.follower, m.term);
    AppendKeepsTenureAtTerm(Adopt(c, m.follower, m.term), m);
  }

  // ---------------------------------------------------------------------------
  // The leader consumes a reply

  /** Everything the delivery hypotheses give about a reply that is consumed. */
  ghost predicate Consumable(c: Cluster, r: Reply) {
    && c.Shaped() && r in c.net.replies
    && Expected(c.servers[r.to], r) && c.servers[r.to].start == 0
    && AnswersTerm(r, c.servers[r.to].term)
    && (r.success != 0 && c.servers[r.to].nextIndex[r.from] < |c.servers[r.to].log| ==> r.origin.carried)
  }

  /** A refusal can only come before the first success, and never at the first position. */
  lemma RefusalMeansProbing(c: Cluster, r: Reply)
    requires TenureInv(c) && Consumable(c, r) && r.success == 0
    ensures (r.term, r.from) !in c.h.settled && c.servers[r.to].nextIndex[r.from] >= 1
  {
    assert TenureSound(c.servers[r.to], c.h, c.net) && ReplySound(r, c.h);
    assert Outstanding(r, c.servers[r.to]);
  }

  /** A success acknowledges everything below the new `next_index`. */
  lemma SuccessMeansStored(c: Cluster, r: Reply)
    requires TenureInv(c) && Consumable(c, r) && r.success != 0
    ensures var s := c.servers[r.to];
      StoredBy(c.h, r.term, r.from) >= s.nextIndex[r.from] + (if s.nextIndex[r.from] < |s.log| then 1 else 0)
  {
    assert TenureSound(c.servers[r.to], c.h, c.net) && ReplySound(r, c.h);
  }

  lemma RefusalKeepsTenure(c: Cluster, r: Reply, s': Server)
    requires TenureInv(c) && LogInv(c) && Consumable(c, r) && r.success == 0
    requires |s'.lastResponse| == N_SERVERS && c.servers[r.to].nextIndex[r.from] >= 0
    requires s' == HandleAppendReply(c.servers[r.to].(lastResponse := s'.lastResponse), r.from, 0)
    ensures TenureSound(s', c.h, c.net)
  {
    var s := c.servers[r.to];
    RefusalMeansProbing(c, r);
    assert TenureSound(s, c.h, c.net);
    forall k | 0 <= k < |s'.log| && s'.log[k].term == s'.term
      ensures s'.replicated[k] <= 1 + |Confirmed(s', c.h.settled, k)|
    {
      assert Confirmed(s', c.h.settled, k) == Confirmed(s, c.h.settled, k);
    }
  }

  /** What a success of f changes at the leader. */
  lemma SuccessChanges(s: Server, s': Server, f: Id, k: nat)
    requires s.Shaped() && s'.Shaped() && NextInLog(s) && s.start == 0 && k < |s.log|
    requires s' == HandleAppendReply(s.(lastResponse := s'.lastResponse), f, 1)
    ensures s'.term == s.term && s'.id == s.id && s'.log == s.log
    ensures forall g: Id :: g != f ==> s'.nextIndex[g] == s.nextIndex[g]
    ensures s'.nextIndex[f] == if s.nextIndex[f] < |s.log| then s.nextIndex[f] + 1 else s.nextIndex[f]
    ensures s'.replicated[k] <= s.replicated[k] + (if s.nextIndex[f] == k then 1 else 0)
  {
  }

  /** Who has confirmed position k, when f has settled and its next index has not gone back. */
  lemma ConfirmedAfter(s: Server, s': Server, settled: set<(int, Id)>, f: Id, k: nat)
    requires s.Shaped() && s'.Shaped() && s'.term == s.term && s'.id == s.id && f != s.id
    requires forall g: Id :: g != f ==> s'.nextIndex[g] == s.nextIndex[g]
    requires s'.nextIndex[f] >= s.nextIndex[f]
    ensures Confirmed(s', settled + {(s.term, f)}, k)
         == Confirmed(s, settled, k) + if s'.nextIndex[f] > k then {f} else {}
  {
    var (a, b) := (Confirmed(s, settled, k), Confirmed(s', settled + {(s.term, f)}, k));
    forall g: Id
      ensures g in b <==> g in a || (g == f && s'.nextIndex[f] > k)
    {
    }
  }

  lemma CountAfterSuccess(s: Server, s': Server, h: History, h': History, f: Id, k: nat)
    requires s.Shaped() && s'.Shaped() && NextInLog(s) && s.start == 0 && k < |s.log|
    requires s' == HandleAppendReply(s.(lastResponse := s'.lastResponse), f, 1)
    requires h'.settled == h.settled + {(s.term, f)} && f != s.id
    requires s.replicated[k] <= 1 + |Confirmed(s, h.settled, k)|
    ensures s'.replicated[k] <= 1 + |Confirmed(s', h'.settled, k)|
  {
    SuccessChanges(s, s', f, k);
    ConfirmedAfter(s, s', h.settled, f, k);
    if s.nextIndex[f] == k {
      assert f !in Confirmed(s, h.settled, k);
    } else {
      SubsetCardinality(Confirmed(s, h.settled, k), Confirmed(s', h'.settled, k));
    }
  }

  lemma CountsAfterSuccess(s: Server, s': Server, h: History, h': History, f: Id)
    requires s.Shaped() && s'.Shaped() && CountsSound(s, h) && NextInLog(s) && s.start == 0
    requires s' == HandleAppendReply(s.(lastResponse := s'.lastResponse), f, 1)
    requires h'.settled == h.settled + {(s.term, f)} && f != s.id
    ensures CountsSound(s', h')
  {
    forall k | 0 <= k < |s'.log| && s'.log[k].term == s'.term
      ensures s'.replicated[k] <= 1 + |Confirmed(s', h'.settled, k)|
    {
      CountAfterSuccess(s, s', h, h', f, k);
    }
  }

  lemma SuccessKeepsTenure(c: Cluster, r: Reply, s': Server, h': History)
    requires TenureInv(c) && LogInv(c) && Consumable(c, r) && r.success == 1
    requires |s'.lastResponse| == N_SERVERS && c.servers[r.to].nextIndex[r.from] >= 0
    requires s' == HandleAppendReply(c.servers[r.to].(lastResponse := s'.lastResponse), r.from, 1)
    requires h' == c.h.(settled := c.h.settled + {(r.term, r.from)})
    ensures TenureSound(s', h', c.net)
  {
    var s := c.servers[r.to];
    SuccessMeansStored(c, r);
    assert TenureSound(s, c.h, c.net) && ReplySound(r, c.h);
    CountsAfterSuccess(s, s', c.h, h', r.from);
    NextAfterSuccess(s, s', c.h, h', c.net, r);
  }

  /** After a success the follower's requests and replies are no longer outstanding, and it has settled. */
  lemma NextAfterSuccess(s: Server, s': Server, h: History, h': History, net: Network, r: Reply)
    requires s.Shaped() && s'.Shaped() && TenureSound(s, h, net) && s.start == 0 && r.from != s.id && r.term == s.term
    requires s' == HandleAppendReply(s.(lastResponse := s'.lastResponse), r.from, 1)
    requires h' == h.(settled := h.settled + {(s.term, r.from)})
    requires StoredBy(h, s.term, r.from) >= s.nextIndex[r.from] + (if s.nextIndex[r.from] < |s.log| then 1 else 0)
    ensures NextInLog(s') && RequestsCurrent(s', net.appends) && RepliesCurrent(s', net.replies)
    ensures SettledSound(s', h', net.replies)
  {
  }

  lemma ConsumeKeepsLeader(c: Cluster, r: Reply, stale: Entry)
    requires TenureInv(c) && LogInv(c) && Consumable(c, r)
    ensures var s' := HandleReply(c.servers[r.to], r, stale);
      TenureSound(s', NotedReply(c.h, c.servers[r.to], s', r), c.net)
  {
    var s := c.servers[r.to];
    assert TenureSound(s, c.h, c.net) && ReplySound(r, c.h);
    var s' := HandleReply(s, r, stale);
    if r.success == 0 {
      RefusalKeepsTenure(c, r, s');
    } else {
      SuccessKeepsTenure(c, r, s', NotedReply(c.h, s, s', r));
    }
  }

  /** The history of a reply that a leader takes: at most the follower settles. */
  lemma NotedWhenTaken(h: History, s: Server, s': Server, r: Reply)
    requires s.Shaped() && |h.tally| == N_SERVERS && Expected(s, r)
    ensures var h' := NotedReply(h, s, s', r);
      h'.stored == h.stored && h'.leaderOf == h.leaderOf
      && (h'.settled == h.settled || h'.settled == h.settled + {(s.term, r.from)})
  {
  }

  lemma LeaderStepKeepsTenure(c: Cluster, c': Cluster, i: Id, f: Id)
    requires TenureInv(c) && LeadersWon(c) && c'.Shaped() && c.servers[i].role.Leader?
    requires c'.servers == c.servers[i := c'.servers[i]] && TenureSound(c'.servers[i], c'.h, c'.net)
    requires c'.net == c.net && c'.h.stored == c.h.stored && c'.h.leaderOf == c.h.leaderOf
    requires c'.h.settled == c.h.settled || c'.h.settled == c.h.settled + {(c.servers[i].term, f)}
    ensures TenureInv(c')
  {
    OtherTenuresKept(c, c', i);
  }

  lemma ConsumeKeepsTenure(c: Cluster, c': Cluster, r: Reply, stale: Entry)
    requires TenureInv(c) && LogInv(c) && ElectionInv(c) && Consumable(c, r) && c'.Shaped()
    requires var (s, s') := (c.servers[r.to], HandleReply(c.servers[r.to], r, stale));
      c'.servers == c.servers[r.to := s'] && c'.h == NotedReply(c.h, s, s', r) && c'.net == c.net
    ensures TenureInv(c')
  {
    ConsumeKeepsLeader(c, r, stale);
    NotedWhenTaken(c.h, c.servers[r.to], c'.servers[r.to], r);
    LeaderStepKeepsTenure(c, c', r.to, r.from);
  }

  lemma ReplyKeepsTenure(mode: Delivery, c: Cluster, r: Reply, stale: Entry)
    requires TenureInv(c) && LogInv(c) && ElectionInv(c) && Enabled(mode, c, DeliverReply(r, stale))
    requires !mode.staleReplies && !mode.blindAcks
    ensures TenureInv(DoReply(mode, c, r, stale))
  {
    var s := c.servers[r.to];
    assert Fits(s, c.h.termLog);
    if Wins(s, r) {
      WonTermIsNew(c, r);
      WinKeepsTenure(c, DoReply(mode, c, r, stale), r.to, HandleReply(s, r, stale));
    } else if Expected(s, r) {
      assert TenureSound(s, c.h, c.net);
      ConsumeKeepsTenure(c, DoReply(mode, c, r, stale), r, stale);
    } else {
      OtherReplyIsQuiet(s, r, stale);
      TenureQuietKeeps(c, DoReply(mode, c, r, stale), r.to, HandleReply(s, r, stale));
    }
  }

  /** A leader ignores a reply that it does not expect. */
  lemma OtherReplyIsQuiet(s: Server, r: Reply, stale: Entry)
    requires s.Shaped() && !Expected(s, r) && !Wins(s, r)
    ensures TenureQuiet(s, HandleReply(s, r, stale))
  {
  }

  // ---------------------------------------------------------------------------
  // Runs

  lemma VoteKeepsTenure(c: Cluster, i: Id, m: VoteRequest)
    requires TenureInv(c)
    ensures TenureInv(DoVote(c, i, m))
  {
    TenureQuietKeeps(c, DoVote(c, i, m), i, HandleVoteRequest(c.servers[i], m).0);
  }

  lemma StepKeepsTenure(mode: Delivery, c: Cluster, a: Action)
    requires TenureInv(c) && LogInv(c) && ElectionInv(c) && Enabled(mode, c, a) && KeepsWholeLog(a)
    requires !mode.staleReplies && !mode.blindAcks
    ensures TenureInv(Step(mode, c, a))
  {
    match a
    case Elect(i) => TenureQuietKeeps(c, DoElect(c, i), i, StartElection(c.servers[i]));
    case DeliverVote(i, m) => VoteKeepsTenure(c, i, m);
    case CrashInVote(i, m) =>
      TenureQuietKeeps(c, DoCrashInVote(c, i, m), i, Restore(ConvertToFollower(c.servers[i], m.term)));
    case DeliverReply(r, stale) => ReplyKeepsTenure(mode, c, r, stale);
    case SendAppend(i, f) => SendKeepsTenure(c, i, f);
    case DeliverAppend(m) => AppendKeepsTenure(c, m);
    case ClientAppend(i, e) => ClientKeepsTenure(c, i, e);
    case Restart(i) => TenureQuietKeeps(c, DoRestart(c, i), i, Restore(c.disk[i]));
  }

  lemma StartsWithoutTenure(capacity: nat)
    ensures TenureInv(Start(capacity))
  {
  }

  lemma {:induction false} RunKeepsTenure(mode: Delivery, capacity: nat, states: seq<Cluster>, actions: seq<Action>, n: nat)
    requires IsWholeLogRun(mode, capacity, states, actions) && n < |states| && mode == STRICT
    ensures CoreInv(states[n]) && TenureInv(states[n])
  {
    RunKeepsCore(mode, capacity, states, actions, n);
    if n > 0 {
      RunKeepsTenure(mode, capacity, states, actions, n - 1);
      StepKeepsTenure(mode, states[n - 1], actions[n - 1]);
    } else {
      StartsWithoutTenure(capacity);
    }
  }

  /** The servers that hold the leader's entry at position k, stored while in the leader's term. */
  lemma CountedHaveIt(s: Server, h: History, k: nat)
    requires s.Shaped() && CountsSound(s, h) && StoredBy(h, s.term, s.id) == |s.log|
    requires s.term in h.termLog && h.termLog[s.term] == s.log
    requires forall f: Id :: (s.term, f) in h.settled ==> StoredBy(h, s.term, f) >= s.nextIndex[f]
    requires k < |s.log| && s.log[k].term == s.term
    ensures {s.id} + Confirmed(s, h.settled, k) <= Takers(h, s.term, k)
    ensures s.replicated[k] <= |Takers(h, s.term, k)|
  {
    var confirmed := Confirmed(s, h.settled, k);
    forall f: Id | f in {s.id} + confirmed
      ensures Took(h, s.term, f, k)
    {
    }
    SubsetCardinality({s.id} + confirmed, Takers(h, s.term, k));
    assert |{s.id} + confirmed| == 1 + |confirmed|;
  }

  /**
    The replication counter is sound: in every state of a run, the counter of a
    leader's entry of its own term is at most the number of servers that stored
    the leader's log up to that entry while in that term.
  */
  lemma ReplicationCountSound(capacity: nat, states: seq<Cluster>, actions: seq<Action>, n: nat, i: Id, k: nat)
    requires IsWholeLogRun(STRICT, capacity, states, actions) && n < |states|
    requires var s := states[n].servers[i]; s.role.Leader? && k < |s.log| && s.log[k].term == s.term
    ensures states[n].servers[i].replicated[k] <= |Takers(states[n].h, states[n].servers[i].term, k)|
  {
    RunKeepsTenure(STRICT, capacity, states, actions, n);
    var (s, c) := (states[n].servers[i], states[n]);
    assert TenureSound(s, c.h, c.net) && RoleFits(s, c.h);
    CountedHaveIt(s, c.h, k);
  }
}
