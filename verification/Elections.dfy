/**
  Election safety, over every run of the cluster, with compaction, snapshot
  installs and crashes: a term has at most one leader, provided that no vote
  reply is delivered twice.
*/
module Elections {
  import opened RaftTypes
  import opened ServerSpec
  import opened Cluster

  /** What every handler saves before it sends anything. */
  predicate SameImage(s: Server, image: Server) {
    && image.id == s.id && image.capacity == s.capacity
    && image.term == s.term && image.votedFor == s.votedFor
    && image.start == s.start && image.log == s.log && image.replicated == s.replicated
    && image.commit == s.commit
  }

  ghost predicate DiskCurrent(c: Cluster)
    requires c.Shaped()
  {
    forall i: Id :: SameImage(c.servers[i], c.disk[i]) && c.servers[i].term >= 0
  }

  /** A recorded vote binds the voter: it remembers it as long as the term lasts. */
  ghost predicate VotesBinding(c: Cluster)
    requires c.Shaped()
  {
    forall t: int, v: Id :: (t, v) in c.h.votes ==>
      && t <= c.servers[v].term
      && (t == c.servers[v].term ==> c.servers[v].votedFor == Some(c.h.votes[(t, v)]))
  }

  /** A granting reply reports a recorded vote. */
  predicate Granting(r: Reply) {
    r.origin.Ballot? && r.success > 0
  }

  ghost predicate GrantsRecorded(c: Cluster) {
    forall r :: r in c.net.replies ==>
      && (r.origin.Ballot? <==> r.requestId == -1)
      && (Granting(r) ==> r.success == 1 && (r.term, r.from) in c.h.votes && c.h.votes[(r.term, r.from)] == r.to)
  }

  /** The counter of candidate s is the number of distinct voters it has counted. */
  ghost predicate TallyOf(s: Server, tally: set<Id>, votes: map<(int, Id), Id>, replies: set<Reply>) {
    && s.nvoted == |tally|
    && (forall v: Id :: v in tally ==> (s.term, v) in votes && votes[(s.term, v)] == s.id)
    && (forall r :: r in replies && Granting(r) && r.to == s.id && r.term == s.term ==> r.from !in tally)
  }

  ghost predicate TallyExact(c: Cluster)
    requires c.Shaped()
  {
    forall i: Id :: c.servers[i].role.Candidate? ==> TallyOf(c.servers[i], c.h.tally[i], c.h.votes, c.net.replies)
  }

  /** s has a majority of the votes of term t, and never runs again in it. */
  ghost predicate Won(t: int, s: Server, quorum: set<Id>, votes: map<(int, Id), Id>) {
    && IsMajority(|quorum|)
    && (forall v: Id :: v in quorum ==> (t, v) in votes && votes[(t, v)] == s.id)
    && t <= s.term
    && (t == s.term ==> !s.role.Candidate?)
  }

  ghost predicate WinnersElected(c: Cluster)
    requires c.Shaped()
  {
    && c.h.quorum.Keys == c.h.leaderOf.Keys
    && (forall t :: t in c.h.leaderOf ==> Won(t, c.servers[c.h.leaderOf[t]], c.h.quorum[t], c.h.votes))
  }

  ghost predicate LeadersWon(c: Cluster)
    requires c.Shaped()
  {
    forall i: Id :: c.servers[i].role.Leader? ==>
      c.servers[i].term in c.h.leaderOf && c.h.leaderOf[c.servers[i].term] == i
      && (forall f: Id :: c.servers[i].lastRequest[f] >= 0)
  }

  /** Only the winner of a term sends requests in it, and successes return to it. */
  ghost predicate TrafficFromWinners(net: Network, leaderOf: map<int, Id>) {
    && (forall m :: m in net.appends ==>
          m.term in leaderOf && leaderOf[m.term] == m.leader && m.leader != m.follower && m.requestId >= 0)
    && (forall m :: m in net.installs ==> m.term in leaderOf && leaderOf[m.term] == m.leader && m.requestId >= 0)
    && (forall r :: r in net.replies && !r.origin.Ballot? && r.success > 0 ==>
          r.term in leaderOf && leaderOf[r.term] == r.to)
  }

  ghost predicate ElectionInv(c: Cluster) {
    && c.Shaped()
    && DiskCurrent(c)
    && VotesBinding(c)
    && GrantsRecorded(c)
    && TallyExact(c)
    && WinnersElected(c)
    && LeadersWon(c)
    && TrafficFromWinners(c.net, c.h.leaderOf)
  }

  // ---------------------------------------------------------------------------
  // Steps that elections do not notice

  /** Server i takes a step that keeps its term and its vote, and does not gain a role. */
  predicate Quiet(s: Server, s': Server) {
    && s'.term == s.term && s'.votedFor == s.votedFor
    && (s'.role == s.role || s'.role.Follower?)
    && (s'.role.Candidate? ==> s'.nvoted == s.nvoted)
    && s.Shaped() && s'.Shaped()
    && (s'.role.Leader? ==> forall f: Id :: s'.lastRequest[f] >= s.lastRequest[f])
  }

  ghost predicate SameElections(h: History, h': History) {
    h'.votes == h.votes && h'.leaderOf == h.leaderOf && h'.quorum == h.quorum && h'.tally == h.tally
  }

  /** What c' has in common with c when server i takes a quiet step. */
  ghost predicate QuietStep(c: Cluster, c': Cluster, i: Id, s': Server) {
    && c.Shaped() && c'.Shaped()
    && Quiet(c.servers[i], s') && c'.servers == c.servers[i := s'] && SameElections(c.h, c'.h)
    && c'.net.appends == c.net.appends && c'.net.installs == c.net.installs && c'.net.replies <= c.net.replies
  }

  lemma QuietKeepsVotes(c: Cluster, c': Cluster, i: Id, s': Server)
    requires QuietStep(c, c', i, s') && VotesBinding(c) && GrantsRecorded(c)
    ensures VotesBinding(c') && GrantsRecorded(c')
  {
  }

  lemma QuietKeepsTally(c: Cluster, c': Cluster, i: Id, s': Server)
    requires QuietStep(c, c', i, s') && TallyExact(c)
    ensures TallyExact(c')
  {
    forall j: Id | c'.servers[j].role.Candidate?
      ensures TallyOf(c'.servers[j], c'.h.tally[j], c'.h.votes, c'.net.replies)
    {
      assert TallyOf(c.servers[j], c.h.tally[j], c.h.votes, c.net.replies);
    }
  }

  lemma QuietKeepsWinners(c: Cluster, c': Cluster, i: Id, s': Server)
    requires QuietStep(c, c', i, s') && WinnersElected(c) && LeadersWon(c)
    ensures WinnersElected(c') && LeadersWon(c')
  {
    forall t | t in c'.h.leaderOf
      ensures Won(t, c'.servers[c'.h.leaderOf[t]], c'.h.quorum[t], c'.h.votes)
    {
      assert Won(t, c.servers[c.h.leaderOf[t]], c.h.quorum[t], c.h.votes);
    }
  }

  lemma QuietKeeps(c: Cluster, c': Cluster, i: Id, s': Server)
    requires ElectionInv(c) && QuietStep(c, c', i, s')
    requires forall j: Id :: SameImage(c'.servers[j], c'.disk[j])
    ensures ElectionInv(c')
  {
    QuietKeepsVotes(c, c', i, s');
    QuietKeepsTally(c, c', i, s');
    QuietKeepsWinners(c, c', i, s');
  }

  /** A reply that grants no vote can be sent if a success goes to the winner. */
  lemma SendsKeeps(c: Cluster, r: Reply)
    requires ElectionInv(c)
    requires !r.origin.Ballot? ==> r.requestId >= 0
    requires r.origin.Ballot? ==> r.requestId == -1 && r.success <= 0
    requires !r.origin.Ballot? && r.success > 0 ==> r.term in c.h.leaderOf && c.h.leaderOf[r.term] == r.to
    ensures ElectionInv(Sends(c, r))
  {
  }

  // ---------------------------------------------------------------------------
  // The steps

  /** What c' has in common with c when server i stands for the next term. */
  ghost predicate ElectStep(c: Cluster, c': Cluster, i: Id) {
    && c.Shaped() && c'.Shaped()
    && (var s := c'.servers[i];
        && s == StartElection(c.servers[i])
        && c'.servers == c.servers[i := s]
        && c'.net == c.net.(votes := c'.net.votes)
        && c'.h == c.h.(votes := c.h.votes[(s.term, i) := i], candidateLog := c'.h.candidateLog,
                        tally := c.h.tally[i := {i}]))
  }

  lemma ElectKeepsVotes(c: Cluster, c': Cluster, i: Id)
    requires ElectStep(c, c', i) && VotesBinding(c) && GrantsRecorded(c)
    ensures (c'.servers[i].term, i) !in c.h.votes && VotesBinding(c') && GrantsRecorded(c')
  {
  }

  lemma ElectKeepsTally(c: Cluster, c': Cluster, i: Id)
    requires ElectStep(c, c', i) && (c'.servers[i].term, i) !in c.h.votes && VotesBinding(c) && GrantsRecorded(c)
    requires TallyExact(c)
    ensures TallyExact(c')
  {
    forall j: Id | c'.servers[j].role.Candidate?
      ensures TallyOf(c'.servers[j], c'.h.tally[j], c'.h.votes, c'.net.replies)
    {
      if j != i {
        assert TallyOf(c.servers[j], c.h.tally[j], c.h.votes, c.net.replies);
      }
    }
  }

  lemma ElectKeepsWinners(c: Cluster, c': Cluster, i: Id)
    requires ElectStep(c, c', i) && (c'.servers[i].term, i) !in c.h.votes && WinnersElected(c) && LeadersWon(c)
    ensures WinnersElected(c') && LeadersWon(c')
  {
    forall t | t in c'.h.leaderOf
      ensures Won(t, c'.servers[c'.h.leaderOf[t]], c'.h.quorum[t], c'.h.votes)
    {
      assert Won(t, c.servers[c.h.leaderOf[t]], c.h.quorum[t], c.h.votes);
    }
  }

  lemma StandKeeps(c: Cluster, c': Cluster, i: Id)
    requires ElectionInv(c) && ElectStep(c, c', i) && DiskCurrent(c')
    ensures ElectionInv(c')
  {
    ElectKeepsVotes(c, c', i);
    ElectKeepsTally(c, c', i);
    ElectKeepsWinners(c, c', i);
  }

  lemma ElectKeeps(c: Cluster, i: Id)
    requires ElectionInv(c)
    ensures ElectionInv(DoElect(c, i))
  {
    StandKeeps(c, DoElect(c, i), i);
  }

  /** Every handler begins by moving to a newer term, if the datagram has one. */
  function Adopt(c: Cluster, i: Id, t: int): (c': Cluster)
    requires c.Shaped()
    ensures c'.Shaped()
  {
    if c.servers[i].term < t then Save(c, i, ConvertToFollower(c.servers[i], t)) else c
  }

  /** What c' has in common with c when server i moves to a newer term. */
  ghost predicate AdoptStep(c: Cluster, c': Cluster, i: Id) {
    && c.Shaped() && c'.Shaped()
    && c'.servers == c.servers[i := c'.servers[i]] && c'.h == c.h && c'.net == c.net
    && c'.servers[i].term > c.servers[i].term && c'.servers[i].role.Follower? && c'.servers[i].votedFor.None?
  }

  lemma AdoptKeepsTally(c: Cluster, c': Cluster, i: Id)
    requires AdoptStep(c, c', i) && TallyExact(c)
    ensures TallyExact(c')
  {
    forall j: Id | c'.servers[j].role.Candidate?
      ensures TallyOf(c'.servers[j], c'.h.tally[j], c'.h.votes, c'.net.replies)
    {
      assert TallyOf(c.servers[j], c.h.tally[j], c.h.votes, c.net.replies);
    }
  }

  lemma AdoptKeepsWinners(c: Cluster, c': Cluster, i: Id)
    requires AdoptStep(c, c', i) && WinnersElected(c) && LeadersWon(c)
    ensures WinnersElected(c') && LeadersWon(c')
  {
    forall t | t in c'.h.leaderOf
      ensures Won(t, c'.servers[c'.h.leaderOf[t]], c'.h.quorum[t], c'.h.votes)
    {
      assert Won(t, c.servers[c.h.leaderOf[t]], c.h.quorum[t], c.h.votes);
    }
  }

  lemma NewTermKeeps(c: Cluster, c': Cluster, i: Id)
    requires ElectionInv(c) && AdoptStep(c, c', i) && DiskCurrent(c')
    ensures ElectionInv(c')
  {
    AdoptKeepsTally(c, c', i);
    AdoptKeepsWinners(c, c', i);
  }

  lemma AdoptKeeps(c: Cluster, i: Id, t: int)
    requires ElectionInv(c)
    ensures ElectionInv(Adopt(c, i, t))
  {
    if c.servers[i].term < t {
      NewTermKeeps(c, Adopt(c, i, t), i);
    }
  }

  lemma DenyKeeps(c: Cluster, i: Id, m: VoteRequest)
    requires ElectionInv(c) && c.servers[i].term >= m.term && !Grants(c.servers[i], m)
    ensures ElectionInv(DoVote(c, i, m))
  {
    var (s, r) := HandleVoteRequest(c.servers[i], m);
    var c1 := Save(c, i, s);
    QuietKeeps(c, c1, i, s);
    SendsKeeps(c1, r);
  }

  /** What c' has in common with c when server i grants the vote that r reports. */
  ghost predicate GrantStep(c: Cluster, c': Cluster, i: Id, s': Server, r: Reply) {
    && c.Shaped() && c'.Shaped()
    && c.servers[i].votedFor.None? && s' == c.servers[i].(votedFor := Some(r.to))
    && r.from == i && r.term == s'.term && r.success == 1 && r.requestId == -1 && r.origin.Ballot?
    && c'.servers == c.servers[i := s']
    && c'.net == c.net.(replies := c.net.replies + {r})
    && c'.h == c.h.(votes := c.h.votes[(r.term, i) := r.to])
  }

  lemma GrantKeepsVotes(c: Cluster, c': Cluster, i: Id, s': Server, r: Reply)
    requires GrantStep(c, c', i, s', r) && VotesBinding(c) && GrantsRecorded(c)
    ensures (r.term, i) !in c.h.votes && VotesBinding(c') && GrantsRecorded(c')
  {
    assert (r.term, i) !in c.h.votes;
  }

  lemma GrantKeepsTally(c: Cluster, c': Cluster, i: Id, s': Server, r: Reply)
    requires GrantStep(c, c', i, s', r) && (r.term, i) !in c.h.votes && TallyExact(c)
    ensures TallyExact(c')
  {
    forall j: Id | c'.servers[j].role.Candidate?
      ensures TallyOf(c'.servers[j], c'.h.tally[j], c'.h.votes, c'.net.replies)
    {
      assert TallyOf(c.servers[j], c.h.tally[j], c.h.votes, c.net.replies);
    }
  }

  lemma GrantKeepsWinners(c: Cluster, c': Cluster, i: Id, s': Server, r: Reply)
    requires GrantStep(c, c', i, s', r) && (r.term, i) !in c.h.votes && WinnersElected(c) && LeadersWon(c)
    ensures WinnersElected(c') && LeadersWon(c')
  {
    forall t | t in c'.h.leaderOf
      ensures Won(t, c'.servers[c'.h.leaderOf[t]], c'.h.quorum[t], c'.h.votes)
    {
      assert Won(t, c.servers[c.h.leaderOf[t]], c.h.quorum[t], c.h.votes);
    }
  }

  lemma GrantRecorded(c: Cluster, c': Cluster, i: Id, s': Server, r: Reply)
    requires ElectionInv(c) && GrantStep(c, c', i, s', r) && forall j: Id :: SameImage(c'.servers[j], c'.disk[j])
    ensures ElectionInv(c')
  {
    GrantKeepsVotes(c, c', i, s', r);
    GrantKeepsTally(c, c', i, s', r);
    GrantKeepsWinners(c, c', i, s', r);
  }

  lemma GrantKeeps(c: Cluster, i: Id, m: VoteRequest)
    requires ElectionInv(c) && Grants(c.servers[i], m)
    ensures ElectionInv(DoVote(c, i, m))
  {
    var (s, r) := HandleVoteRequest(c.servers[i], m);
    GrantRecorded(c, DoVote(c, i, m), i, s, r);
  }

  lemma VoteKeeps(c: Cluster, i: Id, m: VoteRequest)
    requires ElectionInv(c)
    ensures ElectionInv(DoVote(c, i, m))
  {
    var c1 := Adopt(c, i, m.term);
    AdoptKeeps(c, i, m.term);
    assert DoVote(c, i, m) == DoVote(c1, i, m);
    if Grants(c1.servers[i], m) {
      GrantKeeps(c1, i, m);
    } else {
      DenyKeeps(c1, i, m);
    }
  }

  lemma RestartKeeps(c: Cluster, i: Id)
    requires ElectionInv(c)
    ensures ElectionInv(DoRestart(c, i))
  {
    QuietKeeps(c, DoRestart(c, i), i, Restore(c.disk[i]));
  }

  lemma CrashInVoteKeeps(c: Cluster, i: Id, m: VoteRequest)
    requires ElectionInv(c) && c.servers[i].term < m.term
    ensures ElectionInv(DoCrashInVote(c, i, m))
  {
    AdoptKeeps(c, i, m.term);
    RestartKeeps(Adopt(c, i, m.term), i);
    assert DoCrashInVote(c, i, m) == DoRestart(Adopt(c, i, m.term), i);
  }

  lemma SendKeeps(c: Cluster, i: Id, f: Id)
    requires ElectionInv(c) && Enabled(STRICT, c, SendAppend(i, f))
    ensures ElectionInv(DoSend(c, i, f))
  {
  }

  /** A handler of a request in the server's own term takes a quiet step, and sends one reply. */
  ghost predicate AnswerStep(c: Cluster, c': Cluster, i: Id, s': Server, r: Reply) {
    && QuietStep(c, c'.(net := c.net), i, s')
    && (forall j: Id :: SameImage(c'.servers[j], c'.disk[j]))
    && c'.net == c.net.(replies := c.net.replies + {r})
    && !r.origin.Ballot? && r.requestId >= 0
    && (r.success > 0 ==> r.term in c.h.leaderOf && c.h.leaderOf[r.term] == r.to)
  }

  lemma AnswerKeeps(c: Cluster, c': Cluster, i: Id, s': Server, r: Reply)
    requires ElectionInv(c) && AnswerStep(c, c', i, s', r)
    ensures ElectionInv(c')
  {
    var c1 := c'.(net := c.net);
    QuietKeeps(c, c1, i, s');
    SendsKeeps(c1, r);
    assert c' == Sends(c1, r);
  }

  lemma QuietAppend(s: Server, m: AppendRequest, s': Server, r: Reply)
    requires s.Shaped() && s.term >= m.term && (Consistent(s, m) ==> Storable(s, m))
    requires (s', r) == HandleAppendRequest(s, m)
    ensures Quiet(s, s') && s'.id == s.id && r.requestId == m.requestId && !r.origin.Ballot? && r.to == m.leader
    ensures r.success > 0 ==> r.term == m.term
  {
  }

  lemma AppendAnswers(c: Cluster, c': Cluster, m: AppendRequest, s': Server, r: Reply)
    requires c.Shaped() && DiskCurrent(c) && TrafficFromWinners(c.net, c.h.leaderOf)
    requires m in c.net.appends && c.servers[m.follower].term >= m.term
    requires Consistent(c.servers[m.follower], m) ==> Storable(c.servers[m.follower], m)
    requires (s', r) == HandleAppendRequest(c.servers[m.follower], m) && c' == DoAppend(c, m)
    ensures AnswerStep(c, c', m.follower, s', r)
  {
    QuietAppend(c.servers[m.follower], m, s', r);
  }

  lemma AppendKeepsAtTerm(c: Cluster, m: AppendRequest)
    requires ElectionInv(c) && m in c.net.appends && c.servers[m.follower].term >= m.term
    requires Consistent(c.servers[m.follower], m) ==> Storable(c.servers[m.follower], m)
    ensures ElectionInv(DoAppend(c, m))
  {
    var (s, r) := HandleAppendRequest(c.servers[m.follower], m);
    AppendAnswers(c, DoAppend(c, m), m, s, r);
    AnswerKeeps(c, DoAppend(c, m), m.follower, s, r);
  }

  lemma AppendKeeps(c: Cluster, m: AppendRequest)
    requires ElectionInv(c) && Enabled(STRICT, c, DeliverAppend(m))
    ensures ElectionInv(DoAppend(c, m))
  {
    var c1 := Adopt(c, m.follower, m.term);
    AdoptKeeps(c, m.follower, m.term);
    AdoptFirst(c, m);
    AppendKeepsAtTerm(c1, m);
  }

  /** Handling a request is adopting its term and then handling it. */
  lemma AdoptFirst(c: Cluster, m: AppendRequest)
    requires c.Shaped()
    requires Consistent(c.servers[m.follower], m) ==> Storable(c.servers[m.follower], m)
    ensures var s1 := Adopt(c, m.follower, m.term).servers[m.follower];
      && s1.term >= m.term
      && (Consistent(s1, m) <==> Consistent(c.servers[m.follower], m))
      && (Storable(s1, m) <==> Storable(c.servers[m.follower], m))
    ensures DoAppend(c, m) == DoAppend(Adopt(c, m.follower, m.term), m)
  {
    var i := m.follower;
    var c1 := Adopt(c, i, m.term);
    assert c1.servers[i].log == c.servers[i].log && c1.servers[i].start == c.servers[i].start;
    assert HandleAppendRequest(c.servers[i], m) == HandleAppendRequest(c1.servers[i], m);
    var s := HandleAppendRequest(c.servers[i], m).0;
    assert c.servers[i := s] == c1.servers[i := s];
    assert c.disk[i := s] == c1.disk[i := s];
  }

  lemma ClientKeeps(c: Cluster, i: Id, e: Entry)
    requires ElectionInv(c)
    ensures ElectionInv(DoClient(c, i, e))
  {
    QuietKeeps(c, DoClient(c, i, e), i, AppendEntry(c.servers[i], e));
  }

  lemma BeginSnapshotKeeps(c: Cluster, i: Id)
    requires ElectionInv(c) && Enabled(STRICT, c, BeginSnapshot(i))
    ensures ElectionInv(Step(STRICT, c, BeginSnapshot(i)))
  {
    QuietKeeps(c, Step(STRICT, c, BeginSnapshot(i)), i, c.servers[i].(snapshotInProgress := true));
  }

  lemma EndSnapshotKeeps(c: Cluster, i: Id, newStart: nat)
    requires ElectionInv(c) && Enabled(STRICT, c, EndSnapshot(i, newStart))
    ensures ElectionInv(Step(STRICT, c, EndSnapshot(i, newStart)))
  {
    QuietKeeps(c, Step(STRICT, c, EndSnapshot(i, newStart)), i, FinishSnapshot(c.servers[i], newStart));
  }

  lemma SendInstallKeeps(c: Cluster, m: InstallRequest)
    requires ElectionInv(c) && Enabled(STRICT, c, SendInstall(m))
    ensures ElectionInv(Step(STRICT, c, SendInstall(m)))
  {
  }

  lemma InstallAnswers(c: Cluster, m: InstallRequest, s': Server, r: Reply)
    requires c.Shaped() && DiskCurrent(c) && TrafficFromWinners(c.net, c.h.leaderOf)
    requires m in c.net.installs && m.snapshotId >= 0 && c.servers[m.follower].term >= m.term
    requires (s', r) == HandleInstallRequest(c.servers[m.follower], m)
    ensures AnswerStep(c, DoInstall(c, m), m.follower, s', r)
  {
  }

  lemma InstallKeepsAtTerm(c: Cluster, m: InstallRequest)
    requires ElectionInv(c) && m in c.net.installs && m.snapshotId >= 0 && c.servers[m.follower].term >= m.term
    ensures ElectionInv(DoInstall(c, m))
  {
    var (s, r) := HandleInstallRequest(c.servers[m.follower], m);
    InstallAnswers(c, m, s, r);
    AnswerKeeps(c, DoInstall(c, m), m.follower, s, r);
  }

  lemma InstallKeeps(c: Cluster, m: InstallRequest)
    requires ElectionInv(c) && Enabled(STRICT, c, DeliverInstall(m))
    ensures ElectionInv(DoInstall(c, m))
  {
    AdoptKeeps(c, m.follower, m.term);
    AdoptFirstInstall(c, m);
    InstallKeepsAtTerm(Adopt(c, m.follower, m.term), m);
  }

  lemma AdoptFirstInstall(c: Cluster, m: InstallRequest)
    requires c.Shaped() && m.snapshotId >= 0
    ensures Adopt(c, m.follower, m.term).servers[m.follower].term >= m.term
    ensures DoInstall(c, m) == DoInstall(Adopt(c, m.follower, m.term), m)
  {
    var i := m.follower;
    var c1 := Adopt(c, i, m.term);
    assert HandleInstallRequest(c.servers[i], m) == HandleInstallRequest(c1.servers[i], m);
    var s := HandleInstallRequest(c.servers[i], m).0;
    assert c.servers[i := s] == c1.servers[i := s];
    assert c.disk[i := s] == c1.disk[i := s];
  }

  // ---------------------------------------------------------------------------
  // Counting votes

  /** A candidate counts only votes, and none that it has counted before. */
  lemma CountedIsNew(c: Cluster, r: Reply)
    requires ElectionInv(c) && r in c.net.replies && r.success > 0
    requires c.servers[r.to].term == r.term && c.servers[r.to].role.Candidate?
    ensures r.origin.Ballot? && r.from !in c.h.tally[r.to]
    ensures |c.h.tally[r.to] + {r.from}| == c.servers[r.to].nvoted + 1
    ensures (r.term, r.from) in c.h.votes && c.h.votes[(r.term, r.from)] == r.to
  {
  }

  /** The quorum-intersection argument: a term that is being won has no winner yet. */
  lemma WonTermIsNew(c: Cluster, r: Reply)
    requires ElectionInv(c) && r in c.net.replies && Wins(c.servers[r.to], r)
    ensures r.term !in c.h.leaderOf
  {
    CountedIsNew(c, r);
    if r.term in c.h.leaderOf {
      var v := MajoritiesMeet(c.h.tally[r.to] + {r.from}, c.h.quorum[r.term]);
      assert false;
    }
  }

  /** What c' has in common with c when a candidate counts the vote r without winning. */
  ghost predicate CountStep(c: Cluster, c': Cluster, r: Reply, s': Server) {
    && c.Shaped() && c'.Shaped() && r in c.net.replies && r.success > 0
    && c.servers[r.to].term == r.term && c.servers[r.to].role.Candidate?
    && s'.role.Candidate? && s'.term == r.term && s'.votedFor == c.servers[r.to].votedFor
    && s'.nvoted == c.servers[r.to].nvoted + 1
    && c'.servers == c.servers[r.to := s']
    && c'.net == c.net.(replies := c.net.replies - {r})
    && c'.h == c.h.(tally := c.h.tally[r.to := c.h.tally[r.to] + {r.from}])
  }

  lemma CountKeepsTally(c: Cluster, c': Cluster, r: Reply, s': Server)
    requires ElectionInv(c) && CountStep(c, c', r, s')
    ensures TallyExact(c')
  {
    CountedIsNew(c, r);
    forall i: Id | c'.servers[i].role.Candidate?
      ensures TallyOf(c'.servers[i], c'.h.tally[i], c'.h.votes, c'.net.replies)
    {
      assert c.servers[i].role.Candidate?;
      assert TallyOf(c.servers[i], c.h.tally[i], c.h.votes, c.net.replies);
    }
  }

  lemma CountKeepsRest(c: Cluster, c': Cluster, r: Reply, s': Server)
    requires CountStep(c, c', r, s') && VotesBinding(c) && GrantsRecorded(c) && WinnersElected(c) && LeadersWon(c)
    ensures VotesBinding(c') && GrantsRecorded(c') && WinnersElected(c') && LeadersWon(c')
  {
    forall t | t in c'.h.leaderOf
      ensures Won(t, c'.servers[c'.h.leaderOf[t]], c'.h.quorum[t], c'.h.votes)
    {
      assert Won(t, c.servers[c.h.leaderOf[t]], c.h.quorum[t], c.h.votes);
    }
  }

  lemma CountKeeps(c: Cluster, c': Cluster, r: Reply, s': Server)
    requires ElectionInv(c) && CountStep(c, c', r, s') && forall j: Id :: SameImage(c'.servers[j], c'.disk[j])
    ensures ElectionInv(c')
  {
    CountKeepsTally(c, c', r, s');
    CountKeepsRest(c, c', r, s');
  }

  lemma TrafficKept(net: Network, net': Network, leaderOf: map<int, Id>, t: int, i: Id)
    requires TrafficFromWinners(net, leaderOf) && t !in leaderOf
    requires net'.appends == net.appends && net'.installs == net.installs && net'.replies <= net.replies
    ensures TrafficFromWinners(net', leaderOf[t := i])
  {
  }

  lemma WinKeeps(c: Cluster, c': Cluster, r: Reply, s': Server)
    requires ElectionInv(c) && r in c.net.replies && Wins(c.servers[r.to], r) && c'.Shaped()
    requires s'.role.Leader? && s'.term == r.term && s'.votedFor == c.servers[r.to].votedFor
    requires s'.Shaped() && forall f: Id :: s'.lastRequest[f] >= 0
    requires c'.servers == c.servers[r.to := s'] && forall j: Id :: SameImage(c'.servers[j], c'.disk[j])
    requires c'.net == c.net.(replies := c.net.replies - {r})
    requires c'.h.votes == c.h.votes && c'.h.tally == c.h.tally[r.to := c.h.tally[r.to] + {r.from}]
    requires c'.h.leaderOf == c.h.leaderOf[r.term := r.to]
    requires c'.h.quorum == c.h.quorum[r.term := c.h.tally[r.to] + {r.from}]
    ensures ElectionInv(c')
  {
    CountedIsNew(c, r);
    WonTermIsNew(c, r);
    TrafficKept(c.net, c'.net, c.h.leaderOf, r.term, r.to);
    assert DiskCurrent(c');
    assert VotesBinding(c');
    assert GrantsRecorded(c');
    assert LeadersWon(c');
    assert c'.h.quorum.Keys == c'.h.leaderOf.Keys;
    forall i: Id | c'.servers[i].role.Candidate?
      ensures TallyOf(c'.servers[i], c'.h.tally[i], c'.h.votes, c'.net.replies)
    {
      assert TallyOf(c.servers[i], c.h.tally[i], c.h.votes, c.net.replies);
    }
    forall t | t in c'.h.leaderOf
      ensures Won(t, c'.servers[c'.h.leaderOf[t]], c'.h.quorum[t], c'.h.votes)
    {
      if t != r.term {
        assert Won(t, c.servers[c.h.leaderOf[t]], c.h.quorum[t], c.h.votes);
      }
    }
  }

  /** A vote is counted, and wins or not. */
  lemma VoteReplyKeeps(mode: Delivery, c: Cluster, r: Reply, stale: Entry)
    requires ElectionInv(c) && r in c.net.replies && !mode.duplicateVotes
    requires c.servers[r.to].term == r.term && c.servers[r.to].role.Candidate? && r.success > 0
    ensures ElectionInv(DoReply(mode, c, r, stale))
  {
    var s := c.servers[r.to];
    CountedIsNew(c, r);
    if Wins(s, r) {
      WinKeeps(c, DoReply(mode, c, r, stale), r, HandleReply(s, r, stale));
    } else {
      CountKeeps(c, DoReply(mode, c, r, stale), r, HandleReply(s, r, stale));
    }
  }

  lemma OtherReplyKeeps(mode: Delivery, c: Cluster, r: Reply, stale: Entry)
    requires ElectionInv(c) && r in c.net.replies
    requires c.servers[r.to].term == r.term && c.servers[r.to].role.Candidate? ==> r.success <= 0
    ensures ElectionInv(DoReply(mode, c, r, stale))
  {
    var s := c.servers[r.to];
    if s.term < r.term {
      AdoptKeeps(c, r.to, r.term);
      var c1 := Adopt(c, r.to, r.term);
      QuietKeeps(c1, DoReply(mode, c, r, stale), r.to, c1.servers[r.to]);
    } else {
      QuietReply(s, r, stale);
      QuietKeeps(c, DoReply(mode, c, r, stale), r.to, HandleReply(s, r, stale));
    }
  }

  lemma ReplyKeeps(mode: Delivery, c: Cluster, r: Reply, stale: Entry)
    requires ElectionInv(c) && r in c.net.replies && !mode.duplicateVotes
    ensures ElectionInv(DoReply(mode, c, r, stale))
  {
    var s := c.servers[r.to];
    if s.term == r.term && s.role.Candidate? && r.success > 0 {
      VoteReplyKeeps(mode, c, r, stale);
    } else {
      OtherReplyKeeps(mode, c, r, stale);
    }
  }

  lemma QuietReply(s: Server, r: Reply, stale: Entry)
    requires s.Shaped() && s.term >= r.term
    requires s.term == r.term && s.role.Candidate? ==> r.success <= 0
    ensures Quiet(s, HandleReply(s, r, stale))
  {
  }

  // ---------------------------------------------------------------------------
  // Runs

  lemma EndStreamKeeps(mode: Delivery, c: Cluster, i: Id, f: Id)
    requires ElectionInv(c) && Enabled(mode, c, EndStream(i, f))
    ensures ElectionInv(Step(mode, c, EndStream(i, f)))
  {
    var (c', s') := (Step(mode, c, EndStream(i, f)), EndOfStream(c.servers[i], f));
    assert QuietStep(c, c', i, s');
    QuietKeeps(c, c', i, s');
  }

  lemma StepKeeps(mode: Delivery, c: Cluster, a: Action)
    requires ElectionInv(c) && Enabled(mode, c, a) && !mode.duplicateVotes
    ensures ElectionInv(Step(mode, c, a))
  {
    match a
    case Elect(i) => ElectKeeps(c, i);
    case DeliverVote(i, m) => VoteKeeps(c, i, m);
    case CrashInVote(i, m) => CrashInVoteKeeps(c, i, m);
    case DeliverReply(r, stale) => ReplyKeeps(mode, c, r, stale);
    case SendAppend(i, f) => SendKeeps(c, i, f);
    case DeliverAppend(m) => AppendKeeps(c, m);
    case ClientAppend(i, e) => ClientKeeps(c, i, e);
    case Restart(i) => RestartKeeps(c, i);
    case BeginSnapshot(i) => BeginSnapshotKeeps(c, i);
    case EndSnapshot(i, newStart) => EndSnapshotKeeps(c, i, newStart);
    case SendInstall(m) => SendInstallKeeps(c, m);
    case DeliverInstall(m) => InstallKeeps(c, m);
    case EndStream(i, f) => EndStreamKeeps(mode, c, i, f);
  }

  /** Only a reply can make a winner. */
  lemma OthersKeepWinners(mode: Delivery, c: Cluster, a: Action)
    requires c.Shaped() && Enabled(mode, c, a) && !a.DeliverReply?
    ensures Step(mode, c, a).h.leaderOf == c.h.leaderOf
  {
  }

  lemma NotedWinners(h: History, s: Server, s': Server, r: Reply)
    requires s.Shaped() && |h.tally| == N_SERVERS
    ensures NotedReply(h, s, s', r).leaderOf == if Wins(s, r) then h.leaderOf[s.term := s.id] else h.leaderOf
  {
  }

  lemma ReplyWinners(mode: Delivery, c: Cluster, r: Reply, stale: Entry)
    requires c.Shaped()
    ensures var s := c.servers[r.to];
      DoReply(mode, c, r, stale).h.leaderOf == if Wins(s, r) then c.h.leaderOf[s.term := s.id] else c.h.leaderOf
  {
    NotedWinners(c.h, c.servers[r.to], HandleReply(c.servers[r.to], r, stale), r);
  }

  lemma ReplyKeepsWinners(mode: Delivery, c: Cluster, r: Reply, stale: Entry, t: int)
    requires ElectionInv(c) && r in c.net.replies && t in c.h.leaderOf
    ensures var h' := DoReply(mode, c, r, stale).h; t in h'.leaderOf && h'.leaderOf[t] == c.h.leaderOf[t]
  {
    ReplyWinners(mode, c, r, stale);
    if Wins(c.servers[r.to], r) {
      WonTermIsNew(c, r);
    }
  }

  lemma StepKeepsWinners(mode: Delivery, c: Cluster, a: Action, t: int)
    requires ElectionInv(c) && Enabled(mode, c, a) && t in c.h.leaderOf
    ensures t in Step(mode, c, a).h.leaderOf && Step(mode, c, a).h.leaderOf[t] == c.h.leaderOf[t]
  {
    if a.DeliverReply? {
      ReplyKeepsWinners(mode, c, a.reply, a.stale, t);
    } else {
      OthersKeepWinners(mode, c, a);
    }
  }

  lemma {:induction false} RunKeeps(mode: Delivery, capacity: nat, states: seq<Cluster>, actions: seq<Action>, n: nat)
    requires IsRun(mode, capacity, states, actions) && n < |states| && !mode.duplicateVotes
    ensures ElectionInv(states[n])
  {
    if n > 0 {
      RunKeeps(mode, capacity, states, actions, n - 1);
      StepKeeps(mode, states[n - 1], actions[n - 1]);
    }
  }

  /** The winner of a term never changes. */
  lemma {:induction false} WinnersStay(mode: Delivery, capacity: nat, states: seq<Cluster>, actions: seq<Action>,
                                       m: nat, n: nat, t: int)
    requires IsRun(mode, capacity, states, actions) && m <= n < |states| && !mode.duplicateVotes
    requires t in states[m].h.leaderOf
    ensures t in states[n].h.leaderOf && states[n].h.leaderOf[t] == states[m].h.leaderOf[t]
    decreases n
  {
    if m < n {
      WinnersStay(mode, capacity, states, actions, m, n - 1, t);
      RunKeeps(mode, capacity, states, actions, n - 1);
      StepKeepsWinners(mode, states[n - 1], actions[n - 1], t);
    }
  }

  /**
    Election safety. If i leads term t at one moment of a run and j leads it at
    the same or another moment, they are one server.
  */
  lemma ElectionSafety(mode: Delivery, capacity: nat, states: seq<Cluster>, actions: seq<Action>,
                       m: nat, n: nat, i: Id, j: Id)
    requires IsRun(mode, capacity, states, actions) && m < |states| && n < |states|
    requires !mode.duplicateVotes
    requires states[m].servers[i].role.Leader? && states[n].servers[j].role.Leader?
    requires states[m].servers[i].term == states[n].servers[j].term
    ensures i == j
  {
    var t := states[m].servers[i].term;
    RunKeeps(mode, capacity, states, actions, m);
    RunKeeps(mode, capacity, states, actions, n);
    if m <= n {
      WinnersStay(mode, capacity, states, actions, m, n, t);
    } else {
      WinnersStay(mode, capacity, states, actions, n, m, t);
    }
  }
}
