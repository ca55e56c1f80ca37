/**
  Log matching, over every run without compaction or install: two logs with the
  same term at the same position are identical up to it. The inductive form
  compares every log with the log of the leader of each term.
*/
module LogMatching {
  import opened RaftTypes
  import opened ServerSpec
  import opened Cluster
  import opened Elections
  import opened TermLogs

  /** The window is the whole log; it matches the family and stays below the server's term. */
  predicate Fits(s: Server, tl: Family) {
    s.start == 0 && Matched(s.log, tl) && TermsWithin(s.log, 1, s.term)
  }

  /** A leader's log is the log of its term; a candidate's log is the one it ran with. */
  predicate RoleFits(s: Server, h: History) {
    && (s.role.Leader? ==> s.term in h.termLog && h.termLog[s.term] == s.log)
    && (s.role.Candidate? ==> (s.term, s.id) in h.candidateLog && h.candidateLog[(s.term, s.id)] == s.log)
  }

  ghost predicate LogsFit(c: Cluster)
    requires c.Shaped()
  {
    forall i: Id :: Fits(c.servers[i], c.h.termLog) && RoleFits(c.servers[i], c.h)
  }

  ghost predicate CandidaciesFit(c: Cluster)
    requires c.Shaped()
  {
    && (forall t: int, v: Id :: (t, v) in c.h.candidateLog ==>
          && 1 <= t <= c.servers[v].term
          && Matched(c.h.candidateLog[(t, v)], c.h.termLog)
          && TermsWithin(c.h.candidateLog[(t, v)], 1, t - 1))
    && (forall t: int, v: Id :: (t, v) in c.h.votes ==> (t, c.h.votes[(t, v)]) in c.h.candidateLog)
  }

  /** The request describes the log the candidate ran with. */
  predicate Describes(m: VoteRequest, log: Log) {
    m.lastIndex == |log| - 1 && m.lastTerm == TermOf(log, |log| - 1)
  }

  ghost predicate VoteRequestsFit(votes: set<VoteRequest>, candidateLog: map<(int, Id), Log>) {
    forall m :: m in votes ==>
      (m.term, m.candidate) in candidateLog && Describes(m, candidateLog[(m.term, m.candidate)])
  }

  /** The request is cut out of the log of the leader of its term. */
  predicate CutFrom(m: AppendRequest, log: Log) {
    && -1 <= m.prevIndex < |log|
    && m.prevTerm == TermOf(log, m.prevIndex)
    && (m.entry.Some? ==> m.prevIndex + 1 < |log| && m.entry.value == log[m.prevIndex + 1])
  }

  ghost predicate AppendsFit(appends: set<AppendRequest>, tl: Family) {
    forall m :: m in appends ==> m.term in tl && CutFrom(m, tl[m.term])
  }

  /** While in term t, server s keeps the n entries of the leader's log it has stored. */
  predicate Keeps(s: Server, t: int, n: nat, tl: Family) {
    && t in tl && n <= |tl[t]| && t <= s.term
    && (t == s.term ==> Agree(s.log, tl[t], n))
  }

  ghost predicate StoredFits(c: Cluster)
    requires c.Shaped()
  {
    forall t: int, i: Id :: (t, i) in c.h.stored ==> Keeps(c.servers[i], t, c.h.stored[(t, i)], c.h.termLog)
  }

  ghost predicate LogInv(c: Cluster) {
    && c.Shaped()
    && c.h.termLog.Keys == c.h.leaderOf.Keys && Coherent(c.h.termLog)
    && LogsFit(c)
    && CandidaciesFit(c)
    && VoteRequestsFit(c.net.votes, c.h.candidateLog)
    && AppendsFit(c.net.appends, c.h.termLog)
    && StoredFits(c)
  }

  // ---------------------------------------------------------------------------
  // Steps that logs do not notice

  predicate LogQuiet(s: Server, s': Server) {
    && s'.id == s.id && s'.start == s.start && s'.log == s.log
    && s'.term >= s.term
    && (s'.role.Follower? || (s'.role == s.role && s'.term == s.term))
  }

  lemma LogQuietKeeps(c: Cluster, c': Cluster, i: Id, s': Server)
    requires LogInv(c) && c'.Shaped()
    requires LogQuiet(c.servers[i], s') && c'.servers == c.servers[i := s']
    requires c'.h == c.h.(settled := c'.h.settled, tally := c'.h.tally)
    requires c'.net == c.net.(replies := c'.net.replies)
    ensures LogInv(c')
  {
    forall j: Id
      ensures Fits(c'.servers[j], c'.h.termLog) && RoleFits(c'.servers[j], c'.h)
    {
      assert Fits(c.servers[j], c.h.termLog) && RoleFits(c.servers[j], c.h);
    }
    forall t: int, j: Id | (t, j) in c'.h.stored
      ensures Keeps(c'.servers[j], t, c'.h.stored[(t, j)], c'.h.termLog)
    {
      assert Keeps(c.servers[j], t, c.h.stored[(t, j)], c.h.termLog);
    }
  }

  lemma AdoptKeepsLogs(c: Cluster, i: Id, t: int)
    requires LogInv(c)
    ensures LogInv(Adopt(c, i, t))
  {
    LogQuietKeeps(c, Adopt(c, i, t), i, Adopt(c, i, t).servers[i]);
  }

  // ---------------------------------------------------------------------------
  // Elections

  lemma ElectKeepsLogs(c: Cluster, i: Id)
    requires LogInv(c) && c.servers[i].term >= 0
    ensures LogInv(DoElect(c, i))
  {
    ElectKeepsServers(c, i, DoElect(c, i));
    ElectKeepsStored(c, i, DoElect(c, i));
    assert (c.servers[i].term + 1, i) !in c.h.candidateLog;
  }

  lemma ElectKeepsServers(c: Cluster, i: Id, c': Cluster)
    requires c.Shaped() && LogsFit(c) && c' == DoElect(c, i)
    ensures LogsFit(c')
  {
    forall j: Id
      ensures Fits(c'.servers[j], c'.h.termLog) && RoleFits(c'.servers[j], c'.h)
    {
      assert Fits(c.servers[j], c.h.termLog) && RoleFits(c.servers[j], c.h);
    }
  }

  lemma ElectKeepsStored(c: Cluster, i: Id, c': Cluster)
    requires c.Shaped() && StoredFits(c) && c' == DoElect(c, i)
    ensures StoredFits(c')
  {
    forall t: int, j: Id | (t, j) in c'.h.stored
      ensures Keeps(c'.servers[j], t, c'.h.stored[(t, j)], c'.h.termLog)
    {
      assert Keeps(c.servers[j], t, c.h.stored[(t, j)], c.h.termLog);
    }
  }

  lemma VoteKeepsLogs(c: Cluster, i: Id, m: VoteRequest)
    requires LogInv(c) && m in c.net.votes
    ensures LogInv(DoVote(c, i, m))
  {
    var (s, r) := HandleVoteRequest(c.servers[i], m);
    var c1 := Sends(Save(c, i, s), r);
    LogQuietKeeps(c, c1, i, s);
  }

  /** A new leader opens its term with its own log and one entry. */
  lemma WinKeepsLogs(c: Cluster, c': Cluster, i: Id, s': Server, e: Entry)
    requires LogInv(c) && c'.Shaped() && c.servers[i].role.Candidate?
    requires var s := c.servers[i];
      && s.term !in c.h.leaderOf && e.term == s.term
      && s'.log == s.log + [e] && s'.start == 0 && s'.term == s.term && s'.role.Leader?
      && c'.servers == c.servers[i := s']
      && c'.h.termLog == c.h.termLog[s.term := s'.log]
      && c'.h.stored == c.h.stored[(s.term, i) := |s'.log|]
      && c'.h.leaderOf == c.h.leaderOf[s.term := i]
    requires c'.h.votes == c.h.votes && c'.h.candidateLog == c.h.candidateLog
    requires c'.net == c.net.(replies := c'.net.replies)
    ensures LogInv(c')
  {
    var (t, tl, tl') := (s'.term, c.h.termLog, c'.h.termLog);
    assert Fits(c.servers[i], tl) && RoleFits(c.servers[i], c.h);
    OpenedCoherent(tl, t, c.servers[i].log, e);
    WinKeepsServers(c, c', i, s');
    forall u: int, v: Id | (u, v) in c'.h.candidateLog
      ensures Matched(c'.h.candidateLog[(u, v)], tl')
    {
      MatchedGrows(c.h.candidateLog[(u, v)], tl, tl');
    }
    WinKeepsStored(c, c', i, s');
  }

  lemma WinKeepsServers(c: Cluster, c': Cluster, i: Id, s': Server)
    requires c.Shaped() && c'.Shaped() && LogsFit(c) && s'.term !in c.h.termLog
    requires c'.servers == c.servers[i := s'] && s'.role.Leader? && c'.h.candidateLog == c.h.candidateLog
    requires c'.h.termLog == c.h.termLog[s'.term := s'.log] && Fits(s', c'.h.termLog)
    ensures LogsFit(c')
  {
    forall j: Id
      ensures Fits(c'.servers[j], c'.h.termLog) && RoleFits(c'.servers[j], c'.h)
    {
      assert Fits(c.servers[j], c.h.termLog) && RoleFits(c.servers[j], c.h);
      MatchedGrows(c.servers[j].log, c.h.termLog, c'.h.termLog);
    }
  }

  lemma WinKeepsStored(c: Cluster, c': Cluster, i: Id, s': Server)
    requires c.Shaped() && c'.Shaped() && StoredFits(c) && s'.term !in c.h.termLog
    requires c'.servers == c.servers[i := s'] && s'.term == c.servers[i].term && c.servers[i].log <= s'.log
    requires c'.h.termLog == c.h.termLog[s'.term := s'.log]
    requires c'.h.stored == c.h.stored[(s'.term, i) := |s'.log|]
    ensures StoredFits(c')
  {
    forall u: int, j: Id | (u, j) in c'.h.stored
      ensures Keeps(c'.servers[j], u, c'.h.stored[(u, j)], c'.h.termLog)
    {
      if (u, j) != (s'.term, i) {
        assert Keeps(c.servers[j], u, c.h.stored[(u, j)], c.h.termLog);
      }
    }
  }

  // ---------------------------------------------------------------------------
  // Replication

  lemma SendKeepsLogs(c: Cluster, i: Id, f: Id)
    requires LogInv(c) && Enabled(STRICT, c, SendAppend(i, f))
    ensures LogInv(DoSend(c, i, f))
  {
    var s := c.servers[i];
    var m := AppendRequestTo(s, f);
    assert Fits(s, c.h.termLog) && RoleFits(s, c.h);
    assert CutFrom(m, c.h.termLog[m.term]);
  }

  lemma ClientKeepsLogs(c: Cluster, i: Id, e: Entry)
    requires LogInv(c) && ElectionInv(c)
    ensures LogInv(DoClient(c, i, e))
  {
    var s := c.servers[i];
    if CanAppend(s) {
      var e' := e.(term := s.term, kind := ClientLog);
      assert Fits(s, c.h.termLog) && RoleFits(s, c.h);
      ExtendKeepsLogs(c, DoClient(c, i, e), i, AppendEntry(s, e), e');
    }
  }

  /** What c' has in common with c when leader i appends e to its log. */
  ghost predicate ExtendStep(c: Cluster, c': Cluster, i: Id, s': Server, e: Entry) {
    && c.Shaped() && c'.Shaped() && c.servers[i].role.Leader?
    && (var s := c.servers[i];
        && e.term == s.term && s' == s.(log := s.log + [e], replicated := s'.replicated)
        && c'.servers == c.servers[i := s']
        && c'.h == c.h.(termLog := c.h.termLog[s.term := s'.log], stored := c.h.stored[(s.term, i) := |s'.log|]))
    && (forall j: Id :: c.servers[j].role.Leader? && c.servers[j].term == s'.term ==> j == i)
    && c'.net == c.net
  }

  lemma ExtendFits(c: Cluster, c': Cluster, i: Id, s': Server, e: Entry)
    requires ExtendStep(c, c', i, s', e) && Coherent(c.h.termLog) && LogsFit(c)
    ensures s'.term in c.h.termLog && c'.h.termLog == Extended(c.h.termLog, s'.term, e) && Coherent(c'.h.termLog)
    ensures LogsFit(c')
  {
    var (t, tl, tl') := (s'.term, c.h.termLog, c'.h.termLog);
    assert Fits(c.servers[i], tl) && RoleFits(c.servers[i], c.h);
    assert tl' == Extended(tl, t, e);
    ExtendedCoherent(tl, t, e);
    forall j: Id
      ensures Fits(c'.servers[j], tl') && RoleFits(c'.servers[j], c'.h)
    {
      assert Fits(c.servers[j], tl) && RoleFits(c.servers[j], c.h);
      if j == i {
        assert tl'[t] == s'.log && Matched(tl'[t], tl') && TermsWithin(tl'[t], 1, t);
      } else {
        MatchedExtended(c.servers[j].log, tl, t, e);
      }
    }
  }

  lemma ExtendKeepsLogs(c: Cluster, c': Cluster, i: Id, s': Server, e: Entry)
    requires LogInv(c) && ExtendStep(c, c', i, s', e)
    ensures LogInv(c')
  {
    ExtendFits(c, c', i, s', e);
    ExtendKeepsCandidacies(c, c', s'.term, e);
    CutFromExtended(c.net.appends, c.h.termLog, s'.term, e);
    ExtendKeepsStored(c, c', i, s', e);
  }

  lemma ExtendKeepsCandidacies(c: Cluster, c': Cluster, t: int, e: Entry)
    requires c.Shaped() && c'.Shaped() && CandidaciesFit(c)
    requires t in c.h.termLog && Coherent(c.h.termLog) && c'.h.termLog == Extended(c.h.termLog, t, e)
    requires c'.h.candidateLog == c.h.candidateLog && c'.h.votes == c.h.votes
    requires forall v: Id :: c'.servers[v].term == c.servers[v].term
    ensures CandidaciesFit(c')
  {
    forall u: int, v: Id | (u, v) in c'.h.candidateLog
      ensures Matched(c'.h.candidateLog[(u, v)], c'.h.termLog)
    {
      MatchedExtended(c.h.candidateLog[(u, v)], c.h.termLog, t, e);
    }
  }

  lemma CutFromExtended(appends: set<AppendRequest>, tl: Family, t: int, e: Entry)
    requires AppendsFit(appends, tl) && t in tl
    ensures AppendsFit(appends, Extended(tl, t, e))
  {
    forall m | m in appends
      ensures m.term in Extended(tl, t, e) && CutFrom(m, Extended(tl, t, e)[m.term])
    {
      assert m.term in tl && CutFrom(m, tl[m.term]);
    }
  }

  lemma ExtendKeepsStored(c: Cluster, c': Cluster, i: Id, s': Server, e: Entry)
    requires ExtendStep(c, c', i, s', e) && StoredFits(c) && LogsFit(c')
    requires s'.term in c.h.termLog && c'.h.termLog == Extended(c.h.termLog, s'.term, e)
    ensures StoredFits(c')
  {
    forall u: int, j: Id | (u, j) in c'.h.stored
      ensures Keeps(c'.servers[j], u, c'.h.stored[(u, j)], c'.h.termLog)
    {
      if (u, j) != (s'.term, i) {
        assert Keeps(c.servers[j], u, c.h.stored[(u, j)], c.h.termLog);
      }
    }
  }

  /** A log that passes the consistency check agrees with the leader's up to prevIndex. */
  lemma CheckMeansAgreement(log: Log, tl: Family, m: AppendRequest)
    requires Coherent(tl) && Matched(log, tl) && m.term in tl && CutFrom(m, tl[m.term])
    requires m.prevIndex < |log| && TermOf(log, m.prevIndex) == m.prevTerm
    ensures Agree(log, tl[m.term], m.prevIndex + 1)
  {
    if m.prevIndex >= 0 {
      SameTermSamePrefix(log, tl[m.term], m.prevIndex, tl);
    }
  }

  /**
    Storing the entry of a request. Either nothing changes, or the log becomes
    the leader's prefix that ends with the entry; then the old log was shorter,
    or disagreed with the leader exactly there.
  */
  lemma PutFollowsLeader(log: Log, tl: Family, m: AppendRequest)
    requires Coherent(tl) && Matched(log, tl) && m.term in tl && CutFrom(m, tl[m.term])
    requires m.prevIndex < |log| && TermOf(log, m.prevIndex) == m.prevTerm && m.entry.Some?
    ensures var put := Put(log, m.prevIndex + 1, m.entry.value);
      && Matched(put, tl) && Agree(put, tl[m.term], m.prevIndex + 2)
      && (put == log
          || (put == tl[m.term][..m.prevIndex + 2]
              && (|log| == m.prevIndex + 1 || log[m.prevIndex + 1] != tl[m.term][m.prevIndex + 1])))
  {
    var (k, e, leader) := (m.prevIndex + 1, m.entry.value, tl[m.term]);
    CheckMeansAgreement(log, tl, m);
    if k < |log| && log[k].term == e.term {
      SameTermSamePrefix(log, leader, k, tl);
      assert log[k] == log[..k + 1][k] == leader[..k + 1][k];
      assert Put(log, k, e) == log;
    } else {
      assert leader[..k + 1] == leader[..k] + [e];
      MatchedPrefix(leader, k + 1, tl);
    }
  }

  lemma AcceptKeepsLogs(c: Cluster, c': Cluster, m: AppendRequest, s': Server)
    requires LogInv(c) && c'.Shaped() && m in c.net.appends
    requires var s := c.servers[m.follower];
      && s.term == m.term && Consistent(s, m) && Storable(s, m)
      && s'.id == s.id && s'.start == 0 && s'.term == s.term && s'.role.Follower?
      && (m.entry.None? ==> s'.log == s.log)
      && (m.entry.Some? ==> s'.log == Put(s.log, m.prevIndex + 1, m.entry.value))
      && c'.servers == c.servers[m.follower := s']
    requires c'.h == c.h.(stored := c.h.stored[(m.term, m.follower) := Max(StoredBy(c.h, m.term, m.follower), Covered(m))])
    requires c'.net == c.net.(replies := c'.net.replies)
    ensures LogInv(c')
  {
    var (i, tl) := (m.follower, c.h.termLog);
    var s := c.servers[i];
    assert Fits(s, tl) && CutFrom(m, tl[m.term]);
    CheckMeansAgreement(s.log, tl, m);
    if m.entry.Some? {
      PutFollowsLeader(s.log, tl, m);
      MatchedSorted(s'.log, tl);
    }
    assert TermsWithin(s'.log, 1, s'.term);
    AcceptKeepsServers(c, c', i, s');
    AcceptKeepsStored(c, c', m, s');
  }

  lemma AcceptKeepsServers(c: Cluster, c': Cluster, i: Id, s': Server)
    requires c.Shaped() && c'.Shaped() && LogsFit(c) && c'.servers == c.servers[i := s']
    requires Fits(s', c.h.termLog) && s'.role.Follower?
    requires c'.h == c.h.(stored := c'.h.stored)
    ensures LogsFit(c')
  {
    forall j: Id
      ensures Fits(c'.servers[j], c'.h.termLog) && RoleFits(c'.servers[j], c'.h)
    {
      assert Fits(c.servers[j], c.h.termLog) && RoleFits(c.servers[j], c.h);
    }
  }

  lemma AcceptKeepsStored(c: Cluster, c': Cluster, m: AppendRequest, s': Server)
    requires c.Shaped() && c'.Shaped() && StoredFits(c) && c'.servers == c.servers[m.follower := s']
    requires s'.term == c.servers[m.follower].term == m.term && m.term in c.h.termLog
    requires Covered(m) >= 0 && Agree(s'.log, c.h.termLog[m.term], Covered(m))
    requires forall n: nat :: n <= |c.h.termLog[m.term]| && Agree(c.servers[m.follower].log, c.h.termLog[m.term], n) ==>
      Agree(s'.log, c.h.termLog[m.term], n)
    requires c'.h == c.h.(stored := c.h.stored[(m.term, m.follower) := Max(StoredBy(c.h, m.term, m.follower), Covered(m))])
    ensures StoredFits(c')
  {
    forall u: int, j: Id | (u, j) in c'.h.stored
      ensures Keeps(c'.servers[j], u, c'.h.stored[(u, j)], c.h.termLog)
    {
      if (u, j) in c.h.stored {
        assert Keeps(c.servers[j], u, c.h.stored[(u, j)], c.h.termLog);
      }
    }
  }

  lemma AppendKeepsLogsAtTerm(c: Cluster, m: AppendRequest)
    requires LogInv(c) && m in c.net.appends && c.servers[m.follower].term >= m.term
    requires Consistent(c.servers[m.follower], m) ==> Storable(c.servers[m.follower], m)
    ensures LogInv(DoAppend(c, m))
  {
    var s := c.servers[m.follower];
    assert Fits(s, c.h.termLog) && CutFrom(m, c.h.termLog[m.term]);
    if Consistent(s, m) {
      AcceptKeepsLogs(c, DoAppend(c, m), m, HandleAppendRequest(s, m).0);
    } else {
      LogQuietKeeps(c, DoAppend(c, m), m.follower, HandleAppendRequest(s, m).0);
    }
  }

  lemma AppendKeepsLogs(c: Cluster, m: AppendRequest)
    requires LogInv(c) && Enabled(STRICT, c, DeliverAppend(m))
    ensures LogInv(DoAppend(c, m))
  {
    AdoptFirst(c, m);
    AdoptKeepsLogs(c, m.follower, m.term);
    AppendKeepsLogsAtTerm(Adopt(c, m.follower, m.term), m);
  }

  // ---------------------------------------------------------------------------
  // Runs

  lemma ReplyKeepsLogs(mode: Delivery, c: Cluster, r: Reply, stale: Entry)
    requires LogInv(c) && ElectionInv(c) && r in c.net.replies
    ensures LogInv(DoReply(mode, c, r, stale))
  {
    var s := c.servers[r.to];
    var s' := HandleReply(s, r, stale);
    if Wins(s, r) {
      WonTermIsNew(c, r);
      assert Fits(s, c.h.termLog);
      WinKeepsLogs(c, DoReply(mode, c, r, stale), r.to, s', Opening(s.term, stale));
    } else {
      LogQuietReply(s, r, stale);
      LogQuietKeeps(c, DoReply(mode, c, r, stale), r.to, s');
    }
  }

  lemma LogQuietReply(s: Server, r: Reply, stale: Entry)
    requires s.Shaped() && !Wins(s, r)
    ensures LogQuiet(s, HandleReply(s, r, stale))
  {
  }

  lemma StepKeepsLogs(mode: Delivery, c: Cluster, a: Action)
    requires LogInv(c) && ElectionInv(c) && Enabled(mode, c, a) && KeepsWholeLog(a)
    ensures LogInv(Step(mode, c, a))
  {
    match a
    case Elect(i) => ElectKeepsLogs(c, i);
    case DeliverVote(i, m) => VoteKeepsLogs(c, i, m);
    case CrashInVote(i, m) =>
      LogQuietKeeps(c, DoCrashInVote(c, i, m), i, Restore(ConvertToFollower(c.servers[i], m.term)));
    case DeliverReply(r, stale) => ReplyKeepsLogs(mode, c, r, stale);
    case SendAppend(i, f) => SendKeepsLogs(c, i, f);
    case DeliverAppend(m) => AppendKeepsLogs(c, m);
    case ClientAppend(i, e) => ClientKeepsLogs(c, i, e);
    case Restart(i) => LogQuietKeeps(c, DoRestart(c, i), i, Restore(c.disk[i]));
  }

  lemma {:induction false} RunKeepsLogs(mode: Delivery, capacity: nat, states: seq<Cluster>, actions: seq<Action>, n: nat)
    requires IsWholeLogRun(mode, capacity, states, actions) && n < |states| && !mode.duplicateVotes
    ensures ElectionInv(states[n]) && LogInv(states[n])
  {
    RunKeeps(mode, capacity, states, actions, n);
    if n > 0 {
      RunKeepsLogs(mode, capacity, states, actions, n - 1);
      StepKeepsLogs(mode, states[n - 1], actions[n - 1]);
    }
  }

  /**
    Log matching: in every state of a run without compaction or install, two
    logs with the same term at the same position are identical up to it.
  */
  lemma LogMatchingHolds(mode: Delivery, capacity: nat, states: seq<Cluster>, actions: seq<Action>,
                         n: nat, i: Id, j: Id, k: nat)
    requires IsWholeLogRun(mode, capacity, states, actions) && n < |states| && !mode.duplicateVotes
    requires var (a, b) := (states[n].servers[i].log, states[n].servers[j].log);
             k < |a| && k < |b| && a[k].term == b[k].term
    ensures states[n].servers[i].log[..k + 1] == states[n].servers[j].log[..k + 1]
  {
    RunKeepsLogs(mode, capacity, states, actions, n);
    var c := states[n];
    assert Fits(c.servers[i], c.h.termLog) && Fits(c.servers[j], c.h.termLog);
    SameTermSamePrefix(c.servers[i].log, c.servers[j].log, k, c.h.termLog);
  }
}
