/**
  State-machine safety, over every run without compaction or install under the
  strict delivery hypotheses: whatever two servers have committed, at the same
  or at different moments, they agree on every position both have committed.
*/
module StateMachineSafety {
  import opened RaftTypes
  import opened ServerSpec
  import opened Cluster
  import opened Elections
  import opened TermLogs
  import opened LogMatching
  import opened LeaderCompleteness
  import opened Replication

  /** Position n of the log is committed on the strength of a chosen entry of term at most hi. */
  ghost predicate Certified(h: History, log: Log, n: int, hi: int, t: int, k: int) {
    t <= hi && Chosen(h, t, k) && 0 <= n <= k && Agree(log, h.termLog[t], n + 1)
  }

  /** Everything up to n is in the log, and chosen. */
  ghost predicate Safe(h: History, log: Log, n: int, hi: int) {
    && -1 <= n < |log|
    && (n >= 0 ==> exists t: int, k: int :: Certified(h, log, n, hi, t, k))
  }

  ghost predicate CommitInv(c: Cluster) {
    && c.Shaped()
    && (forall i: Id :: Safe(c.h, c.servers[i].log, c.servers[i].commit, c.servers[i].term))
    && (forall m :: m in c.net.appends ==>
          && m.term in c.h.termLog && Safe(c.h, c.h.termLog[m.term], m.leaderCommit, m.term)
          && (m.entry.None? ==> m.leaderCommit <= m.prevIndex))
  }

  lemma SafeGrows(h: History, h': History, log: Log, log': Log, n: int, hi: int, hi': int)
    requires HistoryGrows(h, h') && Safe(h, log, n, hi) && log <= log' && hi <= hi'
    ensures Safe(h', log', n, hi')
  {
    if n >= 0 {
      var t, k :| Certified(h, log, n, hi, t, k);
      ChosenGrows(h, h', t, k);
      assert log'[..n + 1] == log[..n + 1] == h'.termLog[t][..n + 1];
      assert Certified(h', log', n, hi', t, k);
    }
  }

  lemma SafeLower(h: History, log: Log, n: int, hi: int, n': int)
    requires Safe(h, log, n, hi) && -1 <= n' <= n
    ensures Safe(h, log, n', hi)
  {
    if n' >= 0 {
      var t, k :| Certified(h, log, n, hi, t, k);
      assert log[..n' + 1] == log[..n + 1][..n' + 1];
      assert h.termLog[t][..n' + 1] == h.termLog[t][..n + 1][..n' + 1];
      assert Certified(h, log, n', hi, t, k);
    }
  }

  lemma SafeTransfers(h: History, log: Log, log': Log, n: int, hi: int)
    requires Safe(h, log, n, hi) && n < |log'| && (n >= 0 ==> Agree(log, log', n + 1))
    ensures Safe(h, log', n, hi)
  {
    if n >= 0 {
      var t, k :| Certified(h, log, n, hi, t, k);
      assert Certified(h, log', n, hi, t, k);
    }
  }

  /** A log that holds the first k + 1 entries of another holds any fewer of them. */
  lemma HeldPrefix(log: Log, other: Log, k: int, n: int)
    requires 0 <= n <= k < |other| && Holds(log, other[..k + 1])
    ensures Agree(other, log, n + 1)
  {
    assert log[..n + 1] == log[..k + 1][..n + 1];
    assert other[..n + 1] == other[..k + 1][..n + 1];
  }

  /** A chosen prefix is in the log of its own leader and of every later one. */
  lemma ChosenInLater(c: Cluster, t: int, k: int, u: int, n: int)
    requires CoreInv(c) && Chosen(c.h, t, k) && t <= u && u in c.h.termLog && 0 <= n <= k
    ensures Agree(c.h.termLog[t], c.h.termLog[u], n + 1)
  {
    if t < u {
      ChosenStays(c, t, k, u);
      HeldPrefix(c.h.termLog[u], c.h.termLog[t], k, n);
    }
  }

  /** What is committed in a log is in the log of every leader of a term that is late enough. */
  lemma CommittedInLeader(c: Cluster, log: Log, n: int, hi: int, u: int)
    requires CoreInv(c) && Safe(c.h, log, n, hi) && n >= 0 && hi <= u && u in c.h.termLog
    ensures Agree(log, c.h.termLog[u], n + 1)
  {
    var t, k :| Certified(c.h, log, n, hi, t, k);
    ChosenInLater(c, t, k, u, n);
  }

  /** Two committed prefixes agree wherever both reach. */
  lemma CommittedAgree(c: Cluster, a: Log, b: Log, n: int, ha: int, hb: int)
    requires CoreInv(c) && Safe(c.h, a, n, ha) && Safe(c.h, b, n, hb) && n >= 0
    ensures Agree(a, b, n + 1)
  {
    var t, k :| Certified(c.h, a, n, ha, t, k);
    var u, l :| Certified(c.h, b, n, hb, u, l);
    if t <= u {
      ChosenInLater(c, t, k, u, n);
    } else {
      ChosenInLater(c, u, l, t, n);
    }
  }

  // ---------------------------------------------------------------------------
  // Steps

  predicate CommitQuiet(s: Server, s': Server) {
    s'.commit == s.commit && s.log <= s'.log && s'.term >= s.term
  }

  lemma CommitQuietKeeps(c: Cluster, c': Cluster, i: Id, s': Server)
    requires CommitInv(c) && c'.Shaped() && HistoryGrows(c.h, c'.h)
    requires CommitQuiet(c.servers[i], s') && c'.servers == c.servers[i := s']
    requires c'.net.appends == c.net.appends
    ensures CommitInv(c')
  {
    forall j: Id
      ensures Safe(c'.h, c'.servers[j].log, c'.servers[j].commit, c'.servers[j].term)
    {
      SafeGrows(c.h, c'.h, c.servers[j].log, c'.servers[j].log, c.servers[j].commit, c.servers[j].term, c'.servers[j].term);
    }
    MessagesStaySafe(c, c');
  }

  lemma MessagesStaySafe(c: Cluster, c': Cluster)
    requires CommitInv(c) && HistoryGrows(c.h, c'.h) && c'.net.appends == c.net.appends
    ensures forall m :: m in c'.net.appends ==>
      && m.term in c'.h.termLog && Safe(c'.h, c'.h.termLog[m.term], m.leaderCommit, m.term)
      && (m.entry.None? ==> m.leaderCommit <= m.prevIndex)
  {
    forall m | m in c'.net.appends
      ensures m.term in c'.h.termLog && Safe(c'.h, c'.h.termLog[m.term], m.leaderCommit, m.term)
    {
      SafeGrows(c.h, c'.h, c.h.termLog[m.term], c'.h.termLog[m.term], m.leaderCommit, m.term, m.term);
    }
  }

  lemma SendKeepsCommit(c: Cluster, i: Id, f: Id)
    requires CommitInv(c) && LogInv(c) && Enabled(STRICT, c, SendAppend(i, f))
    ensures CommitInv(DoSend(c, i, f))
  {
    var s := c.servers[i];
    assert Fits(s, c.h.termLog) && RoleFits(s, c.h);
    assert Safe(c.h, s.log, s.commit, s.term);
  }

  /** A majority count commits a chosen entry (raft_leader.c:161-166). */
  lemma CountCommits(s: Server, h: History, k: nat)
    requires s.Shaped() && CountsSound(s, h) && StoredBy(h, s.term, s.id) == |s.log|
    requires s.term in h.termLog && h.termLog[s.term] == s.log
    requires forall f: Id :: (s.term, f) in h.settled ==> StoredBy(h, s.term, f) >= s.nextIndex[f]
    requires k < |s.log| && s.log[k].term == s.term && IsMajority(s.replicated[k])
    ensures Safe(h, s.log, k, s.term)
  {
    CountedHaveIt(s, h, k);
    assert Certified(h, s.log, k, s.term, s.term, k);
  }

  /** A request never touches what is committed: the leader has it too. */
  lemma AcceptKeepsCommitted(log: Log, tl: Family, m: AppendRequest, n: int)
    requires Coherent(tl) && Matched(log, tl) && m.term in tl && CutFrom(m, tl[m.term])
    requires m.prevIndex < |log| && TermOf(log, m.prevIndex) == m.prevTerm && m.entry.Some?
    requires n >= 0 && Agree(log, tl[m.term], n + 1)
    ensures Agree(log, Put(log, m.prevIndex + 1, m.entry.value), n + 1)
  {
    var k := m.prevIndex + 1;
    PutFollowsLeader(log, tl, m);
    CheckMeansAgreement(log, tl, m);
    var put := Put(log, k, m.entry.value);
    if put != log {
      assert n < k;
      assert put[..n + 1] == log[..n + 1];
    }
  }

  /** What a request commits at a follower is committed by the leader. */
  lemma AcceptCommitsSafe(c: Cluster, m: AppendRequest, log: Log, n: int)
    requires m.term in c.h.termLog && Safe(c.h, c.h.termLog[m.term], m.leaderCommit, m.term)
    requires -1 <= n <= m.leaderCommit && n < Covered(m)
    requires Covered(m) >= 0 && Agree(log, c.h.termLog[m.term], Covered(m))
    ensures Safe(c.h, log, n, m.term)
  {
    var leader := c.h.termLog[m.term];
    SafeLower(c.h, leader, m.leaderCommit, m.term, n);
    assert leader[..n + 1] == leader[..Covered(m)][..n + 1];
    assert log[..n + 1] == log[..Covered(m)][..n + 1];
    SafeTransfers(c.h, leader, log, n, m.term);
  }

  function Accepted(log: Log, m: AppendRequest): Log
    requires -1 <= m.prevIndex < |log|
  {
    if m.entry.Some? then Put(log, m.prevIndex + 1, m.entry.value) else log
  }

  lemma AcceptedAgrees(log: Log, tl: Family, m: AppendRequest)
    requires Coherent(tl) && Matched(log, tl) && m.term in tl && CutFrom(m, tl[m.term])
    requires m.prevIndex < |log| && TermOf(log, m.prevIndex) == m.prevTerm
    ensures Agree(Accepted(log, m), tl[m.term], Covered(m))
  {
    CheckMeansAgreement(log, tl, m);
    if m.entry.Some? {
      PutFollowsLeader(log, tl, m);
    }
  }

  lemma AcceptSafe(c: Cluster, m: AppendRequest, log: Log, n: int)
    requires CoreInv(c) && m in c.net.appends && m.term in c.h.termLog && CutFrom(m, c.h.termLog[m.term])
    requires Safe(c.h, log, n, m.term) && Safe(c.h, c.h.termLog[m.term], m.leaderCommit, m.term)
    requires Matched(log, c.h.termLog) && m.prevIndex < |log| && TermOf(log, m.prevIndex) == m.prevTerm
    ensures Safe(c.h, Accepted(log, m), n, m.term)
    ensures forall k :: -1 <= k <= m.leaderCommit && k < Covered(m) ==> Safe(c.h, Accepted(log, m), k, m.term)
  {
    var tl := c.h.termLog;
    AcceptedAgrees(log, tl, m);
    forall k | -1 <= k <= m.leaderCommit && k < Covered(m)
      ensures Safe(c.h, Accepted(log, m), k, m.term)
    {
      AcceptCommitsSafe(c, m, Accepted(log, m), k);
    }
    if n >= 0 {
      CommittedInLeader(c, log, n, m.term, m.term);
      if m.entry.Some? {
        AcceptKeepsCommitted(log, tl, m, n);
      }
      SafeTransfers(c.h, log, Accepted(log, m), n, m.term);
    }
  }

  lemma AcceptedIsSafe(c: Cluster, m: AppendRequest)
    requires CommitInv(c) && CoreInv(c) && m in c.net.appends && c.servers[m.follower].term == m.term
    requires Consistent(c.servers[m.follower], m) && Storable(c.servers[m.follower], m)
    ensures var s' := Accept(c.servers[m.follower], m); Safe(c.h, s'.log, s'.commit, s'.term)
  {
    var s := c.servers[m.follower];
    assert Safe(c.h, s.log, s.commit, s.term);
    assert Fits(s, c.h.termLog) && CutFrom(m, c.h.termLog[m.term]);
    AcceptChanges(s, m);
    AcceptSafe(c, m, s.log, s.commit);
  }

  /** An accepted request stores its entry; the commit index stays or moves within the request. */
  lemma AcceptChanges(s: Server, m: AppendRequest)
    requires s.Shaped() && s.start == 0 && m.prevIndex < |s.log| && Consistent(s, m) && Storable(s, m)
    requires s.commit >= -1 && m.prevIndex >= -1 && (m.entry.None? ==> m.leaderCommit <= m.prevIndex)
    ensures var s' := Accept(s, m);
      && s'.term == s.term && s'.log == Accepted(s.log, m)
      && (s'.commit == s.commit || (-1 <= s'.commit <= m.leaderCommit && s'.commit < Covered(m)))
  {
  }

  lemma AppendKeepsCommitAtTerm(c: Cluster, m: AppendRequest)
    requires CommitInv(c) && CoreInv(c) && m in c.net.appends && c.servers[m.follower].term >= m.term
    requires Consistent(c.servers[m.follower], m) ==> Storable(c.servers[m.follower], m)
    requires HistoryGrows(c.h, DoAppend(c, m).h)
    ensures CommitInv(DoAppend(c, m))
  {
    var (i, c') := (m.follower, DoAppend(c, m));
    var s' := HandleAppendRequest(c.servers[i], m).0;
    if Consistent(c.servers[i], m) {
      AcceptedIsSafe(c, m);
      SafeGrows(c.h, c'.h, s'.log, s'.log, s'.commit, s'.term, s'.term);
      AcceptedKeepsCommit(c, c', i, s');
    } else {
      CommitQuietKeeps(c, c', i, s');
    }
  }

  lemma AcceptedKeepsCommit(c: Cluster, c': Cluster, i: Id, s': Server)
    requires CommitInv(c) && c'.Shaped() && HistoryGrows(c.h, c'.h)
    requires Safe(c'.h, s'.log, s'.commit, s'.term) && c'.servers == c.servers[i := s']
    requires c'.net.appends == c.net.appends
    ensures CommitInv(c')
  {
    forall j: Id
      ensures Safe(c'.h, c'.servers[j].log, c'.servers[j].commit, c'.servers[j].term)
    {
      if j != i {
        var s := c.servers[j];
        SafeGrows(c.h, c'.h, s.log, s.log, s.commit, s.term, s.term);
      }
    }
    MessagesStaySafe(c, c');
  }

  lemma AdoptKeepsCommit(c: Cluster, i: Id, t: int)
    requires CommitInv(c)
    ensures CommitInv(Adopt(c, i, t))
  {
    CommitQuietKeeps(c, Adopt(c, i, t), i, Adopt(c, i, t).servers[i]);
  }

  lemma AppendKeepsCommit(c: Cluster, m: AppendRequest)
    requires CommitInv(c) && CoreInv(c) && Enabled(STRICT, c, DeliverAppend(m))
    ensures CommitInv(DoAppend(c, m))
  {
    StepGrows(STRICT, c, DeliverAppend(m));
    AdoptFirst(c, m);
    AdoptKeepsAll(c, m.follower, m.term);
    AppendKeepsCommitAtTerm(Adopt(c, m.follower, m.term), m);
  }

  lemma AdoptKeepsAll(c: Cluster, i: Id, t: int)
    requires CommitInv(c) && CoreInv(c)
    ensures CommitInv(Adopt(c, i, t)) && CoreInv(Adopt(c, i, t)) && Adopt(c, i, t).h == c.h && Adopt(c, i, t).net == c.net
  {
    AdoptKeeps(c, i, t);
    AdoptKeepsLogs(c, i, t);
    AdoptRetains(c, i, t);
    AdoptKeepsCommit(c, i, t);
  }

  /** A leader commits at most the acknowledged position, and only on a majority count. */
  lemma ConsumeEffect(s: Server, r: Reply, stale: Entry)
    requires s.Shaped() && Expected(s, r) && s.start == 0 && s.nextIndex[r.from] >= 0
    ensures var s' := HandleReply(s, r, stale);
      && s'.id == s.id && s'.log == s.log && s'.term == s.term && s'.role == s.role
      && (s'.commit == s.commit
          || (0 <= s'.commit < |s.log| && s.log[s'.commit].term == s.term && IsMajority(s'.replicated[s'.commit])))
  {
  }

  lemma ConsumeKeepsCommit(mode: Delivery, c: Cluster, r: Reply, stale: Entry)
    requires CommitInv(c) && CoreInv(c) && TenureInv(c) && Consumable(c, r)
    requires TenureInv(DoReply(mode, c, r, stale)) && HistoryGrows(c.h, DoReply(mode, c, r, stale).h)
    ensures CommitInv(DoReply(mode, c, r, stale))
  {
    var (i, c') := (r.to, DoReply(mode, c, r, stale));
    var s := c.servers[i];
    assert TenureSound(s, c.h, c.net);
    var s' := HandleReply(s, r, stale);
    ConsumeEffect(s, r, stale);
    if s'.commit != s.commit {
      assert c'.servers[i] == s' && TenureSound(s', c'.h, c'.net);
      assert RoleFits(s, c.h) && c'.h.termLog == c.h.termLog;
      CountCommits(s', c'.h, s'.commit);
      AcceptedKeepsCommit(c, c', i, s');
    } else {
      CommitQuietKeeps(c, c', i, s');
    }
  }

  lemma ReplyKeepsCommit(mode: Delivery, c: Cluster, r: Reply, stale: Entry)
    requires CommitInv(c) && CoreInv(c) && TenureInv(c) && Enabled(mode, c, DeliverReply(r, stale))
    requires !mode.staleReplies && !mode.blindAcks
    ensures CommitInv(DoReply(mode, c, r, stale))
  {
    var s := c.servers[r.to];
    assert Fits(s, c.h.termLog);
    ReplyGrows(mode, c, r, stale);
    if Expected(s, r) {
      assert TenureSound(s, c.h, c.net);
      ReplyKeepsTenure(mode, c, r, stale);
      ConsumeKeepsCommit(mode, c, r, stale);
    } else {
      OtherReplyCommitsNothing(s, r, stale);
      CommitQuietKeeps(c, DoReply(mode, c, r, stale), r.to, HandleReply(s, r, stale));
    }
  }

  /** Only an expected answer to an append moves the commit index. */
  lemma OtherReplyCommitsNothing(s: Server, r: Reply, stale: Entry)
    requires s.Shaped() && !Expected(s, r)
    ensures CommitQuiet(s, HandleReply(s, r, stale))
  {
  }

  lemma ClientKeepsCommit(c: Cluster, i: Id, e: Entry)
    requires CommitInv(c) && CoreInv(c)
    ensures CommitInv(DoClient(c, i, e))
  {
    ClientGrows(c, i, e);
    CommitQuietKeeps(c, DoClient(c, i, e), i, AppendEntry(c.servers[i], e));
  }

  lemma VoteKeepsCommit(c: Cluster, i: Id, m: VoteRequest)
    requires CommitInv(c)
    ensures CommitInv(DoVote(c, i, m))
  {
    CommitQuietKeeps(c, DoVote(c, i, m), i, HandleVoteRequest(c.servers[i], m).0);
  }

  lemma StepKeepsCommit(mode: Delivery, c: Cluster, a: Action)
    requires CommitInv(c) && CoreInv(c) && TenureInv(c) && Enabled(mode, c, a) && KeepsWholeLog(a)
    requires !mode.staleReplies && !mode.blindAcks
    ensures CommitInv(Step(mode, c, a))
  {
    match a
    case Elect(i) => CommitQuietKeeps(c, DoElect(c, i), i, StartElection(c.servers[i]));
    case DeliverVote(i, m) => VoteKeepsCommit(c, i, m);
    case CrashInVote(i, m) =>
      CommitQuietKeeps(c, DoCrashInVote(c, i, m), i, Restore(ConvertToFollower(c.servers[i], m.term)));
    case DeliverReply(r, stale) => ReplyKeepsCommit(mode, c, r, stale);
    case SendAppend(i, f) => SendKeepsCommit(c, i, f);
    case DeliverAppend(m) => AppendKeepsCommit(c, m);
    case ClientAppend(i, e) => ClientKeepsCommit(c, i, e);
    case Restart(i) => CommitQuietKeeps(c, DoRestart(c, i), i, Restore(c.disk[i]));
  }

  // ---------------------------------------------------------------------------
  // Runs

  lemma {:induction false} RunKeepsCommit(capacity: nat, states: seq<Cluster>, actions: seq<Action>, n: nat)
    requires IsWholeLogRun(STRICT, capacity, states, actions) && n < |states|
    ensures CoreInv(states[n]) && TenureInv(states[n]) && CommitInv(states[n])
  {
    RunKeepsTenure(STRICT, capacity, states, actions, n);
    if n > 0 {
      RunKeepsCommit(capacity, states, actions, n - 1);
      StepKeepsCommit(STRICT, states[n - 1], actions[n - 1]);
    }
  }

  lemma OneStepGrows(capacity: nat, states: seq<Cluster>, actions: seq<Action>, n: nat)
    requires IsWholeLogRun(STRICT, capacity, states, actions) && n < |actions|
    ensures HistoryGrows(states[n].h, states[n + 1].h)
  {
    RunKeepsCommit(capacity, states, actions, n);
    StepGrows(STRICT, states[n], actions[n]);
  }

  /** Growth from one history to the next is growth from any to any later one. */
  lemma {:induction false} HistoriesGrow(hs: seq<History>, m: nat, n: nat)
    requires m <= n < |hs| && forall k :: 0 < k < |hs| ==> HistoryGrows(hs[k - 1], hs[k])
    ensures HistoryGrows(hs[m], hs[n])
    decreases n
  {
    if m < n {
      HistoriesGrow(hs, m, n - 1);
      GrowthTransitive(hs[m], hs[n - 1], hs[n]);
    }
  }

  lemma RunGrows(capacity: nat, states: seq<Cluster>, actions: seq<Action>, m: nat, n: nat)
    requires IsWholeLogRun(STRICT, capacity, states, actions) && m <= n < |states|
    ensures HistoryGrows(states[m].h, states[n].h)
  {
    var hs := seq(|states|, k requires 0 <= k < |states| => states[k].h);
    forall k | 0 < k < |hs|
      ensures HistoryGrows(hs[k - 1], hs[k])
    {
      OneStepGrows(capacity, states, actions, k - 1);
    }
    HistoriesGrow(hs, m, n);
  }

  /** What is committed at one moment is still chosen at every later one. */
  lemma CommittedStaysSafe(capacity: nat, states: seq<Cluster>, actions: seq<Action>, m: nat, n: nat, i: Id)
    requires IsWholeLogRun(STRICT, capacity, states, actions) && m <= n < |states|
    ensures var s := states[m].servers[i]; Safe(states[n].h, s.log, s.commit, s.term)
  {
    var s := states[m].servers[i];
    RunKeepsCommit(capacity, states, actions, m);
    RunGrows(capacity, states, actions, m, n);
    SafeGrows(states[m].h, states[n].h, s.log, s.log, s.commit, s.term, s.term);
  }

  /**
    State-machine safety. If server i has committed position k at moment m of a
    run, and server j at moment n, they hold the same entries up to k.
  */
  lemma StateMachineSafetyHolds(capacity: nat, states: seq<Cluster>, actions: seq<Action>,
                                m: nat, n: nat, i: Id, j: Id, k: nat)
    requires IsWholeLogRun(STRICT, capacity, states, actions) && m < |states| && n < |states|
    requires k <= states[m].servers[i].commit && k <= states[n].servers[j].commit
    ensures k < |states[m].servers[i].log| && k < |states[n].servers[j].log|
    ensures states[m].servers[i].log[..k + 1] == states[n].servers[j].log[..k + 1]
  {
    var last := if m <= n then n else m;
    var (a, b) := (states[m].servers[i], states[n].servers[j]);
    RunKeepsCommit(capacity, states, actions, last);
    CommittedStaysSafe(capacity, states, actions, m, last, i);
    CommittedStaysSafe(capacity, states, actions, n, last, j);
    SafeLower(states[last].h, a.log, a.commit, a.term, k);
    SafeLower(states[last].h, b.log, b.commit, b.term, k);
    CommittedAgree(states[last], a.log, b.log, k, a.term, b.term);
  }

  /** A leader's log that holds a prefix of older terms held it from its first moment. */
  lemma HeldFromTheStart(log: Log, log': Log, u: int, x: Log)
    requires log <= log' && EndsWith(log, u) && Holds(log', x) && forall k :: 0 <= k < |x| ==> x[k].term < u
    ensures Holds(log, x)
  {
    assert log'[|log| - 1].term == u;
    assert |x| < |log|;
    assert log'[..|x|] == log[..|x|];
  }

  /** Server j leads a term after t at moment n, or term t from moment m on. */
  ghost predicate LeadsAfter(states: seq<Cluster>, m: nat, t: int, n: nat, j: Id)
    requires n < |states| && states[n].Shaped()
  {
    && states[n].servers[j].role.Leader?
    && (states[n].servers[j].term > t || (states[n].servers[j].term == t && n >= m))
  }

  /**
    Leader completeness. Whatever server i has committed at moment m, position k
    was committed in some term t, not newer than the term of i: a majority stored
    an entry of term t at a position l >= k while in that term. Every leader of
    a later term, at any moment of the run, holds the same entries up to k, and
    so does the leader of term t from moment m on.
  */
  lemma LeaderCompletenessHolds(capacity: nat, states: seq<Cluster>, actions: seq<Action>, m: nat, i: Id, k: nat)
    returns (t: int, l: int)
    requires IsWholeLogRun(STRICT, capacity, states, actions) && m < |states|
    requires k <= states[m].servers[i].commit
    ensures k < |states[m].servers[i].log|
    ensures Certified(states[m].h, states[m].servers[i].log, k, states[m].servers[i].term, t, l)
    ensures forall n: nat, j: Id :: n < |states| && LeadsAfter(states, m, t, n, j) ==>
      Agree(states[m].servers[i].log, states[n].servers[j].log, k + 1)
  {
    var a := states[m].servers[i];
    t, l := CommitTerm(capacity, states, actions, m, i, k);
    forall n: nat, j: Id | n < |states| && LeadsAfter(states, m, t, n, j)
      ensures Agree(a.log, states[n].servers[j].log, k + 1)
    {
      LeaderHasChosen(capacity, states, actions, m, n, t, l, j);
      HeldPrefix(states[n].servers[j].log, states[m].h.termLog[t], l, k);
    }
  }

  lemma CommitTerm(capacity: nat, states: seq<Cluster>, actions: seq<Action>, m: nat, i: Id, k: nat)
    returns (t: int, l: int)
    requires IsWholeLogRun(STRICT, capacity, states, actions) && m < |states| && k <= states[m].servers[i].commit
    ensures Certified(states[m].h, states[m].servers[i].log, k, states[m].servers[i].term, t, l)
  {
    var a := states[m].servers[i];
    RunKeepsCommit(capacity, states, actions, m);
    SafeLower(states[m].h, a.log, a.commit, a.term, k);
    var t', l' :| Certified(states[m].h, a.log, k, a.term, t', l');
    t, l := t', l';
  }

  lemma LeaderHasChosen(capacity: nat, states: seq<Cluster>, actions: seq<Action>, m: nat, n: nat, t: int, l: int, j: Id)
    requires IsWholeLogRun(STRICT, capacity, states, actions) && m < |states| && n < |states|
    requires Chosen(states[m].h, t, l) && LeadsAfter(states, m, t, n, j)
    ensures Holds(states[n].servers[j].log, UpTo(states[m].h.termLog, t, l))
  {
    RunKeepsCommit(capacity, states, actions, n);
    assert RoleFits(states[n].servers[j], states[n].h);
    if m <= n {
      RunGrows(capacity, states, actions, m, n);
      ChosenGrows(states[m].h, states[n].h, t, l);
      ChosenInLater(states[n], t, l, states[n].servers[j].term, l);
    } else {
      RunGrows(capacity, states, actions, n, m);
      RunKeepsCommit(capacity, states, actions, m);
      EarlierLeaderHasChosen(states[m], states[n].h, t, l, states[n].servers[j].term);
    }
  }

  lemma EarlierLeaderHasChosen(c: Cluster, h: History, t: int, l: int, u: int)
    requires CoreInv(c) && HistoryGrows(h, c.h) && Coherent(h.termLog)
    requires Chosen(c.h, t, l) && t < u && u in h.termLog
    ensures Holds(h.termLog[u], UpTo(c.h.termLog, t, l))
  {
    ChosenStays(c, t, l, u);
    assert TermsWithin(c.h.termLog[t], 1, t);
    HeldFromTheStart(h.termLog[u], c.h.termLog[u], u, UpTo(c.h.termLog, t, l));
  }

  /** The commit index points into the log, and a heartbeat never commits past its position. */
  lemma CommitInsideLog(capacity: nat, states: seq<Cluster>, actions: seq<Action>, n: nat, i: Id)
    requires IsWholeLogRun(STRICT, capacity, states, actions) && n < |states|
    ensures -1 <= states[n].servers[i].commit < states[n].servers[i].LogCount()
    ensures forall m :: m in states[n].net.appends && m.entry.None? ==> m.leaderCommit <= m.prevIndex
  {
    RunKeepsCommit(capacity, states, actions, n);
    assert Safe(states[n].h, states[n].servers[i].log, states[n].servers[i].commit, states[n].servers[i].term);
  }
}
