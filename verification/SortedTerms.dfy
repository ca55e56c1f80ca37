/**
  Sorted terms, over every run whatsoever: with any delivery, with compaction,
  snapshot installs and crashes, every log window is sorted by term and stays
  within the server's term, and so do the requests on the network.
*/
module SortedTerms {
  import opened RaftTypes
  import opened ServerSpec
  import opened Cluster
  import opened TermLogs

  predicate Ordered(s: Server) {
    s.term >= 0 && Sorted(s.log) && TermsWithin(s.log, 0, s.term)
  }

  /** An append carries an entry not older than its predecessor, nor newer than the request. */
  predicate OrderedRequest(m: AppendRequest) {
    m.entry.Some? ==> 0 <= m.entry.value.term <= m.term && m.prevTerm <= m.entry.value.term
  }

  ghost predicate SortedInv(c: Cluster) {
    && c.Shaped()
    && (forall i: Id :: Ordered(c.servers[i]) && Ordered(c.disk[i]))
    && (forall m :: m in c.net.appends ==> OrderedRequest(m))
  }

  /** Only server i and its image change, and no append is sent. */
  lemma OneServerKeepsSorted(c: Cluster, c': Cluster, i: Id, s': Server, image': Server)
    requires SortedInv(c) && c'.Shaped() && Ordered(s') && Ordered(image')
    requires c'.servers == c.servers[i := s'] && c'.disk == c.disk[i := image']
    requires c'.net.appends == c.net.appends
    ensures SortedInv(c')
  {
  }

  lemma PutSorted(log: Log, k: nat, e: Entry)
    requires Sorted(log) && k <= |log| && (k > 0 ==> log[k - 1].term <= e.term)
    ensures Sorted(Put(log, k, e))
  {
  }

  /** The prefix below the stored entry is not newer than it (raft_follower.c:37-56). */
  lemma AcceptOrdered(s: Server, m: AppendRequest)
    requires s.Shaped() && Ordered(s) && OrderedRequest(m) && s.term == m.term
    requires Consistent(s, m) && Storable(s, m)
    ensures Ordered(Accept(s, m))
  {
    if m.entry.Some? {
      PutSorted(s.log, m.prevIndex + 1 - s.start, m.entry.value);
    }
  }

  lemma AppendOrdered(s: Server, m: AppendRequest)
    requires s.Shaped() && Ordered(s) && OrderedRequest(m) && (Consistent(s, m) ==> Storable(s, m))
    ensures Ordered(HandleAppendRequest(s, m).0)
  {
    if Consistent(s, m) {
      AcceptOrdered(if s.term < m.term then ConvertToFollower(s, m.term) else s, m);
    }
  }

  lemma ReplyOrdered(s: Server, r: Reply, stale: Entry)
    requires s.Shaped() && Ordered(s)
    ensures Ordered(HandleReply(s, r, stale))
  {
  }

  lemma SendKeepsSorted(c: Cluster, i: Id, f: Id)
    requires SortedInv(c)
    requires c.servers[i].start <= c.servers[i].nextIndex[f] <= c.servers[i].LogCount()
    ensures SortedInv(DoSend(c, i, f))
  {
    assert OrderedRequest(AppendRequestTo(c.servers[i], f));
  }

  lemma VoteKeepsSorted(c: Cluster, i: Id, m: VoteRequest)
    requires SortedInv(c)
    ensures SortedInv(DoVote(c, i, m))
  {
    var s := HandleVoteRequest(c.servers[i], m).0;
    OneServerKeepsSorted(c, DoVote(c, i, m), i, s, s);
  }

  lemma ReplyKeepsSorted(mode: Delivery, c: Cluster, r: Reply, stale: Entry)
    requires SortedInv(c)
    ensures SortedInv(DoReply(mode, c, r, stale))
  {
    var c' := DoReply(mode, c, r, stale);
    ReplyOrdered(c.servers[r.to], r, stale);
    OneServerKeepsSorted(c, c', r.to, c'.servers[r.to], c'.disk[r.to]);
  }

  lemma AppendKeepsSorted(c: Cluster, m: AppendRequest)
    requires SortedInv(c) && Enabled(STRICT, c, DeliverAppend(m))
    ensures SortedInv(DoAppend(c, m))
  {
    var s := HandleAppendRequest(c.servers[m.follower], m).0;
    AppendOrdered(c.servers[m.follower], m);
    OneServerKeepsSorted(c, DoAppend(c, m), m.follower, s, s);
  }

  lemma InstallKeepsSorted(c: Cluster, m: InstallRequest)
    requires SortedInv(c) && m.snapshotId >= 0
    ensures SortedInv(DoInstall(c, m))
  {
    var s := HandleInstallRequest(c.servers[m.follower], m).0;
    OneServerKeepsSorted(c, DoInstall(c, m), m.follower, s, s);
  }

  lemma EndSnapshotKeepsSorted(c: Cluster, i: Id, newStart: nat)
    requires SortedInv(c) && Enabled(STRICT, c, EndSnapshot(i, newStart))
    ensures SortedInv(Step(STRICT, c, EndSnapshot(i, newStart)))
  {
    var s := FinishSnapshot(c.servers[i], newStart);
    OneServerKeepsSorted(c, Save(c, i, s), i, s, s);
  }

  lemma ElectKeepsSorted(c: Cluster, i: Id)
    requires SortedInv(c)
    ensures SortedInv(DoElect(c, i))
  {
    var s := StartElection(c.servers[i]);
    OneServerKeepsSorted(c, DoElect(c, i), i, s, s);
  }

  lemma CrashKeepsSorted(c: Cluster, i: Id, m: VoteRequest)
    requires SortedInv(c)
    ensures SortedInv(DoRestart(c, i))
    ensures c.servers[i].term < m.term ==> SortedInv(DoCrashInVote(c, i, m))
  {
    OneServerKeepsSorted(c, DoRestart(c, i), i, Restore(c.disk[i]), c.disk[i]);
    if c.servers[i].term < m.term {
      var image := ConvertToFollower(c.servers[i], m.term);
      OneServerKeepsSorted(c, DoCrashInVote(c, i, m), i, Restore(image), image);
    }
  }

  lemma ClientKeepsSorted(c: Cluster, i: Id, e: Entry)
    requires SortedInv(c)
    ensures SortedInv(DoClient(c, i, e))
  {
    if CanAppend(c.servers[i]) {
      var s := AppendEntry(c.servers[i], e);
      OneServerKeepsSorted(c, DoClient(c, i, e), i, s, s);
    }
  }

  lemma StepKeepsSorted(mode: Delivery, c: Cluster, a: Action)
    requires SortedInv(c) && Enabled(mode, c, a)
    ensures SortedInv(Step(mode, c, a))
  {
    match a
    case Elect(i) => ElectKeepsSorted(c, i);
    case DeliverVote(i, m) => VoteKeepsSorted(c, i, m);
    case CrashInVote(i, m) => CrashKeepsSorted(c, i, m);
    case DeliverReply(r, stale) => ReplyKeepsSorted(mode, c, r, stale);
    case SendAppend(i, f) => SendKeepsSorted(c, i, f);
    case DeliverAppend(m) => AppendKeepsSorted(c, m);
    case ClientAppend(i, e) => ClientKeepsSorted(c, i, e);
    case Restart(i) => CrashKeepsSorted(c, i, VoteRequest(0, 0, 0, 0));
    case BeginSnapshot(i) =>
      OneServerKeepsSorted(c, Step(mode, c, a), i, c.servers[i].(snapshotInProgress := true), c.disk[i]);
    case EndSnapshot(i, newStart) => EndSnapshotKeepsSorted(c, i, newStart);
    case SendInstall(m) =>
    case DeliverInstall(m) => InstallKeepsSorted(c, m);
    case EndStream(i, f) =>
      OneServerKeepsSorted(c, Step(mode, c, a), i, EndOfStream(c.servers[i], f), c.disk[i]);
  }

  /** Sorted terms, in every state of every run. */
  lemma {:induction false} SortedTermsHold(mode: Delivery, capacity: nat, states: seq<Cluster>, actions: seq<Action>, n: nat)
    requires IsRun(mode, capacity, states, actions) && n < |states|
    ensures forall i: Id :: Sorted(states[n].servers[i].log)
    ensures forall i: Id :: TermsWithin(states[n].servers[i].log, 0, states[n].servers[i].term)
    ensures forall m :: m in states[n].net.appends && m.entry.Some? ==>
      m.prevTerm <= m.entry.value.term <= m.term
    ensures SortedInv(states[n])
  {
    if n > 0 {
      SortedTermsHold(mode, capacity, states, actions, n - 1);
      StepKeepsSorted(mode, states[n - 1], actions[n - 1]);
    }
    assert SortedInv(states[n]);
    assert forall i: Id :: Ordered(states[n].servers[i]);
    assert forall m :: m in states[n].net.appends ==> OrderedRequest(m);
  }
}
