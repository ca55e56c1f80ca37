/**
  What the cluster theorems give to the theorems on files: in every run without
  compaction or install, every append that a server accepts is in order, unless
  it is a late copy that makes the commit index go back.
*/
module ClusterFiles {
  import opened RaftTypes
  import opened ServerSpec
  import opened Cluster
  import opened TermLogs
  import opened LogMatching
  import opened LeaderCompleteness
  import opened StateMachineSafety
  import opened CommitIndex
  import H = HandlerSteps

  /** The entry is the one the log holds, or it conflicts above what is committed. */
  lemma EntryInOrder(s: Server, tl: Family, m: AppendRequest)
    requires Coherent(tl) && s.start == 0 && Matched(s.log, tl)
    requires m.term in tl && CutFrom(m, tl[m.term])
    requires s.commit >= 0 ==> Agree(s.log, tl[m.term], s.commit + 1)
    requires Consistent(s, m) && m.entry.Some? && s.InWindow(m.prevIndex + 1)
    ensures m.entry.value == s.EntryAt(m.prevIndex + 1) || (Conflicts(s, m) && m.prevIndex + 1 > s.commit)
  {
    var (k, leader) := (m.prevIndex + 1, tl[m.term]);
    if s.commit >= k {
      assert s.log[..s.commit + 1][k] == leader[..s.commit + 1][k];
    } else if s.log[k].term == leader[k].term {
      SameTermSamePrefix(s.log, leader, k, tl);
      assert s.log[..k + 1][k] == leader[..k + 1][k];
    }
  }

  /** Every accepted append of a run is in order, if it does not make the commit index go back. */
  lemma DeliveredInOrder(capacity: nat, states: seq<Cluster>, actions: seq<Action>, n: nat, m: AppendRequest)
    requires IsWholeLogRun(STRICT, capacity, states, actions) && n < |states| && m in states[n].net.appends
    requires var s := states[n].servers[m.follower];
      Consistent(s, m) && Storable(s, m) && HandleAppendRequest(s, m).0.commit >= s.commit
    ensures var s := states[n].servers[m.follower]; Inside(s) && H.InOrder(s, m)
  {
    RunKeepsCommit(capacity, states, actions, n);
    DeliveredAt(states[n], m, states[n].servers[m.follower]);
  }

  lemma DeliveredAt(c: Cluster, m: AppendRequest, s: Server)
    requires CoreInv(c) && CommitInv(c) && m in c.net.appends && s == c.servers[m.follower]
    requires Consistent(s, m) && Storable(s, m) && HandleAppendRequest(s, m).0.commit >= s.commit
    ensures Inside(s) && H.InOrder(s, m)
  {
    AcceptedFits(c, m);
    AcceptedInOrder(s, c.h.termLog, m);
  }

  /** What the invariants say of the log of a follower that a request passes. */
  lemma AcceptedFits(c: Cluster, m: AppendRequest)
    requires CoreInv(c) && CommitInv(c) && m in c.net.appends && Consistent(c.servers[m.follower], m)
    ensures var (s, tl) := (c.servers[m.follower], c.h.termLog);
      && Coherent(tl) && s.start == 0 && Matched(s.log, tl) && m.term in tl && CutFrom(m, tl[m.term])
      && (s.commit >= 0 ==> Agree(s.log, tl[m.term], s.commit + 1))
      && -1 <= s.commit < s.LogCount() && (m.entry.None? ==> m.leaderCommit <= m.prevIndex)
  {
    var s := c.servers[m.follower];
    assert Fits(s, c.h.termLog) && Safe(c.h, s.log, s.commit, s.term);
    if s.commit >= 0 {
      CommittedInLeader(c, s.log, s.commit, s.term, m.term);
    }
  }

  lemma AcceptedInOrder(s: Server, tl: Family, m: AppendRequest)
    requires s.Shaped() && Coherent(tl) && s.start == 0 && Matched(s.log, tl) && m.term in tl && CutFrom(m, tl[m.term])
    requires s.commit >= 0 ==> Agree(s.log, tl[m.term], s.commit + 1)
    requires -1 <= s.commit < s.LogCount() && Consistent(s, m) && Storable(s, m)
    requires m.entry.None? ==> m.leaderCommit <= m.prevIndex
    requires HandleAppendRequest(s, m).0.commit >= s.commit
    ensures Inside(s) && H.InOrder(s, m)
  {
    if m.entry.Some? && s.InWindow(m.prevIndex + 1) {
      EntryInOrder(s, tl, m);
    }
    CommitGoesBackIff(s, m);
  }
}
