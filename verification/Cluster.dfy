/**
  The cluster as a step system: five servers, the images on their disks, the
  datagrams ever sent, and history variables that the program does not have.
  A step is one handler on one server, or a crash followed by a restore.

  Datagrams stay in the network after delivery, so any of them may be lost,
  delayed, reordered or duplicated. The single exception is a vote reply, which
  `Delivery` can restrict to one delivery.
*/
module Cluster {
  import opened RaftTypes
  import opened ServerSpec

  /**
    What the network may do beyond losing, delaying, reordering and duplicating
    requests. The strict network has all three flags off.
    - duplicateVotes: a vote reply may be delivered more than once; votes are
      counted by increment (raft_candidate.c:109).
    - staleReplies: a leader may consume a reply to a request of an earlier
      tenure; request ids restart at 0 (raft_leader.c:136) and a reply carries
      the follower's current term (raft_follower.c:33).
    - blindAcks: a leader may consume the reply to a heartbeat as the
      acknowledgement of an entry that was added after it was sent; both share
      one request id (raft_leader.c:82-91, raft_leader.c:161).
  */
  datatype Delivery = Delivery(duplicateVotes: bool, staleReplies: bool, blindAcks: bool)

  const STRICT := Delivery(false, false, false)

  datatype Network = Network(
    votes: set<VoteRequest>, appends: set<AppendRequest>, installs: set<InstallRequest>, replies: set<Reply>)

  /**
    History. `votes[(t, v)]` is whom v voted for in term t; `leaderOf[t]` won
    term t with the votes of `quorum[t]`; `termLog[t]` is the log of that leader
    during its tenure; `candidateLog[(t, c)]` the log with which c ran in term t;
    `stored[(t, v)]` the longest prefix of `termLog[t]` that v held while in
    term t; `tally[i]` the voters i has counted since it last became a
    candidate; `settled` the (term, follower) pairs whose leader has seen a
    success.
  */
  datatype History = History(
    votes: map<(int, Id), Id>,
    leaderOf: map<int, Id>,
    quorum: map<int, set<Id>>,
    termLog: map<int, seq<Entry>>,
    candidateLog: map<(int, Id), seq<Entry>>,
    stored: map<(int, Id), nat>,
    tally: seq<set<Id>>,
    settled: set<(int, Id)>)

  datatype Cluster = Cluster(servers: seq<Server>, disk: seq<Server>, net: Network, h: History) {
    predicate Shaped() {
      && |servers| == |disk| == |h.tally| == N_SERVERS
      && (forall i: Id :: servers[i].Shaped() && servers[i].id == i)
      && (forall i: Id :: disk[i].Shaped() && disk[i].id == i)
    }
  }

  datatype Action =
    | Elect(i: Id)
    | DeliverVote(i: Id, vote: VoteRequest)
    | CrashInVote(i: Id, vote: VoteRequest)
    | DeliverReply(reply: Reply, stale: Entry)
    | SendAppend(i: Id, f: Id)
    | DeliverAppend(append: AppendRequest)
    | ClientAppend(i: Id, entry: Entry)
    | Restart(i: Id)
    | BeginSnapshot(i: Id)
    | EndSnapshot(i: Id, newStart: nat)
    | SendInstall(install: InstallRequest)
    | DeliverInstall(install: InstallRequest)
    | EndStream(i: Id, f: Id)

  /** Steps of a run in which no log is compacted and no snapshot installed. */
  predicate KeepsWholeLog(a: Action) {
    !a.BeginSnapshot? && !a.EndSnapshot? && !a.SendInstall? && !a.DeliverInstall? && !a.EndStream?
  }

  function Start(capacity: nat): (c: Cluster)
    ensures c.Shaped()
  {
    var servers := [Init(0, capacity), Init(1, capacity), Init(2, capacity), Init(3, capacity), Init(4, capacity)];
    Cluster(servers, servers, Network({}, {}, {}, {}),
            History(map[], map[], map[], map[], map[], map[], [{}, {}, {}, {}, {}], {}))
  }

  /** The delivery hypotheses on replies that a leader consumes. */
  predicate Trusted(mode: Delivery, s: Server, r: Reply)
    requires s.Shaped()
  {
    Expected(s, r) && s.nextIndex[r.from] >= s.start ==>
      && (mode.staleReplies || (r.origin.Appending? && r.origin.term == s.term))
      && (mode.blindAcks || (r.success != 0 && s.nextIndex[r.from] < s.LogCount() ==>
                               r.origin.Appending? && r.origin.carried))
  }

  /** A sender thread keeps the term and the snapshot id with which it began. */
  predicate ContinuesStream(c: Cluster, m: InstallRequest) {
    exists m0 :: m0 in c.net.installs && m0.term == m.term && m0.leader == m.leader
                 && m0.follower == m.follower && m0.snapshotId == m.snapshotId
  }

  predicate Enabled(mode: Delivery, c: Cluster, a: Action)
    requires c.Shaped()
  {
    match a
    case Elect(i) => !c.servers[i].role.Leader?
    case DeliverVote(i, m) => m in c.net.votes && i != m.candidate
    case CrashInVote(i, m) => m in c.net.votes && i != m.candidate && c.servers[i].term < m.term
    case DeliverReply(r, stale) =>
      && r in c.net.replies
      && (Wins(c.servers[r.to], r) ==> c.servers[r.to].HasRoom())
      && Trusted(mode, c.servers[r.to], r)
    case SendAppend(i, f) =>
      && c.servers[i].role.Leader? && f != i
      && c.servers[i].start <= c.servers[i].nextIndex[f] <= c.servers[i].LogCount()
    case DeliverAppend(m) =>
      m in c.net.appends && (Consistent(c.servers[m.follower], m) ==> Storable(c.servers[m.follower], m))
    case ClientAppend(i, e) => true
    case Restart(i) => true
    case BeginSnapshot(i) => !c.servers[i].snapshotInProgress
    case EndSnapshot(i, newStart) => c.servers[i].start < newStart <= c.servers[i].LogCount()
    case SendInstall(m) =>
      && m.follower != m.leader && m.snapshotId >= 0 && m.requestId >= 0
      && ((c.servers[m.leader].role.Leader? && c.servers[m.leader].term == m.term && c.servers[m.leader].start == m.snapshotId)
          || ContinuesStream(c, m))
    case DeliverInstall(m) => m in c.net.installs && m.snapshotId >= 0
    case EndStream(i, f) =>
      && c.servers[i].lastResponse[f] != 0
      && exists m :: m in c.net.installs && m.leader == i && m.follower == f && m.done
                     && m.requestId != c.servers[i].lastRequest[f]
  }

  /** Server i moves to s and saves the image. */
  function Save(c: Cluster, i: Id, s: Server): (c': Cluster)
    requires c.Shaped() && s.Shaped() && s.id == i
    ensures c'.Shaped()
  {
    c.(servers := c.servers[i := s], disk := c.disk[i := s])
  }

  function Sends(c: Cluster, r: Reply): Cluster {
    c.(net := c.net.(replies := c.net.replies + {r}))
  }

  function Max(a: nat, b: nat): nat {
    if a < b then b else a
  }

  function StoredBy(h: History, t: int, i: Id): nat {
    if (t, i) in h.stored then h.stored[(t, i)] else 0
  }

  function DoElect(c: Cluster, i: Id): (c': Cluster)
    requires c.Shaped()
    ensures c'.Shaped()
  {
    var s := StartElection(c.servers[i]);
    Save(c, i, s).(
      net := c.net.(votes := c.net.votes + {VoteRequestOf(s)}),
      h := c.h.(votes := c.h.votes[(s.term, i) := i],
                candidateLog := c.h.candidateLog[(s.term, i) := s.log],
                tally := c.h.tally[i := {i}]))
  }

  function DoVote(c: Cluster, i: Id, m: VoteRequest): (c': Cluster)
    requires c.Shaped()
    ensures c'.Shaped()
  {
    var (s, r) := HandleVoteRequest(c.servers[i], m);
    var c1 := Sends(Save(c, i, s), r);
    if r.success == 1 then c1.(h := c1.h.(votes := c1.h.votes[(m.term, i) := m.candidate])) else c1
  }

  /** A crash between the two saves of Raft_handle_vote_request. */
  function DoCrashInVote(c: Cluster, i: Id, m: VoteRequest): (c': Cluster)
    requires c.Shaped()
    ensures c'.Shaped()
  {
    var image := ConvertToFollower(c.servers[i], m.term);
    c.(servers := c.servers[i := Restore(image)], disk := c.disk[i := image])
  }

  /**
    The history of a consumed reply: a counted vote, a won election, or a first
    success seen by the leader of a term.
  */
  function NotedReply(h: History, s: Server, s': Server, r: Reply): (h': History)
    requires s.Shaped() && |h.tally| == N_SERVERS
    ensures |h'.tally| == N_SERVERS
  {
    if s.term == r.term && s.role.Candidate? && r.success > 0 then
      var tally := h.tally[s.id] + {r.from};
      var h1 := h.(tally := h.tally[s.id := tally]);
      if Wins(s, r) then
        h1.(leaderOf := h.leaderOf[s.term := s.id], quorum := h.quorum[s.term := tally],
            termLog := h.termLog[s.term := s'.log], stored := h.stored[(s.term, s.id) := |s'.log|])
      else h1
    else if Expected(s, r) && r.success != 0 then
      h.(settled := h.settled + {(s.term, r.from)})
    else h
  }

  /**
    Raft_handle_response saves the state unless it only counts a vote; the image
    of a new leader is written before its role changes.
  */
  function ImageAfterReply(image: Server, s: Server, s': Server, r: Reply): (image': Server)
    requires s.Shaped() && s'.Shaped() && image.Shaped() && image.id == s'.id
    ensures image'.Shaped() && image'.id == image.id
  {
    if s.term > r.term then image
    else if s.term < r.term then s'
    else if Wins(s, r) then s'.(role := Candidate)
    else if Expected(s, r) then s'
    else image
  }

  function DoReply(mode: Delivery, c: Cluster, r: Reply, stale: Entry): (c': Cluster)
    requires c.Shaped()
    ensures c'.Shaped()
  {
    var s := c.servers[r.to];
    var s' := HandleReply(s, r, stale);
    Cluster(c.servers[r.to := s'],
            c.disk[r.to := ImageAfterReply(c.disk[r.to], s, s', r)],
            if r.origin.Ballot? && !mode.duplicateVotes then c.net.(replies := c.net.replies - {r}) else c.net,
            NotedReply(c.h, s, s', r))
  }

  function DoSend(c: Cluster, i: Id, f: Id): (c': Cluster)
    requires c.Shaped() && c.servers[i].start <= c.servers[i].nextIndex[f] <= c.servers[i].LogCount()
    ensures c'.Shaped()
  {
    c.(net := c.net.(appends := c.net.appends + {AppendRequestTo(c.servers[i], f)}))
  }

  /** The part of the leader's log that a successful request shows to be held. */
  function Covered(m: AppendRequest): int {
    m.prevIndex + (if m.entry.Some? then 2 else 1)
  }

  function DoAppend(c: Cluster, m: AppendRequest): (c': Cluster)
    requires c.Shaped() && (Consistent(c.servers[m.follower], m) ==> Storable(c.servers[m.follower], m))
    ensures c'.Shaped()
  {
    var (s, r) := HandleAppendRequest(c.servers[m.follower], m);
    var c1 := Sends(Save(c, m.follower, s), r);
    if r.success == 1 && Covered(m) >= 0 then
      c1.(h := c1.h.(stored := c1.h.stored[(m.term, m.follower) := Max(StoredBy(c1.h, m.term, m.follower), Covered(m))]))
    else c1
  }

  function DoClient(c: Cluster, i: Id, e: Entry): (c': Cluster)
    requires c.Shaped()
    ensures c'.Shaped()
  {
    if CanAppend(c.servers[i]) then
      var s := AppendEntry(c.servers[i], e);
      Save(c, i, s).(h := c.h.(termLog := c.h.termLog[s.term := s.log],
                               stored := c.h.stored[(s.term, i) := |s.log|]))
    else c
  }

  function DoRestart(c: Cluster, i: Id): (c': Cluster)
    requires c.Shaped()
    ensures c'.Shaped()
  {
    c.(servers := c.servers[i := Restore(c.disk[i])])
  }

  function DoInstall(c: Cluster, m: InstallRequest): (c': Cluster)
    requires c.Shaped() && m.snapshotId >= 0
    ensures c'.Shaped()
  {
    var (s, r) := HandleInstallRequest(c.servers[m.follower], m);
    Sends(Save(c, m.follower, s), r)
  }

  /** The end of Raft_send_snapshot, which nothing saves: appends go on after the snapshot. */
  function EndOfStream(s: Server, f: Id): (s': Server)
    requires s.Shaped()
    ensures s'.Shaped()
  {
    s.(nextIndex := s.nextIndex[f := s.start], matchIndex := s.matchIndex[f := s.start - 1])
  }

  function Step(mode: Delivery, c: Cluster, a: Action): (c': Cluster)
    requires c.Shaped() && Enabled(mode, c, a)
    ensures c'.Shaped()
  {
    match a
    case Elect(i) => DoElect(c, i)
    case DeliverVote(i, m) => DoVote(c, i, m)
    case CrashInVote(i, m) => DoCrashInVote(c, i, m)
    case DeliverReply(r, stale) => DoReply(mode, c, r, stale)
    case SendAppend(i, f) => DoSend(c, i, f)
    case DeliverAppend(m) => DoAppend(c, m)
    case ClientAppend(i, e) => DoClient(c, i, e)
    case Restart(i) => DoRestart(c, i)
    case BeginSnapshot(i) => c.(servers := c.servers[i := c.servers[i].(snapshotInProgress := true)])
    case EndSnapshot(i, newStart) => Save(c, i, FinishSnapshot(c.servers[i], newStart))
    case SendInstall(m) => c.(net := c.net.(installs := c.net.installs + {m}))
    case DeliverInstall(m) => DoInstall(c, m)
    case EndStream(i, f) => c.(servers := c.servers[i := EndOfStream(c.servers[i], f)])
  }

  /** A run: a sequence of states joined by enabled steps, from the initial state. */
  predicate IsRun(mode: Delivery, capacity: nat, states: seq<Cluster>, actions: seq<Action>) {
    && |states| == |actions| + 1
    && states[0] == Start(capacity)
    && (forall n :: 0 <= n < |states| ==> states[n].Shaped())
    && (forall n :: 0 <= n < |actions| ==>
          Enabled(mode, states[n], actions[n]) && states[n + 1] == Step(mode, states[n], actions[n]))
  }

  predicate IsWholeLogRun(mode: Delivery, capacity: nat, states: seq<Cluster>, actions: seq<Action>) {
    IsRun(mode, capacity, states, actions) && forall n :: 0 <= n < |actions| ==> KeepsWholeLog(actions[n])
  }
}
