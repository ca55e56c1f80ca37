/**
  The Raft handlers of one server, as functions from state to state. Every
  handler of the program runs under one spinlock, so each function is one
  atomic step. `RaftServer` holds the imperative code that computes them.
*/
module ServerSpec {
  import opened RaftTypes

  /**
    raft_state_t. `log` is the window of entries kept in memory, from absolute
    position `start` (start_log_index) to `LogCount()` (log_count), and
    `replicated[k]` is n_servers_replicated of `log[k]`.
  */
  datatype Server = Server(
    id: Id,
    capacity: nat,
    term: int,
    votedFor: Option<Id>,
    role: Role,
    start: nat,
    log: seq<Entry>,
    replicated: seq<int>,
    commit: int,
    nvoted: int,
    nblocked: int,
    nextIndex: seq<int>,
    matchIndex: seq<int>,
    lastRequest: seq<int>,
    lastResponse: seq<int>,
    snapshotInProgress: bool,
    receivers: int,
    installId: int,
    installIndex: int)
  {
    /** What the field types of the program already guarantee. */
    predicate Shaped() {
      && |replicated| == |log|
      && |nextIndex| == |matchIndex| == |lastRequest| == |lastResponse| == N_SERVERS
    }

    /** log_count: the absolute position after the last entry. */
    function LogCount(): nat {
      start + |log|
    }

    /** Raft_get_log returns a slot, and not null. */
    predicate InWindow(k: int) {
      start <= k < LogCount()
    }

    /** Raft_get_log_term. */
    function TermAt(k: int): int {
      if InWindow(k) then log[k - start].term else -1
    }

    function EntryAt(k: int): Entry
      requires InWindow(k)
    {
      log[k - start]
    }

    predicate HasRoom() {
      |log| < capacity
    }
  }

  function Filled(x: int): (s: seq<int>)
    ensures |s| == N_SERVERS
    ensures forall i :: 0 <= i < N_SERVERS ==> s[i] == x
  {
    [x, x, x, x, x]
  }

  /** Raft_server_init. */
  function Init(id: Id, capacity: nat): Server {
    Server(id, capacity, 0, None, Follower, 0, [], [], -1, 0, 0,
           Filled(0), Filled(0), Filled(0), Filled(0), false, 0, -1, -1)
  }

  /**
    Raft_server_restore, applied to the image on disk. The commit index first
    falls back to `start - 1` and is then raised to its saved value by
    Raft_commit_update, so it comes back unchanged.
  */
  function Restore(image: Server): Server {
    image.(role := Follower, snapshotInProgress := false, receivers := 0,
           nvoted := 0, nblocked := 0, installId := -1, installIndex := -1)
  }

  // ---------------------------------------------------------------------------
  // raft_candidate.c

  /** Raft_attempt_to_elect, up to the point where it releases the lock. */
  function StartElection(s: Server): Server {
    s.(term := s.term + 1, votedFor := Some(s.id), role := Candidate, nvoted := 1, nblocked := 0)
  }

  function VoteRequestOf(s: Server): VoteRequest {
    VoteRequest(s.term, s.id, s.LogCount() - 1, s.TermAt(s.LogCount() - 1))
  }

  /** The candidate's log is at least as up to date as the voter's. */
  predicate UpToDate(m: VoteRequest, s: Server) {
    || m.lastTerm > s.TermAt(s.LogCount() - 1)
    || (m.lastTerm == s.TermAt(s.LogCount() - 1) && m.lastIndex >= s.LogCount() - 1)
  }

  predicate Grants(s: Server, m: VoteRequest) {
    s.term == m.term && s.votedFor.None? && UpToDate(m, s)
  }

  /** Raft_handle_vote_request: the new state and the reply that is sent. */
  function HandleVoteRequest(s: Server, m: VoteRequest): (Server, Reply) {
    var s1 := if s.term < m.term then ConvertToFollower(s, m.term) else s;
    if Grants(s1, m) then
      (s1.(votedFor := Some(m.candidate)), Reply(s.id, m.candidate, s1.term, 1, -1, Ballot))
    else
      var success := if s1.term == m.term && s1.votedFor.None? then -1 else 0;
      (s1, Reply(s.id, m.candidate, s1.term, success, -1, Ballot))
  }

  // ---------------------------------------------------------------------------
  // raft_follower.c

  /** Raft_convert_to_follower. */
  function ConvertToFollower(s: Server, term: int): Server {
    var s1 := s.(term := term, nvoted := 0, nblocked := 0, votedFor := None, role := Follower);
    if s.installId != -1 then s1.(installId := -1, installIndex := -1) else s1
  }

  /** The consistency check of Raft_handle_append_request. */
  predicate Consistent(s: Server, m: AppendRequest) {
    s.term <= m.term && m.prevIndex < s.LogCount() && s.TermAt(m.prevIndex) == m.prevTerm
  }

  /**
    The entry of a request is stored through Raft_get_log, which is null below
    the window; a request for such a position makes the program fault.
  */
  predicate Storable(s: Server, m: AppendRequest) {
    m.entry.Some? ==> s.start <= m.prevIndex + 1 < s.start + s.capacity
  }

  /** The log after storing `e` at relative position `k`: a conflict drops the tail. */
  function Put(log: seq<Entry>, k: nat, e: Entry): (r: seq<Entry>)
    requires k <= |log|
  {
    if k < |log| && log[k].term == e.term then log[k := e] else log[..k] + [e]
  }

  function PutCount(log: seq<Entry>, counts: seq<int>, k: nat, e: Entry, n: int): (r: seq<int>)
    requires k <= |log| == |counts|
    ensures |r| == |Put(log, k, e)|
  {
    if k < |log| && log[k].term == e.term then counts[k := n] else counts[..k] + [n]
  }

  function Min(a: int, b: int): int {
    if a < b then a else b
  }

  /** Raft_handle_append_request after the consistency check has passed. */
  function Accept(s: Server, m: AppendRequest): (r: Server)
    requires s.Shaped() && m.prevIndex < s.LogCount() && Storable(s, m)
    ensures r.Shaped()
  {
    match m.entry
    case None =>
      s.(role := Follower, commit := if m.leaderCommit > s.commit then m.leaderCommit else s.commit)
    case Some(e) =>
      var k := m.prevIndex + 1 - s.start;
      s.(role := Follower,
         log := Put(s.log, k, e),
         replicated := PutCount(s.log, s.replicated, k, e, m.replicated),
         commit := if m.leaderCommit > s.commit then Min(m.prevIndex + 1, m.leaderCommit) else s.commit)
  }

  function AppendReply(s: Server, m: AppendRequest, term: int, success: int): Reply {
    Reply(s.id, m.leader, term, success, m.requestId, Appending(m.term, m.prevIndex, m.entry.Some?))
  }

  /** Raft_handle_append_request. */
  function HandleAppendRequest(s: Server, m: AppendRequest): (r: (Server, Reply))
    requires s.Shaped() && (Consistent(s, m) ==> Storable(s, m))
    ensures r.0.Shaped()
  {
    var s1 := if s.term < m.term then ConvertToFollower(s, m.term) else s;
    if Consistent(s, m) then
      (Accept(s1, m), AppendReply(s, m, s1.term, 1))
    else
      (s1, AppendReply(s, m, s1.term, 0))
  }

  /**
    Raft_handle_install_snapshot_request. The first component of the condition
    below is the test of raft_follower.c:90-92, negated.
  */
  predicate InstallAccepted(s: Server, m: InstallRequest) {
    && s.term <= m.term
    && (s.installId == -1 || s.installId == m.snapshotId)
    && s.installIndex + 1 == m.index
  }

  function HandleInstallRequest(s: Server, m: InstallRequest): (r: (Server, Reply))
    requires s.Shaped() && m.snapshotId >= 0
    ensures r.0.Shaped()
  {
    var s1 := if s.term < m.term then ConvertToFollower(s, m.term) else s;
    var origin := Installing(m.term);
    if !InstallAccepted(s1, m) then
      (s1, Reply(s.id, m.leader, s1.term, 0, m.requestId, origin))
    else if m.done then
      (s1.(snapshotInProgress := false, start := m.snapshotId, log := [], replicated := [],
           commit := m.snapshotId - 1, installIndex := -1, installId := -1),
       Reply(s.id, m.leader, s1.term, 1, m.requestId, origin))
    else
      (s1.(snapshotInProgress := true, installId := m.snapshotId, installIndex := s1.installIndex + 1),
       Reply(s.id, m.leader, s1.term, 1, m.requestId, origin))
  }

  // ---------------------------------------------------------------------------
  // raft_leader.c

  /** Raft_send_append_entry_request. */
  function AppendRequestTo(s: Server, f: Id): AppendRequest
    requires s.Shaped() && s.start <= s.nextIndex[f] <= s.LogCount()
  {
    var next := s.nextIndex[f];
    var carries := next != s.LogCount();
    AppendRequest(s.term, s.id, f, next - 1, s.TermAt(next - 1),
                  if carries then Some(s.EntryAt(next)) else None,
                  if carries then s.replicated[next - s.start] else 0,
                  s.commit, s.lastRequest[f])
  }

  /**
    Raft_convert_to_leader. The entry it adds keeps the id, client and data that
    its slot held before, `stale`.
  */
  function Opening(term: int, stale: Entry): Entry {
    stale.(term := term, kind := LeaderLog)
  }

  function ConvertToLeader(s: Server, stale: Entry): (r: Server)
    requires s.Shaped()
    ensures r.Shaped()
  {
    s.(role := Leader, receivers := 0,
       log := s.log + [Opening(s.term, stale)],
       replicated := s.replicated + [1],
       nextIndex := Filled(s.LogCount() + 1), matchIndex := Filled(0),
       lastRequest := Filled(0), lastResponse := Filled(-1))
  }

  /** The acknowledged position is counted only if it is new and of the current term. */
  predicate Counts(s: Server, f: Id)
    requires s.Shaped()
  {
    s.nextIndex[f] < s.LogCount() && s.nextIndex[f] > s.commit && s.TermAt(s.nextIndex[f]) == s.term
  }

  /** Raft_handle_append_response. */
  function HandleAppendReply(s: Server, f: Id, success: int): (r: Server)
    requires s.Shaped() && s.start <= s.nextIndex[f]
    ensures r.Shaped()
  {
    var next := s.nextIndex[f];
    var s1 :=
      if success == 0 then
        s.(nextIndex := s.nextIndex[f := next - 1])
      else if next < s.LogCount() then
        var k := next - s.start;
        var counts := if Counts(s, f) then s.replicated[k := s.replicated[k] + 1] else s.replicated;
        s.(replicated := counts,
           commit := if Counts(s, f) && IsMajority(counts[k]) then next else s.commit,
           matchIndex := s.matchIndex[f := next],
           nextIndex := s.nextIndex[f := next + 1])
      else
        s;
    s1.(lastRequest := s.lastRequest[f := s.lastRequest[f] + 1])
  }

  // ---------------------------------------------------------------------------
  // raft.c

  /** Raft_handle_vote_response, when it does not end the election. */
  function CountVote(s: Server, success: int): Server {
    if success > 0 then s.(nvoted := s.nvoted + 1)
    else if success == -1 then s.(nblocked := s.nblocked + 1)
    else s
  }

  predicate Wins(s: Server, r: Reply) {
    s.term == r.term && s.role.Candidate? && r.success > 0 && IsMajority(s.nvoted + 1)
  }

  /** A leader acts on a reply only if it carries the id of the outstanding request. */
  predicate Expected(s: Server, r: Reply)
    requires s.Shaped()
  {
    s.term == r.term && s.role.Leader? && r.requestId == s.lastRequest[r.from]
  }

  /** Raft_handle_response. `stale` is only read when the reply wins an election. */
  function HandleReply(s: Server, r: Reply, stale: Entry): (s': Server)
    requires s.Shaped()
    ensures s'.Shaped()
  {
    if s.term > r.term then s
    else if s.term < r.term then ConvertToFollower(s, r.term)
    else
      var s1 := s.(lastResponse := s.lastResponse[r.from := r.success]);
      if s.role.Candidate? then
        if Wins(s, r) then ConvertToLeader(CountVote(s1, r.success), stale) else CountVote(s1, r.success)
      else if Expected(s, r) then
        if s.nextIndex[r.from] < s.start then
          s1.(lastRequest := s.lastRequest[r.from := s.lastRequest[r.from] + 1])
        else
          HandleAppendReply(s1, r.from, r.success)
      else s1
  }

  /** Raft_append_entry, when it returns 0. */
  predicate CanAppend(s: Server) {
    s.role.Leader? && s.HasRoom()
  }

  function AppendEntry(s: Server, e: Entry): (r: Server)
    requires s.Shaped()
    ensures r.Shaped()
  {
    if CanAppend(s) then
      s.(log := s.log + [e.(term := s.term, kind := ClientLog)], replicated := s.replicated + [1])
    else s
  }

  /** The locked part at the end of Raft_create_snapshot: the shift of the window. */
  function FinishSnapshot(s: Server, newStart: nat): (r: Server)
    requires s.Shaped() && s.start <= newStart <= s.LogCount()
    ensures r.Shaped()
  {
    s.(snapshotInProgress := false, start := newStart,
       log := s.log[newStart - s.start..], replicated := s.replicated[newStart - s.start..])
  }
}
