/**
  What the handlers of a server do, by absolute position in the log and for a
  window with any start: when a vote is given, what a request stores, when a
  position is counted and committed, and what is answered. The laws use the
  fields of the server only, and none of the functions that the handlers are
  made of.
*/
module HandlerLaws {
  import opened RaftTypes
  import opened ServerSpec

  /** The replication counter of the entry at an absolute position. */
  function CountAt(s: Server, p: int): int
    requires s.Shaped() && s.InWindow(p)
  {
    s.replicated[p - s.start]
  }

  /** The term of the last entry of a window, or -1. */
  function LastTerm(log: seq<Entry>): int {
    if |log| == 0 then -1 else log[|log| - 1].term
  }

  /** The server after it has heard of a term. */
  function Heard(s: Server, term: int): Server {
    if term <= s.term then s
    else
      s.(term := term, role := Follower, votedFor := None, nvoted := 0, nblocked := 0, installId := -1,
         installIndex := if s.installId == -1 then s.installIndex else -1)
  }

  // ---------------------------------------------------------------------------
  // Votes

  /** (term, index) of a last entry, in lexicographic order. */
  predicate NotAfter(term: int, index: int, term': int, index': int) {
    term < term' || (term == term' && index <= index')
  }

  /**
    A vote is granted if and only if the request is of the voter's term, it has not
    voted in it, and the candidate's last entry does not come before its own. If
    only the last fails, the answer is -1. A granted vote is recorded, and nothing
    else changes but what a newer term changes.
  */
  lemma VoteLaw(s: Server, m: VoteRequest)
    ensures var (t, r) := HandleVoteRequest(s, m);
      var u := Heard(s, m.term);
      var (free, current) := (u.term == m.term && u.votedFor.None?,
                              NotAfter(LastTerm(s.log), s.start + |s.log| - 1, m.lastTerm, m.lastIndex));
      && (r.success == 1 <==> free && current)
      && (r.success == -1 <==> free && !current)
      && (r.success == 0 <==> !free)
      && t == (if r.success == 1 then u.(votedFor := Some(m.candidate)) else u)
      && r == Reply(s.id, m.candidate, u.term, r.success, -1, Ballot)
  {
  }

  /**
    Server u, which has not seen the term for which s stands, votes for s if and
    only if the last entry of s does not come before its own.
  */
  lemma CandidacyGrantedIff(s: Server, u: Server)
    requires u.term <= s.term
    ensures var c := StartElection(s);
      HandleVoteRequest(u, VoteRequestOf(c)).1.success == 1
      <==> NotAfter(LastTerm(u.log), u.start + |u.log|, LastTerm(s.log), s.start + |s.log|)
  {
    VoteLaw(u, VoteRequestOf(StartElection(s)));
  }

  /** Of two servers in one term, one can always win the vote of the other. */
  lemma OneOfTwoIsGranted(s: Server, u: Server)
    requires s.term == u.term
    ensures || HandleVoteRequest(u, VoteRequestOf(StartElection(s))).1.success == 1
            || HandleVoteRequest(s, VoteRequestOf(StartElection(u))).1.success == 1
  {
    CandidacyGrantedIff(s, u);
    CandidacyGrantedIff(u, s);
  }

  /** A candidate begins a new term with its own vote, and asks with its last entry. */
  lemma CandidacyLaw(s: Server)
    ensures var c := StartElection(s);
      && c == s.(term := s.term + 1, votedFor := Some(s.id), role := Candidate, nvoted := 1, nblocked := 0)
      && VoteRequestOf(c) == VoteRequest(s.term + 1, s.id, s.start + |s.log| - 1, LastTerm(s.log))
  {
  }

  // ---------------------------------------------------------------------------
  // Append requests

  /** The server holds an entry of this term at position p, or both have none there. */
  predicate TermThere(s: Server, p: int, term: int) {
    if s.start <= p < s.start + |s.log| then s.log[p - s.start].term == term else term == -1
  }

  /** When a request passes the consistency check. */
  predicate Passes(s: Server, m: AppendRequest) {
    m.term >= s.term && m.prevIndex < s.start + |s.log| && TermThere(s, m.prevIndex, m.prevTerm)
  }

  /** Between s and t, one position of the log has been written. */
  ghost predicate WrittenAt(s: Server, t: Server, p: int, e: Entry, count: int)
    requires s.Shaped() && t.Shaped()
  {
    && t.start == s.start && s.start <= p <= s.LogCount() && p < t.LogCount()
    && (forall q :: t.start <= q < t.LogCount() && q != p ==>
          q < s.LogCount() && t.EntryAt(q) == s.EntryAt(q) && CountAt(t, q) == CountAt(s, q))
    && t.EntryAt(p) == e && CountAt(t, p) == count
  }

  /**
    A request is answered 1 exactly if it passes the check. Then its entry is at
    the position after the one that was checked; what was behind that position is
    dropped exactly if there was an entry of another term. The commit index rises
    to what the leader has committed, but not past the entry.
  */
  lemma AppendRequestLaw(s: Server, m: AppendRequest)
    requires s.Shaped() && (Consistent(s, m) ==> Storable(s, m))
    ensures var (t, r) := HandleAppendRequest(s, m);
      var (u, p) := (Heard(s, m.term), m.prevIndex + 1);
      && r == Reply(s.id, m.leader, u.term, if Passes(s, m) then 1 else 0, m.requestId,
                    Appending(m.term, m.prevIndex, m.entry.Some?))
      && (!Passes(s, m) ==> t == u)
      && (Passes(s, m) ==> t == u.(role := Follower, log := t.log, replicated := t.replicated, commit := t.commit))
      && (Passes(s, m) && m.entry.None? ==> t.log == s.log && t.replicated == s.replicated)
      && (Passes(s, m) && m.entry.Some? ==>
            && WrittenAt(s, t, p, m.entry.value, m.replicated)
            && t.LogCount() == (if p < s.LogCount() && s.EntryAt(p).term == m.entry.value.term then s.LogCount() else p + 1))
  {
    var t := HandleAppendRequest(s, m).0;
    if Passes(s, m) && m.entry.Some? {
      StoredLaw(s, t, m.prevIndex + 1, m.entry.value, m.replicated);
    }
  }

  lemma StoredLaw(s: Server, t: Server, p: int, e: Entry, count: int)
    requires s.Shaped() && t.Shaped() && t.start == s.start && s.start <= p <= s.LogCount()
    requires t.log == Put(s.log, p - s.start, e) && t.replicated == PutCount(s.log, s.replicated, p - s.start, e, count)
    ensures WrittenAt(s, t, p, e, count)
    ensures t.LogCount() == if p < s.LogCount() && s.EntryAt(p).term == e.term then s.LogCount() else p + 1
  {
  }

  lemma AppendCommitLaw(s: Server, m: AppendRequest)
    requires s.Shaped() && (Consistent(s, m) ==> Storable(s, m))
    ensures var (t, p) := (HandleAppendRequest(s, m).0, m.prevIndex + 1);
      && (t.commit != s.commit ==> Passes(s, m) && m.leaderCommit > s.commit)
      && (Passes(s, m) && m.leaderCommit > s.commit ==>
            t.commit == if m.entry.Some? && p < m.leaderCommit then p else m.leaderCommit)
  {
  }

  /** The request is about the position next_index of the follower, and describes the entry before it. */
  lemma RequestLaw(s: Server, f: Id)
    requires s.Shaped() && s.start <= s.nextIndex[f] <= s.LogCount()
    ensures var (m, p) := (AppendRequestTo(s, f), s.nextIndex[f]);
      && m.term == s.term && m.leader == s.id && m.follower == f && m.requestId == s.lastRequest[f]
      && m.prevIndex == p - 1 && TermThere(s, p - 1, m.prevTerm) && m.leaderCommit == s.commit
      && (m.entry.Some? <==> s.InWindow(p))
      && (s.InWindow(p) ==> m.entry.value == s.EntryAt(p) && m.replicated == CountAt(s, p))
  {
  }

  /**
    A request and its handling together: a follower of the leader's term whose log
    reaches the entry before next_index takes the leader's entry over, if and only
    if it holds an entry of the same term before it.
  */
  lemma RequestHandled(s: Server, f: Id, u: Server)
    requires s.Shaped() && u.Shaped() && u.term == s.term && s.start < s.nextIndex[f] < s.LogCount()
    requires u.start < s.nextIndex[f] <= u.LogCount() && s.nextIndex[f] < u.start + u.capacity
    ensures var (p, (t, r)) := (s.nextIndex[f], HandleAppendRequest(u, AppendRequestTo(s, f)));
      && (r.success == 1 <==> u.EntryAt(p - 1).term == s.EntryAt(p - 1).term)
      && (r.success == 1 ==> t.InWindow(p) && t.EntryAt(p) == s.EntryAt(p) && CountAt(t, p) == CountAt(s, p))
      && (r.success == 1 ==> forall q :: u.start <= q < p ==> t.InWindow(q) && t.EntryAt(q) == u.EntryAt(q))
      && (r.success != 1 ==> t == u)
  {
    RequestLaw(s, f);
    AppendRequestLaw(u, AppendRequestTo(s, f));
  }

  // ---------------------------------------------------------------------------
  // Answers to append requests

  /** The leader counts a success of f for the position that it acknowledges. */
  predicate Counted(s: Server, f: Id, success: int)
    requires s.Shaped()
  {
    var p := s.nextIndex[f];
    success != 0 && s.start <= p < s.start + |s.log| && p > s.commit && s.log[p - s.start].term == s.term
  }

  /**
    The counter of a position goes up by one if and only if it is the one that is
    acknowledged, is not committed, and has an entry of the leader's term; no other
    counter changes. The commit index becomes that position if and only if its
    counter went up and is now more than half of the servers.
  */
  lemma CountLaw(s: Server, f: Id, success: int)
    requires s.Shaped() && s.start <= s.nextIndex[f]
    ensures var (t, p) := (HandleAppendReply(s, f, success), s.nextIndex[f]);
      && t.start == s.start && t.log == s.log
      && (forall q :: s.InWindow(q) ==>
            CountAt(t, q) == CountAt(s, q) + if q == p && Counted(s, f, success) then 1 else 0)
      && (t.commit != s.commit <==> Counted(s, f, success) && CountAt(t, p) * 2 > N_SERVERS)
      && (t.commit != s.commit ==> t.commit == p)
  {
  }

  /**
    The place of the follower goes one position back after a refusal, and forward
    after a success, unless it is at the end of the log. Nothing changes for the
    other followers.
  */
  lemma PlaceLaw(s: Server, f: Id, success: int)
    requires s.Shaped() && s.start <= s.nextIndex[f]
    ensures var (t, p) := (HandleAppendReply(s, f, success), s.nextIndex[f]);
      && t == s.(replicated := t.replicated, commit := t.commit, nextIndex := t.nextIndex,
                 matchIndex := t.matchIndex, lastRequest := t.lastRequest)
      && t.nextIndex[f] == (if success == 0 then p - 1 else if p < s.LogCount() then p + 1 else p)
      && t.matchIndex[f] == (if success != 0 && p < s.LogCount() then p else s.matchIndex[f])
      && t.lastRequest[f] == s.lastRequest[f] + 1
      && forall g: Id :: g != f ==>
           t.nextIndex[g] == s.nextIndex[g] && t.matchIndex[g] == s.matchIndex[g] && t.lastRequest[g] == s.lastRequest[g]
  {
  }

  // ---------------------------------------------------------------------------
  // Replies of any kind

  /** A reply of an older term changes nothing, and one of a newer term only what the term changes. */
  lemma OtherTermLaw(s: Server, r: Reply, stale: Entry)
    requires s.Shaped() && r.term != s.term
    ensures HandleReply(s, r, stale) == Heard(s, r.term)
  {
  }

  /** What is noted of every reply of the server's own term. */
  function Noted(s: Server, r: Reply): Server
    requires s.Shaped()
  {
    s.(lastResponse := s.lastResponse[r.from := r.success])
  }

  /**
    A candidate counts a vote or a refusal. It leads if and only if its votes are
    then more than half of the servers; its log is longer by one entry, which takes
    the rest of its slot over, has been stored once, and comes right before the
    place of every follower.
  */
  lemma BallotLaw(s: Server, r: Reply, stale: Entry)
    requires s.Shaped() && r.term == s.term && s.role.Candidate?
    ensures var (t, u) := (HandleReply(s, r, stale), Noted(s, r));
      && t.nvoted == s.nvoted + (if r.success > 0 then 1 else 0)
      && t.nblocked == s.nblocked + (if r.success == -1 then 1 else 0)
      && (t.role.Leader? <==> r.success > 0 && t.nvoted * 2 > N_SERVERS)
      && (!t.role.Leader? ==> t == u.(nvoted := t.nvoted, nblocked := t.nblocked))
      && (t.role.Leader? ==> NewLeader(u.(nvoted := t.nvoted), t, stale))
  {
  }

  ghost predicate NewLeader(s: Server, t: Server, stale: Entry)
    requires s.Shaped() && t.Shaped()
  {
    var p := s.start + |s.log|;
    && t == s.(role := Leader, receivers := 0, log := t.log, replicated := t.replicated, nextIndex := t.nextIndex,
               matchIndex := t.matchIndex, lastRequest := t.lastRequest, lastResponse := t.lastResponse)
    && t.LogCount() == p + 1
    && WrittenAt(s, t, p, Entry(s.term, LeaderLog, stale.id, stale.client, stale.data), 1)
    && (forall f: Id ::
          t.nextIndex[f] == p + 1 && t.matchIndex[f] == 0 && t.lastRequest[f] == 0 && t.lastResponse[f] == -1)
  }

  /**
    A leader acts on the answer to its outstanding request only, as on an answer to
    an append, or, for a follower whose place is below the window, by numbering the
    next request. Everything else is only noted.
  */
  lemma LeaderReplyLaw(s: Server, r: Reply, stale: Entry)
    requires s.Shaped() && r.term == s.term && !s.role.Candidate?
    ensures var (t, u, f) := (HandleReply(s, r, stale), Noted(s, r), r.from);
      if s.role.Leader? && r.requestId == s.lastRequest[f] then
        if s.nextIndex[f] < s.start then t == u.(lastRequest := s.lastRequest[f := s.lastRequest[f] + 1])
        else t == HandleAppendReply(u, f, r.success)
      else t == u
  {
  }

  // ---------------------------------------------------------------------------
  // The client, the disk and compaction

  /** A client's entry is appended exactly by a leader with room, with the leader's term. */
  lemma ClientLaw(s: Server, e: Entry)
    requires s.Shaped()
    ensures var t := AppendEntry(s, e);
      && (t != s <==> s.role.Leader? && |s.log| < s.capacity)
      && (t != s ==> t == s.(log := t.log, replicated := t.replicated) && t.LogCount() == s.LogCount() + 1)
      && (t != s ==> WrittenAt(s, t, s.LogCount(), Entry(s.term, ClientLog, e.id, e.client, e.data), 1))
  {
  }

  /** A restart makes a follower of the server and loses its counts and an unfinished install, and nothing else. */
  lemma RestartLaw(s: Server)
    ensures Restore(s) == s.(role := Follower, snapshotInProgress := false, receivers := 0, nvoted := 0, nblocked := 0,
                             installId := -1, installIndex := -1)
  {
  }

  /** A vote outlives a restart: the server answers every vote request as it would have, and votes as it would have. */
  lemma RestartKeepsVotes(s: Server, m: VoteRequest)
    ensures HandleVoteRequest(Restore(s), m).1 == HandleVoteRequest(s, m).1
    ensures HandleVoteRequest(Restore(s), m).0.votedFor == HandleVoteRequest(s, m).0.votedFor
    ensures HandleVoteRequest(Restore(s), m).0.term == HandleVoteRequest(s, m).0.term
  {
    VoteLaw(s, m);
    VoteLaw(Restore(s), m);
  }

  /** So does the log: an append request has the same answer, and makes the same of log, counters and commit index. */
  lemma RestartKeepsAppends(s: Server, m: AppendRequest)
    requires s.Shaped() && (Consistent(s, m) ==> Storable(s, m))
    ensures var ((t, r), (t', r')) := (HandleAppendRequest(s, m), HandleAppendRequest(Restore(s), m));
      r' == r && t'.log == t.log && t'.replicated == t.replicated && t'.commit == t.commit && t'.term == t.term
  {
    assert Consistent(Restore(s), m) <==> Consistent(s, m);
  }

  /**
    The end of a compaction moves entries and counters together: at every position
    that is left, both are as before. Only the window and the flag change.
  */
  lemma ShiftLaw(s: Server, newStart: nat)
    requires s.Shaped() && s.start <= newStart <= s.LogCount()
    ensures var t := FinishSnapshot(s, newStart);
      && t == s.(start := newStart, log := t.log, replicated := t.replicated, snapshotInProgress := false)
      && t.LogCount() == s.LogCount()
      && forall p :: newStart <= p < s.LogCount() ==> t.EntryAt(p) == s.EntryAt(p) && CountAt(t, p) == CountAt(s, p)
  {
  }

  // ---------------------------------------------------------------------------
  // Snapshots

  /** When a piece of a snapshot, or its end, is the next one that the follower waits for. */
  predicate Awaits(s: Server, m: InstallRequest) {
    && m.term >= s.term && (s.installId == -1 || s.installId == m.snapshotId) && m.index == s.installIndex + 1
  }

  /**
    A request is answered 1 exactly if it is the one that is awaited, with its own
    number and the follower's term; otherwise nothing changes but what a newer term
    changes. The end moves the window to the snapshot.
  */
  lemma InstallLaw(s: Server, m: InstallRequest)
    requires s.Shaped() && m.snapshotId >= 0
    ensures var (t, r) := HandleInstallRequest(s, m);
      var u := Heard(s, m.term);
      && r == Reply(s.id, m.leader, u.term, if Awaits(u, m) then 1 else 0, m.requestId, Installing(m.term))
      && (!Awaits(u, m) ==> t == u)
      && (Awaits(u, m) && !m.done ==>
            t == u.(snapshotInProgress := true, installId := m.snapshotId, installIndex := m.index))
      && (Awaits(u, m) && m.done ==>
            && t == u.(start := m.snapshotId, log := [], replicated := [], commit := t.commit,
                       snapshotInProgress := false, installId := -1, installIndex := -1)
            && t.commit + 1 == t.start == t.LogCount())
  {
  }
}
