/**
  The handlers of one server as imperative code on its fields and arrays
  (raft.c, raft_candidate.c, raft_follower.c, raft_leader.c). Each method is
  proved to compute the function of the same name in `ServerSpec`, which is what
  the cluster is made of, and to do to the main files what the commits say.
*/
module RaftServer {
  import opened RaftTypes
  import opened ServerSpec
  import opened Files
  import Session
  import Verdict

  /** The main files when the entries after position `from` up to position `last` have been committed. */
  ghost function Committed(files: Dir, start: int, log: seq<Entry>, from: int, last: int): Dir {
    if start - 1 <= from < last < start + |log| then ReplayFrom(files, log, from + 1 - start, last + 1 - start) else files
  }

  lemma CommittedNext(files: Dir, start: int, log: seq<Entry>, from: int, k: int)
    requires start - 1 <= from < k < start + |log|
    ensures Committed(files, start, log, from, k)
         == AppendAll(Committed(files, start, log, from, k - 1), Writes(log[k - start]))
  {
  }

  /** The loop of Raft_create_snapshot that shifts n slots by d to the left, in place. */
  method ShiftLeft<T>(a: array<T>, d: nat, n: nat)
    requires d <= n <= a.Length
    modifies a
    ensures a[..n - d] == old(a[d..n])
  {
    var i := d;
    while i < n
      invariant d <= i <= n
      invariant a[..i - d] == old(a[d..i])
      invariant a[i..n] == old(a[i..n])
    {
      assert a[i] == a[i..n][0];
      a[i - d] := a[i];
      i := i + 1;
    }
  }

  class RaftState {
    const id: Id
    var term: int
    var votedFor: Option<Id>
    var role: Role

    // The slots of the log: position k is in slot k - startIndex. The counters
    // n_servers_replicated of the entries are kept in an array of their own.
    const entries: array<Entry>
    const counts: array<int>
    var startIndex: int
    var logCount: int
    var commitIndex: int

    var nvoted: int
    var nblocked: int

    // One number for each server, indexed by its id.
    var nextIndex: seq<int>
    var matchIndex: seq<int>
    var lastRequest: seq<int>
    var lastResponse: seq<int>

    var snapshotInProgress: bool
    var receivers: int
    var installId: int
    var installIndex: int

    /** The main files. */
    var files: Dir

    /** The window of the log, as the arrays hold it. */
    ghost predicate Holds(log: seq<Entry>, replicated: seq<int>)
      reads this`startIndex, this`logCount, entries, counts
    {
      && entries.Length == counts.Length
      && 0 <= startIndex <= logCount <= startIndex + entries.Length
      && log == entries[..logCount - startIndex] && replicated == counts[..logCount - startIndex]
    }

    /** The fields and arrays represent s, a server of the specification. */
    ghost predicate Is(s: Server)
      reads this, entries, counts
    {
      && Holds(s.log, s.replicated) && s.Shaped()
      && s.id == id && s.capacity == entries.Length
      && s.term == term && s.votedFor == votedFor && s.role == role
      && s.start == startIndex && s.commit == commitIndex
      && s.nvoted == nvoted && s.nblocked == nblocked
      && s.nextIndex == nextIndex && s.matchIndex == matchIndex
      && s.lastRequest == lastRequest && s.lastResponse == lastResponse
      && s.snapshotInProgress == snapshotInProgress && s.receivers == receivers
      && s.installId == installId && s.installIndex == installIndex
    }

    /**
      Raft_server_init; the slots of the log hold whatever memory held, and `junk`
      is what the directory of the main files holds.
    */
    constructor (id: Id, capacity: nat, memory: Entry, junk: Dir)
      ensures Is(Init(id, capacity)) && fresh(entries) && fresh(counts)
      ensures files == Clean(junk, Managed())
    {
      this.id := id;
      term, votedFor, role := 0, None, Follower;
      entries := new Entry[capacity](k => memory);
      counts := new int[capacity](k => 0);
      startIndex, logCount, commitIndex := 0, 0, -1;
      nvoted, nblocked := 0, 0;
      nextIndex := Filled(0);
      matchIndex := Filled(0);
      lastRequest := Filled(0);
      lastResponse := Filled(0);
      snapshotInProgress, receivers := false, 0;
      installId, installIndex := -1, -1;
      files := Clean(junk, Managed());
    }

    /** Raft_get_log_term. */
    method GetLogTerm(k: int, ghost s: Server) returns (t: int)
      requires Is(s)
      ensures t == s.TermAt(k)
    {
      if k < startIndex || k >= logCount {
        return -1;
      }
      return entries[k - startIndex].term;
    }

    // -------------------------------------------------------------------------
    // raft_candidate.c

    /** Raft_attempt_to_elect, up to the point where it waits; the request goes to all others. */
    method AttemptToElect(ghost s: Server) returns (m: VoteRequest)
      requires Is(s)
      modifies this`term, this`votedFor, this`role, this`nvoted, this`nblocked
      ensures Is(StartElection(s))
      ensures m == VoteRequestOf(StartElection(s))
    {
      var lastTerm := GetLogTerm(logCount - 1, s);
      term := term + 1;
      votedFor := Some(id);
      role := Candidate;
      nvoted, nblocked := 1, 0;
      m := VoteRequest(term, id, logCount - 1, lastTerm);
    }

    method OnVoteRequest(m: VoteRequest, ghost s: Server) returns (reply: Reply)
      requires Is(s)
      modifies this`term, this`nvoted, this`nblocked, this`votedFor, this`role, this`installId, this`installIndex
      ensures Is(HandleVoteRequest(s, m).0) && reply == HandleVoteRequest(s, m).1
    {
      ghost var s1 := s;
      if term < m.term {
        BecomeFollower(m.term, s);
        s1 := ConvertToFollower(s, m.term);
      }
      var success := Vote(m, s1);
      reply := Reply(id, m.candidate, term, success, -1, Ballot);
    }

    /** The part of Raft_handle_vote_request that decides and votes. */
    method Vote(m: VoteRequest, ghost s: Server) returns (success: int)
      requires Is(s) && m.term <= term
      modifies this`votedFor
      ensures Is(HandleVoteRequest(s, m).0) && success == HandleVoteRequest(s, m).1.success
    {
      success := 0;
      if term == m.term && votedFor.None? {
        var lastTerm := GetLogTerm(logCount - 1, s);
        var lastIndex := logCount - 1;
        if m.lastTerm > lastTerm {
          success := 1;
          votedFor := Some(m.candidate);
        } else if m.lastTerm == lastTerm && m.lastIndex >= lastIndex {
          success := 1;
          votedFor := Some(m.candidate);
        } else {
          success := -1;
        }
      }
    }

    // -------------------------------------------------------------------------
    // raft_follower.c

    /** Raft_convert_to_follower. */
    method BecomeFollower(newTerm: int, ghost s: Server)
      requires Is(s)
      modifies this`term, this`nvoted, this`nblocked, this`votedFor, this`role, this`installId, this`installIndex
      ensures Is(ConvertToFollower(s, newTerm))
    {
      term := newTerm;
      nvoted, nblocked := 0, 0;
      votedFor := None;
      role := Follower;
      AbandonInstall(s.(term := newTerm, nvoted := 0, nblocked := 0, votedFor := None, role := Follower));
    }

    /** The end of Raft_convert_to_follower: an unfinished stream is dropped. */
    method AbandonInstall(ghost s: Server)
      requires Is(s)
      modifies this`installId, this`installIndex
      ensures Is(s.(installId := -1, installIndex := if s.installId != -1 then -1 else s.installIndex))
    {
      if installId != -1 {
        installId := -1;
        installIndex := -1;
      }
    }

    /** Raft_commit_update; it also lowers the commit index, if told to. */
    method CommitUpdate(newCommit: int, ghost s: Server)
      requires Is(s) && s.start <= s.commit + 1 && newCommit < s.LogCount()
      modifies this`commitIndex, this`files
      ensures Is(s.(commit := newCommit))
      ensures files == Committed(old(files), s.start, s.log, s.commit, newCommit)
    {
      files := CommitEntries(newCommit, s);
      commitIndex := newCommit;
    }

    /** The loop of Raft_commit_update. */
    method CommitEntries(newCommit: int, ghost s: Server) returns (written: Dir)
      requires Is(s) && s.start <= s.commit + 1 && newCommit < s.LogCount()
      ensures written == Committed(files, s.start, s.log, s.commit, newCommit)
    {
      written := files;
      var i := commitIndex + 1;
      assert Committed(files, s.start, s.log, s.commit, s.commit) == files;
      while i <= newCommit
        invariant s.commit < i && (i <= newCommit + 1 || i == s.commit + 1)
        invariant written == Committed(files, s.start, s.log, s.commit, i - 1)
        decreases newCommit - i
      {
        assert s.InWindow(i);
        CommittedNext(files, s.start, s.log, s.commit, i);
        written := CommitEntry(written, i, s);
        i := i + 1;
      }
    }

    /** One round of the loop of Raft_commit_update. */
    method CommitEntry(d: Dir, k: int, ghost s: Server) returns (r: Dir)
      requires Is(s) && s.InWindow(k)
      ensures r == AppendAll(d, Writes(s.log[k - s.start]))
    {
      r := d;
      if entries[k - startIndex].kind.ClientLog? {
        r := Session.CommitTransaction(d, entries[k - startIndex].data);
      }
    }

    /** The rewriting of the log at the position after the one that was checked. */
    method StoreEntry(index: int, e: Entry, count: int, ghost s: Server)
      requires Is(s) && s.start <= index <= s.LogCount() && index < s.start + s.capacity
      modifies this`logCount, entries, counts
      ensures Holds(Put(s.log, index - s.start, e), PutCount(s.log, s.replicated, index - s.start, e, count))
    {
      var termHere := GetLogTerm(index, s);
      if index < logCount && termHere != e.term {
        logCount := index + 1;
      } else if logCount == index {
        logCount := logCount + 1;
      }
      entries[index - startIndex] := e;
      counts[index - startIndex] := count;
    }

    /** The request is consistent and carries no entry. */
    method AcceptHeartbeat(m: AppendRequest, ghost s: Server)
      requires Is(s) && m.prevIndex < s.LogCount() && m.entry.None? && s.start <= s.commit + 1
      requires m.leaderCommit > s.commit ==> m.leaderCommit < s.LogCount()
      modifies this`role, this`commitIndex, this`files
      ensures Is(Accept(s, m)) && files == Committed(old(files), s.start, s.log, s.commit, Accept(s, m).commit)
    {
      role := Follower;
      if m.leaderCommit > commitIndex {
        CommitUpdate(m.leaderCommit, s.(role := Follower));
      }
    }

    /** The request is consistent and carries an entry. */
    method AcceptEntry(m: AppendRequest, ghost s: Server)
      requires Is(s) && m.prevIndex < s.LogCount() && m.entry.Some? && Storable(s, m) && s.start <= s.commit + 1
      modifies this`role, this`logCount, this`commitIndex, this`files, entries, counts
      ensures var t := Accept(s, m); Is(t) && files == Committed(old(files), t.start, t.log, s.commit, t.commit)
    {
      var index := m.prevIndex + 1;
      ghost var s1 := Accept(s, m).(commit := s.commit);
      StoreEntry(index, m.entry.value, m.replicated, s);
      role := Follower;
      if m.leaderCommit > commitIndex {
        CommitUpdate(if m.leaderCommit > index then index else m.leaderCommit, s1);
      }
    }

    method OnAppendRequest(m: AppendRequest, ghost s: Server) returns (reply: Reply)
      requires Is(s) && s.start <= s.commit + 1
      requires Consistent(s, m) ==> Storable(s, m)
      requires Consistent(s, m) && m.entry.None? && m.leaderCommit > s.commit ==> m.leaderCommit < s.LogCount()
      modifies this, entries, counts
      ensures var (t, answer) := HandleAppendRequest(s, m);
        Is(t) && reply == answer && files == Committed(old(files), t.start, t.log, s.commit, t.commit)
    {
      ghost var s1 := s;
      if term < m.term {
        BecomeFollower(m.term, s);
        s1 := ConvertToFollower(s, m.term);
      }
      var prevTerm := GetLogTerm(m.prevIndex, s1);
      if term > m.term || m.prevIndex >= logCount || prevTerm != m.prevTerm {
        return Reply(id, m.leader, term, 0, m.requestId, Appending(m.term, m.prevIndex, m.entry.Some?));
      }
      reply := Reply(id, m.leader, term, 1, m.requestId, Appending(m.term, m.prevIndex, m.entry.Some?));
      if m.entry.None? {
        AcceptHeartbeat(m, s1);
      } else {
        AcceptEntry(m, s1);
      }
    }

    // -------------------------------------------------------------------------
    // raft_leader.c

    /** Raft_send_append_entry_request. */
    method AppendRequestFor(f: Id, ghost s: Server) returns (m: AppendRequest)
      requires Is(s) && s.start <= s.nextIndex[f] <= s.LogCount()
      ensures m == AppendRequestTo(s, f)
    {
      var next := nextIndex[f];
      var prevTerm := GetLogTerm(next - 1, s);
      if next == logCount {
        return AppendRequest(term, id, f, next - 1, prevTerm, None, 0, commitIndex, lastRequest[f]);
      }
      return AppendRequest(term, id, f, next - 1, prevTerm, Some(entries[next - startIndex]), counts[next - startIndex],
                           commitIndex, lastRequest[f]);
    }

    /** The artificial entry of Raft_convert_to_leader, in whatever slot comes next. */
    method OpenTenure(ghost s: Server)
      requires Is(s) && s.HasRoom()
      modifies this`logCount, entries, counts
      ensures Holds(s.log + [Opening(s.term, old(entries[logCount - startIndex]))], s.replicated + [1])
    {
      logCount := logCount + 1;
      var k := logCount - 1 - startIndex;
      entries[k] := entries[k].(term := term, kind := LeaderLog);
      counts[k] := 1;
    }

    /** The loop of Raft_convert_to_leader over the servers. */
    method ResetPeers()
      requires |nextIndex| == |matchIndex| == |lastRequest| == |lastResponse| == N_SERVERS
      modifies this`nextIndex, this`matchIndex, this`lastRequest, this`lastResponse
      ensures nextIndex == Filled(logCount) && matchIndex == Filled(0)
      ensures lastRequest == Filled(0) && lastResponse == Filled(-1)
    {
      var next, match_, request, response := nextIndex, matchIndex, lastRequest, lastResponse;
      for i := 0 to N_SERVERS
        invariant |next| == |match_| == |request| == |response| == N_SERVERS
        invariant forall j :: 0 <= j < i ==> next[j] == logCount && match_[j] == 0 && request[j] == 0 && response[j] == -1
      {
        next, match_ := next[i := logCount], match_[i := 0];
        request, response := request[i := 0], response[i := -1];
      }
      nextIndex, matchIndex, lastRequest, lastResponse := next, match_, request, response;
    }

    /** Raft_convert_to_leader, up to the start of the sender threads. */
    method BecomeLeader(ghost s: Server)
      requires Is(s) && s.HasRoom()
      modifies this, entries, counts
      ensures Is(ConvertToLeader(s, old(entries[logCount - startIndex]))) && files == old(files)
    {
      OpenTenure(s);
      receivers := 0;
      ResetPeers();
      role := Leader;
    }

    /** Raft_handle_append_response. */
    method OnAppendReply(f: Id, success: int, ghost s: Server)
      requires Is(s) && s.start <= s.nextIndex[f] && s.start <= s.commit + 1
      modifies this`nextIndex, this`matchIndex, this`lastRequest, this`commitIndex, this`files, counts
      ensures Is(HandleAppendReply(s, f, success))
      ensures files == Committed(old(files), s.start, s.log, s.commit, HandleAppendReply(s, f, success).commit)
    {
      var next := nextIndex[f];
      ghost var s1 := s;
      if success != 0 && next < logCount {
        Acknowledge(f, s);
        s1 := Acknowledged(s, f);
      }
      MoveOn(f, success, s1);
      ReplyInTwoParts(s, f, success);
    }

    lemma ReplyInTwoParts(s: Server, f: Id, success: int)
      requires s.Shaped() && s.start <= s.nextIndex[f]
      ensures HandleAppendReply(s, f, success)
           == Moved(if success != 0 && s.nextIndex[f] < s.LogCount() then Acknowledged(s, f) else s, f, success)
    {
    }

    /** The request numbers and positions that follow a reply. */
    method MoveOn(f: Id, success: int, ghost s: Server)
      requires Is(s)
      modifies this`nextIndex, this`matchIndex, this`lastRequest
      ensures Is(Moved(s, f, success))
    {
      var next := nextIndex[f];
      if success == 0 {
        nextIndex := nextIndex[f := next - 1];
      } else if next < logCount {
        matchIndex := matchIndex[f := next];
        nextIndex := nextIndex[f := next + 1];
      }
      lastRequest := lastRequest[f := lastRequest[f] + 1];
    }

    ghost function Moved(s: Server, f: Id, success: int): Server
      requires s.Shaped()
    {
      var next := s.nextIndex[f];
      var s1 :=
        if success == 0 then s.(nextIndex := s.nextIndex[f := next - 1])
        else if next < s.LogCount() then s.(matchIndex := s.matchIndex[f := next], nextIndex := s.nextIndex[f := next + 1])
        else s;
      s1.(lastRequest := s.lastRequest[f := s.lastRequest[f] + 1])
    }

    /** What an acknowledgement does to the counter. */
    ghost function Counted(s: Server, f: Id): (t: Server)
      requires s.Shaped() && s.start <= s.nextIndex[f] < s.LogCount()
      ensures t.Shaped()
    {
      var k := s.nextIndex[f] - s.start;
      if Counts(s, f) then s.(replicated := s.replicated[k := s.replicated[k] + 1]) else s
    }

    /** What an acknowledgement does to the counter and the commit index. */
    ghost function Acknowledged(s: Server, f: Id): (t: Server)
      requires s.Shaped() && s.start <= s.nextIndex[f] < s.LogCount()
      ensures t.Shaped()
    {
      var s1 := Counted(s, f);
      if Counts(s, f) && IsMajority(s1.replicated[s.nextIndex[f] - s.start]) then s1.(commit := s.nextIndex[f]) else s1
    }

    method Count(f: Id, ghost s: Server) returns (majority: bool)
      requires Is(s) && s.start <= s.nextIndex[f] < s.LogCount()
      modifies counts
      ensures Is(Counted(s, f))
      ensures majority <==> Counts(s, f) && IsMajority(Counted(s, f).replicated[s.nextIndex[f] - s.start])
    {
      var k := nextIndex[f] - startIndex;
      majority := false;
      if nextIndex[f] > commitIndex && entries[k].term == term {
        counts[k] := counts[k] + 1;
        majority := counts[k] * 2 > N_SERVERS;
      }
    }

    /** The count of an acknowledged entry of the current term, and the commit that may follow. */
    method Acknowledge(f: Id, ghost s: Server)
      requires Is(s) && s.start <= s.nextIndex[f] < s.LogCount() && s.start <= s.commit + 1
      modifies this`commitIndex, this`files, counts
      ensures Is(Acknowledged(s, f))
      ensures files == Committed(old(files), s.start, s.log, s.commit, Acknowledged(s, f).commit)
    {
      var majority := Count(f, s);
      if majority {
        CommitUpdate(nextIndex[f], Counted(s, f));
      }
    }

    // -------------------------------------------------------------------------
    // raft.c

    /** Raft_handle_vote_response; `won` is its return value. */
    method OnVoteReply(success: int, ghost s: Server, ghost stale: Entry) returns (won: bool)
      requires Is(s)
      requires success > 0 && IsMajority(s.nvoted + 1) ==>
        s.HasRoom() && stale == entries[logCount - startIndex]
      modifies this, entries, counts
      ensures won <==> success > 0 && IsMajority(s.nvoted + 1)
      ensures Is(if won then ConvertToLeader(CountVote(s, success), stale) else CountVote(s, success))
      ensures files == old(files)
    {
      if success <= 0 {
        if success == -1 {
          nblocked := nblocked + 1;
        }
        return false;
      }
      nvoted := nvoted + 1;
      if nvoted * 2 > N_SERVERS {
        BecomeLeader(CountVote(s, success));
        return true;
      }
      return false;
    }

    /** A reply of the current term. */
    method OnCurrentReply(r: Reply, ghost s: Server, ghost stale: Entry)
      requires Is(s) && s.term == r.term && s.start <= s.commit + 1
      requires Wins(s, r) ==> s.HasRoom() && stale == entries[logCount - startIndex]
      modifies this, entries, counts
      ensures Is(HandleReply(s, r, stale))
      ensures files == Committed(old(files), s.start, s.log, s.commit, HandleReply(s, r, stale).commit)
    {
      lastResponse := lastResponse[r.from := r.success];
      ghost var s1 := s.(lastResponse := s.lastResponse[r.from := r.success]);
      if role.Candidate? {
        var won := OnVoteReply(r.success, s1, stale);
      } else if role.Leader? && r.requestId == lastRequest[r.from] {
        if nextIndex[r.from] < startIndex {
          lastRequest := lastRequest[r.from := lastRequest[r.from] + 1];
        } else {
          OnAppendReply(r.from, r.success, s1);
        }
      }
    }

    /** Raft_handle_response; `stale` is what the slot after the log holds. */
    method OnReply(r: Reply, ghost s: Server, ghost stale: Entry)
      requires Is(s) && s.start <= s.commit + 1
      requires Wins(s, r) ==> s.HasRoom() && stale == entries[logCount - startIndex]
      modifies this, entries, counts
      ensures Is(HandleReply(s, r, stale))
      ensures files == Committed(old(files), s.start, s.log, s.commit, HandleReply(s, r, stale).commit)
    {
      if term > r.term {
        return;
      }
      if term < r.term {
        BecomeFollower(r.term, s);
        return;
      }
      OnCurrentReply(r, s, stale);
    }

    /** Raft_append_entry: it returns 0 if the entry was appended, and -1 otherwise. */
    method Append(e: Entry, ghost s: Server) returns (rc: int)
      requires Is(s)
      modifies this`logCount, entries, counts
      ensures Is(AppendEntry(s, e)) && rc == (if CanAppend(s) then 0 else -1)
    {
      if role != Leader || logCount == startIndex + entries.Length {
        return -1;
      }
      logCount := logCount + 1;
      entries[logCount - 1 - startIndex] := e.(term := term, kind := ClientLog);
      counts[logCount - 1 - startIndex] := 1;
      return 0;
    }

    /** Raft_is_entry_committed. */
    method IsEntryCommitted(entryTerm: int, entryId: int, ghost s: Server) returns (rc: int)
      requires Is(s)
      ensures rc == Verdict.VerdictOf(s, entryTerm, entryId)
    {
      var i := startIndex;
      while i < logCount
        invariant startIndex <= i <= logCount
        invariant Verdict.VerdictOf(s, entryTerm, entryId)
               == Verdict.Scan(s.log, s.commit - s.start + 1, entryTerm, entryId, i - startIndex)
        decreases logCount - i
      {
        var e := entries[i - startIndex];
        assert e == s.log[i - startIndex];
        if e.term == entryTerm && e.id == entryId {
          return if commitIndex >= i then 1 else 0;
        } else if e.term > entryTerm {
          return if commitIndex >= i then -1 else 0;
        }
        i := i + 1;
      }
      return 0;
    }

    /** The first locked part of Raft_create_snapshot. */
    method BeginSnapshot(newStart: int, ghost s: Server) returns (ok: bool)
      requires Is(s)
      modifies this`snapshotInProgress
      ensures ok <==> !s.snapshotInProgress && s.receivers <= 0 && s.start < newStart <= s.commit + 1
      ensures Is(if ok then s.(snapshotInProgress := true) else s)
    {
      if snapshotInProgress || receivers > 0 || newStart <= startIndex || newStart > commitIndex + 1 {
        return false;
      }
      snapshotInProgress := true;
      return true;
    }

    /** The window moves to the left, entries and counters alike. */
    method Shift(newStart: int, ghost s: Server)
      requires Is(s) && s.start <= newStart <= s.LogCount()
      modifies entries, counts
      ensures entries[..logCount - newStart] == s.log[newStart - s.start..]
      ensures counts[..logCount - newStart] == s.replicated[newStart - s.start..]
    {
      ShiftLeft(entries, newStart - startIndex, logCount - startIndex);
      ShiftLeft(counts, newStart - startIndex, logCount - startIndex);
    }

    /** The second locked part of Raft_create_snapshot. */
    method EndSnapshot(newStart: nat, ghost s: Server)
      requires Is(s) && s.start <= newStart <= s.LogCount()
      modifies this`snapshotInProgress, this`startIndex, entries, counts
      ensures Is(FinishSnapshot(s, newStart))
    {
      snapshotInProgress := false;
      Shift(newStart, s.(snapshotInProgress := false));
      startIndex := newStart;
    }

    /** The fields that an accepted `done` of Raft_handle_install_snapshot_request sets. */
    method Adopt(m: InstallRequest, ghost s: Server)
      requires Is(s) && m.snapshotId >= 0 && m.done && s.term == m.term && InstallAccepted(s, m)
      modifies this`snapshotInProgress, this`startIndex, this`logCount, this`commitIndex, this`installIndex, this`installId
      ensures Is(HandleInstallRequest(s, m).0)
    {
      MoveWindow(m.snapshotId, s);
      snapshotInProgress := false;
      installIndex, installId := -1, -1;
    }

    /** The window is empty and begins at the snapshot. */
    method MoveWindow(newStart: nat, ghost s: Server)
      requires Is(s)
      modifies this`startIndex, this`logCount, this`commitIndex
      ensures Is(s.(start := newStart, log := [], replicated := [], commit := newStart - 1))
    {
      startIndex := newStart;
      logCount := startIndex;
      commitIndex := startIndex - 1;
      assert Holds([], []);
    }

    /** Raft_handle_install_snapshot_request, without its effects on snapshot directories (see `Install`). */
    method OnInstallRequest(m: InstallRequest, ghost s: Server) returns (reply: Reply)
      requires Is(s) && m.snapshotId >= 0
      modifies this
      ensures Is(HandleInstallRequest(s, m).0) && reply == HandleInstallRequest(s, m).1 && files == old(files)
    {
      ghost var s1 := s;
      if term < m.term {
        BecomeFollower(m.term, s);
        s1 := ConvertToFollower(s, m.term);
      }
      if term > m.term || (installId != -1 && installId != m.snapshotId) || installIndex + 1 != m.index {
        return Reply(id, m.leader, term, 0, m.requestId, Installing(m.term));
      }
      reply := Reply(id, m.leader, term, 1, m.requestId, Installing(m.term));
      if m.done {
        Adopt(m, s1);
      } else {
        Stage(m, s1);
      }
    }

    /** The fields that an accepted chunk sets. */
    method Stage(m: InstallRequest, ghost s: Server)
      requires Is(s) && m.snapshotId >= 0 && !m.done && s.term == m.term && InstallAccepted(s, m)
      modifies this`snapshotInProgress, this`installIndex, this`installId
      ensures Is(HandleInstallRequest(s, m).0)
    {
      snapshotInProgress := true;
      installId := m.snapshotId;
      installIndex := installIndex + 1;
    }

    /**
      Raft_server_restore on a loaded image; `base` is what cleaning the main files
      and copying the snapshot over them has made.
    */
    method Recover(base: Dir, ghost s: Server)
      requires Is(s) && s.start <= s.commit + 1 <= s.LogCount()
      modifies this
      ensures Is(Restore(s))
      ensures files == Committed(base, s.start, s.log, s.start - 1, s.commit)
    {
      var savedCommit := commitIndex;
      ResetVolatile(s);
      files := base;
      CommitUpdate(savedCommit, Restore(s).(commit := s.start - 1));
    }

    /** The volatile state, which a restart begins anew. */
    method ResetVolatile(ghost s: Server)
      requires Is(s)
      modifies this`role, this`snapshotInProgress, this`receivers, this`commitIndex, this`nvoted, this`nblocked
      modifies this`installId, this`installIndex
      ensures Is(Restore(s).(commit := s.start - 1))
    {
      role := Follower;
      snapshotInProgress, receivers := false, 0;
      ResetCounters(s.(role := Follower, snapshotInProgress := false, receivers := 0));
    }

    method ResetCounters(ghost s: Server)
      requires Is(s)
      modifies this`commitIndex, this`nvoted, this`nblocked, this`installId, this`installIndex
      ensures Is(s.(commit := s.start - 1, nvoted := 0, nblocked := 0, installId := -1, installIndex := -1))
    {
      commitIndex := startIndex - 1;
      nvoted, nblocked := 0, 0;
      installId, installIndex := -1, -1;
    }
  }

  /** The fields and arrays represent exactly one server. */
  lemma RepresentsOne(r: RaftState, s: Server, t: Server)
    requires r.Is(s) && r.Is(t)
    ensures s == t
  {
  }
}
