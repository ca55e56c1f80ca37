/**
  What one handler can do to the commit index: when it leaves the window of the
  log, and when it goes back, so that transactions are applied a second time.
  The cluster-wide statement, without compaction, is
  `StateMachineSafety.CommitInsideLog`.
*/
module CommitIndex {
  import opened RaftTypes
  import opened ServerSpec
  import opened Files
  import opened RaftServer

  /** Raft_commit_update finds every slot that it reads. */
  predicate Inside(s: Server) {
    s.start - 1 <= s.commit < s.LogCount()
  }

  /** The entry of the request replaces one of another term, and with it the rest of the log. */
  predicate Conflicts(s: Server, m: AppendRequest) {
    m.entry.Some? && s.InWindow(m.prevIndex + 1) && s.TermAt(m.prevIndex + 1) != m.entry.value.term
  }

  /**
    An accepted append keeps the commit index inside the window, whatever its
    start, exactly if a heartbeat commits no more than the log holds, and no
    conflict drops committed entries and leaves the commit index as it is.
  */
  lemma AppendKeepsInsideIff(s: Server, m: AppendRequest)
    requires s.Shaped() && Inside(s) && Consistent(s, m) && Storable(s, m)
    ensures Inside(HandleAppendRequest(s, m).0) <==>
      && (m.entry.None? ==> m.leaderCommit <= s.commit || m.leaderCommit < s.LogCount())
      && (Conflicts(s, m) && m.leaderCommit <= s.commit ==> s.commit <= m.prevIndex + 1)
  {
    var t := HandleAppendRequest(s, m).0;
    if m.entry.Some? {
      var k := m.prevIndex + 1 - s.start;
      assert |t.log| == if Conflicts(s, m) then k + 1 else if k == |s.log| then k + 1 else |s.log|;
    }
  }

  /** Every other handler keeps the commit index inside the window. */
  lemma OthersKeepInside(s: Server, r: Reply, stale: Entry, v: VoteRequest, e: Entry, newStart: nat, m: InstallRequest)
    requires s.Shaped() && Inside(s)
    ensures Inside(HandleReply(s, r, stale)) && Inside(HandleVoteRequest(s, v).0) && Inside(AppendEntry(s, e))
    ensures Inside(StartElection(s)) && Inside(Restore(s))
    ensures s.start < newStart <= s.commit + 1 ==> Inside(FinishSnapshot(s, newStart))
    ensures m.snapshotId >= 0 ==> Inside(HandleInstallRequest(s, m).0)
  {
    ReplyKeepsInside(s, r, stale);
  }

  lemma ReplyKeepsInside(s: Server, r: Reply, stale: Entry)
    requires s.Shaped() && Inside(s)
    ensures Inside(HandleReply(s, r, stale))
  {
    var t := HandleReply(s, r, stale);
    assert |t.log| >= |s.log| && t.start == s.start;
  }

  /**
    The commit index goes back exactly if a request for a position before it
    says that more than it is committed: a late copy of an append.
  */
  lemma CommitGoesBackIff(s: Server, m: AppendRequest)
    requires s.Shaped() && (Consistent(s, m) ==> Storable(s, m))
    ensures HandleAppendRequest(s, m).0.commit < s.commit
       <==> Consistent(s, m) && m.entry.Some? && m.leaderCommit > s.commit && m.prevIndex + 1 < s.commit
  {
  }

  /** One file, when the entries lo .. mid - 1 are applied a second time, and then those up to hi. */
  lemma AppliedTwice(base: Dir, files: Dir, log: seq<Entry>, lo: nat, mid: nat, hi: nat, name: string)
    requires lo <= mid <= hi <= |log| && Text(files, name) == Text(ReplayFrom(base, log, 0, mid), name)
    ensures Text(ReplayFrom(files, log, lo, hi), name) == Text(ReplayFrom(base, log, 0, hi), name)
       <==> AddedFrom(log, lo, mid, name) == ""
  {
    var (text, again, rest) := (Text(files, name), AddedFrom(log, lo, mid, name), AddedFrom(log, mid, hi, name));
    TextReplayFrom(files, log, lo, hi, name);
    AddedSplit(log, lo, mid, hi, name);
    ReplaySplit(base, log, 0, mid, hi);
    TextReplayFrom(ReplayFrom(base, log, 0, mid), log, mid, hi, name);
    TwiceIsOnce(text, again, rest);
  }

  lemma TwiceIsOnce(text: string, again: string, rest: string)
    ensures text + (again + rest) == text + rest <==> again == ""
  {
    assert |text + (again + rest)| == |text + rest| + |again|;
    assert "" + rest == rest;
  }

  /**
    m is a late copy of an append of the server's term: it stores nothing new, and
    makes the commit index go back.
  */
  predicate IsLateCopy(s: Server, m: AppendRequest) {
    && s.Shaped() && Inside(s) && s.term == m.term && Consistent(s, m) && Storable(s, m)
    && m.entry.Some? && s.InWindow(m.prevIndex + 1) && m.entry.value == s.EntryAt(m.prevIndex + 1)
    && m.leaderCommit > s.commit && m.prevIndex + 1 < s.commit
  }

  /** The first n entries are the same. */
  predicate SameFirst(a: seq<Entry>, b: seq<Entry>, n: int) {
    n <= |a| && n <= |b| && forall k :: 0 <= k < n ==> a[k] == b[k]
  }

  /**
    The late copy takes s to t, and any accepted append or heartbeat h takes t to
    u, where the commit index has come back or gone further; committed entries
    stay.
  */
  predicate BackAndForth(s: Server, m: AppendRequest, t: Server, h: AppendRequest, u: Server) {
    && IsLateCopy(s, m) && t == HandleAppendRequest(s, m).0
    && Consistent(t, h) && Storable(t, h) && u == HandleAppendRequest(t, h).0
    && Inside(u) && u.commit >= s.commit && SameFirst(s.log, u.log, s.commit + 1 - s.start)
  }

  lemma LateCopyGoesBack(s: Server, m: AppendRequest)
    requires IsLateCopy(s, m)
    ensures var t := HandleAppendRequest(s, m).0;
      t.log == s.log && t.start == s.start && t.commit == m.prevIndex + 1 && t.term == s.term
  {
    assert s.log[m.prevIndex + 1 - s.start := m.entry.value] == s.log;
  }

  lemma SamePrefix(base: Dir, a: seq<Entry>, b: seq<Entry>, lo: nat, k: nat, name: string)
    requires lo <= k <= |a| && k <= |b| && SameFirst(a, b, k)
    ensures ReplayFrom(base, a, 0, k) == ReplayFrom(base, b, 0, k)
    ensures AddedFrom(a, lo, k, name) == AddedFrom(b, lo, k, name)
  {
    assert a[..k] == b[..k];
    ReplayTake(base, a, k, 0, k);
    ReplayTake(base, b, k, 0, k);
    AddedTake(a, k, lo, k, name);
    AddedTake(b, k, lo, k, name);
  }

  /** The files read as the replay of the first n entries of the log on `base`. */
  ghost predicate Replayed(files: Dir, base: Dir, log: seq<Entry>, n: nat, names: set<string>)
    requires n <= |log|
  {
    forall name :: name in names ==> Text(files, name) == Text(ReplayFrom(base, log, 0, n), name)
  }

  ghost predicate WriteNothing(log: seq<Entry>, lo: nat, hi: nat, names: set<string>)
    requires hi <= |log|
  {
    forall name :: name in names ==> AddedFrom(log, lo, hi, name) == ""
  }

  /** All files, when a is the log that was replayed, and b the one that is applied. */
  lemma AllAppliedTwice(base: Dir, files: Dir, after: Dir, a: seq<Entry>, b: seq<Entry>, lo: nat, mid: nat, hi: nat,
                        names: set<string>)
    requires lo <= mid <= hi <= |b| && mid <= |a| && SameFirst(a, b, mid)
    requires Replayed(files, base, a, mid, names) && after == ReplayFrom(files, b, lo, hi)
    ensures Replayed(after, base, b, hi, names) <==> WriteNothing(a, lo, mid, names)
  {
    forall name | name in names
      ensures Text(after, name) == Text(ReplayFrom(base, b, 0, hi), name) <==> AddedFrom(a, lo, mid, name) == ""
    {
      SamePrefix(base, a, b, lo, mid, name);
      AppliedTwice(base, files, b, lo, mid, hi, name);
    }
  }

  /** From s to t the commit index goes back, from t to u it comes back or goes further; committed entries stay. */
  predicate CommitsTwice(s: Server, t: Server, u: Server) {
    && u.start == s.start <= t.commit < s.commit <= u.commit < u.LogCount() && s.commit < s.LogCount()
    && SameFirst(s.log, u.log, s.commit + 1 - s.start)
  }

  lemma LateCopyCommitsTwice(s: Server, m: AppendRequest, t: Server, h: AppendRequest, u: Server)
    requires BackAndForth(s, m, t, h, u)
    ensures CommitsTwice(s, t, u) && t.commit == m.prevIndex + 1
  {
    LateCopyGoesBack(s, m);
  }

  /** The files are those of the committed window, which has n entries. */
  ghost predicate FilesOf(files: Dir, base: Dir, s: Server, n: nat, names: set<string>) {
    n == s.commit + 1 - s.start && n <= |s.log| && Replayed(files, base, s.log, n, names)
  }

  /** The commit index of a server goes from s to t and to u, and takes the files along. */
  ghost predicate FilesAlong(s: Server, t: Server, u: Server, files: Dir, after: Dir) {
    after == Committed(Committed(files, t.start, t.log, s.commit, t.commit), u.start, u.log, t.commit, u.commit)
  }

  /** Going back applies nothing. */
  lemma OnlyForth(s: Server, t: Server, u: Server, files: Dir, after: Dir, lo: nat, hi: nat)
    requires t.commit < s.commit && FilesAlong(s, t, u, files, after) && u.start <= t.commit < u.commit < u.LogCount()
    requires lo == t.commit + 1 - u.start && hi == u.commit + 1 - u.start
    ensures after == ReplayFrom(files, u.log, lo, hi)
  {
  }

  /**
    A late copy m and any accepted append or heartbeat h take s to t and to u. If
    the files were those of the committed window of s, on `base`, they are that of
    u exactly if the entries after the one of m, up to the commit index of s,
    write nothing. In the windows, these are the entries from `lo` up to `mid`; the
    one of u has `hi` committed entries.
  */
  lemma LateCopyHarmlessIff(s: Server, m: AppendRequest, t: Server, h: AppendRequest, u: Server,
                            base: Dir, files: Dir, after: Dir, lo: nat, mid: nat, hi: nat, names: set<string>)
    requires BackAndForth(s, m, t, h, u) && FilesAlong(s, t, u, files, after) && FilesOf(files, base, s, mid, names)
    requires lo == m.prevIndex + 2 - s.start && hi == u.commit + 1 - u.start
    ensures lo < mid <= hi <= |u.log|
    ensures Replayed(after, base, u.log, hi, names) <==> WriteNothing(s.log, lo, mid, names)
  {
    LateCopyCommitsTwice(s, m, t, h, u);
    OnlyForth(s, t, u, files, after, lo, hi);
    AllAppliedTwice(base, files, after, s.log, u.log, lo, mid, hi, names);
  }
}
