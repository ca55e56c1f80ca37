/**
  The handlers of `ServerSpec` are steps of `Storage`: what a handler does to the
  log, the commit index and the main files is a sequence of the steps about which
  the theorems on files, compaction and crashes are proved.
*/
module HandlerSteps {
  import opened RaftTypes
  import opened ServerSpec
  import opened Files
  import opened RaftServer
  import opened CommitIndex
  import S = Storage

  /** What the server's state says about the log, with the history of what lies below its window. */
  predicate Holds(x: S.Node, s: Server) {
    x.mem.start == s.start && x.mem.log == s.log && x.mem.commit == s.commit
  }

  /** The steps lead from x to y. */
  predicate Leads(x: S.Node, steps: seq<S.Action>, y: S.Node)
    decreases |steps|
  {
    if steps == [] then y == x
    else S.Enabled(x, steps[0]) && S.Defined(x, steps[0]) && Leads(S.Step(x, steps[0]), steps[1..], y)
  }

  lemma LeadsOne(x: S.Node, a: S.Action)
    requires S.Enabled(x, a) && S.Defined(x, a)
    ensures Leads(x, [a], S.Step(x, a))
  {
    assert [a][1..] == [];
  }

  lemma LeadsTwo(x: S.Node, a: S.Action, b: S.Action)
    requires S.Enabled(x, a) && S.Defined(x, a)
    requires S.Enabled(S.Step(x, a), b) && S.Defined(S.Step(x, a), b)
    ensures Leads(x, [a, b], S.Step(S.Step(x, a), b))
  {
    LeadsOne(S.Step(x, a), b);
    assert [a, b][1..] == [b];
  }

  /** y is x with the log and commit index of t and the files that its commits make. */
  ghost predicate Follows(x: S.Node, y: S.Node, s: Server, t: Server) {
    Holds(y, t) && y.main == Committed(x.main, t.start, t.log, s.commit, t.commit)
  }

  /** The commit index goes up to n, or stays. */
  lemma CommitIsStep(x: S.Node, s: Server, t: Server, n: int) returns (steps: seq<S.Action>, y: S.Node)
    requires Holds(x, s) && Inside(s) && s.commit <= n < s.LogCount()
    requires t.start == s.start && t.log == s.log && t.commit == n
    ensures Leads(x, steps, y) && Follows(x, y, s, t)
  {
    if n == s.commit {
      steps, y := [], x;
    } else {
      steps, y := [S.Commit(n)], S.Step(x, S.Commit(n));
      LeadsOne(x, S.Commit(n));
    }
  }

  /** An entry is stored above the commit index, and then the commit index goes up to n, or stays. */
  lemma StoreIsStep(x: S.Node, s: Server, t: Server, k: nat, e: Entry, n: int)
    returns (steps: seq<S.Action>, y: S.Node)
    requires Holds(x, s) && Inside(s) && s.commit < k <= s.LogCount() && s.start <= k && s.commit <= n <= k
    requires t.start == s.start && t.log == s.log[..k - s.start] + [e] && t.commit == n
    ensures Leads(x, steps, y) && Follows(x, y, s, t)
  {
    var x1 := S.Step(x, S.Store(k, e));
    if n == s.commit {
      steps, y := [S.Store(k, e)], x1;
      LeadsOne(x, S.Store(k, e));
    } else {
      steps, y := [S.Store(k, e), S.Commit(n)], S.Step(x1, S.Commit(n));
      LeadsTwo(x, S.Store(k, e), S.Commit(n));
    }
  }

  /**
    What state-machine safety and log matching give for an append: it brings no
    other entry of a term that the server already holds, and conflicts only above
    the commit index; and it is not a late copy.
  */
  predicate InOrder(s: Server, m: AppendRequest) {
    && Consistent(s, m) && Storable(s, m)
    && (m.entry.None? ==> m.leaderCommit <= s.commit || m.leaderCommit < s.LogCount())
    && (m.entry.Some? && s.InWindow(m.prevIndex + 1) ==>
          m.entry.value == s.EntryAt(m.prevIndex + 1) || (Conflicts(s, m) && m.prevIndex + 1 > s.commit))
    && (m.entry.Some? && m.leaderCommit > s.commit ==> s.commit <= m.prevIndex + 1)
  }

  /** An append in order is a store, a commit, both or neither. */
  lemma AppendIsSteps(x: S.Node, s: Server, m: AppendRequest) returns (steps: seq<S.Action>, y: S.Node)
    requires s.Shaped() && Holds(x, s) && Inside(s) && InOrder(s, m)
    ensures Leads(x, steps, y) && Follows(x, y, s, HandleAppendRequest(s, m).0)
  {
    var t := HandleAppendRequest(s, m).0;
    if m.entry.None? {
      steps, y := CommitIsStep(x, s, t, t.commit);
    } else {
      var (k, e) := (m.prevIndex + 1, m.entry.value);
      if s.InWindow(k) && e == s.EntryAt(k) {
        assert s.log[k - s.start := e] == s.log;
        steps, y := CommitIsStep(x, s, t, t.commit);
      } else {
        steps, y := StoreIsStep(x, s, t, k, e, t.commit);
      }
    }
  }

  /** A reply stores the entry that opens a tenure, commits, or does neither. */
  lemma ReplyIsSteps(x: S.Node, s: Server, r: Reply, stale: Entry) returns (steps: seq<S.Action>, y: S.Node)
    requires s.Shaped() && Holds(x, s) && Inside(s)
    ensures Leads(x, steps, y) && Follows(x, y, s, HandleReply(s, r, stale))
  {
    var t := HandleReply(s, r, stale);
    if Wins(s, r) {
      assert s.log[..|s.log|] == s.log;
      steps, y := StoreIsStep(x, s, t, s.LogCount(), Opening(s.term, stale), s.commit);
    } else {
      steps, y := CommitIsStep(x, s, t, t.commit);
    }
  }

  /** A client append is a store. */
  lemma ClientIsStep(x: S.Node, s: Server, e: Entry) returns (steps: seq<S.Action>, y: S.Node)
    requires s.Shaped() && Holds(x, s) && Inside(s)
    ensures Leads(x, steps, y) && Follows(x, y, s, AppendEntry(s, e))
  {
    var t := AppendEntry(s, e);
    if CanAppend(s) {
      assert s.log[..|s.log|] == s.log;
      steps, y := StoreIsStep(x, s, t, s.LogCount(), e.(term := s.term, kind := ClientLog), s.commit);
    } else {
      steps, y := CommitIsStep(x, s, t, s.commit);
    }
  }

  /** The end of a compaction is the shift. */
  lemma SnapshotIsStep(x: S.Node, s: Server, newStart: nat)
    requires s.Shaped() && Holds(x, s) && s.start <= newStart <= s.LogCount()
    requires S.Enabled(x, S.Shift) && x.comp.newStart == newStart
    ensures S.Defined(x, S.Shift) && Leads(x, [S.Shift], S.Step(x, S.Shift))
    ensures Follows(x, S.Step(x, S.Shift), s, FinishSnapshot(s, newStart))
  {
    LeadsOne(x, S.Shift);
  }
}
