/**
  The main files of every server over a run of the cluster without compaction or
  install: exactly when they are the replay of what the server has committed, and
  how often each entry has been applied.
*/
module RunFiles {
  import opened RaftTypes
  import opened ServerSpec
  import opened Cluster
  import opened Files
  import opened RaftServer
  import opened CommitIndex
  import opened TermLogs
  import opened StateMachineSafety
  import Elections
  import Finality

  /** Server i comes back from its disk. */
  predicate Restarts(a: Action, i: Id) {
    a == Restart(i) || (a.CrashInVote? && a.i == i)
  }

  /**
    What a step that takes server i from s to s' does to its main files: a restart
    cleans the managed ones and replays the committed window on what is there
    (`RaftServer.RaftState.Recover`; a run without compaction has no snapshot to
    copy), and every handler applies the entries that it commits
    (`RaftServer.RaftState.CommitUpdate`).
  */
  ghost function FilesAfter(d: Dir, a: Action, i: Id, s: Server, s': Server): Dir {
    if Restarts(a, i) then Committed(Clean(d, Managed()), s'.start, s'.log, s'.start - 1, s'.commit)
    else Committed(d, s'.start, s'.log, s.commit, s'.commit)
  }

  /** Server i over a run. */
  function Trace(states: seq<Cluster>, i: Id): (ss: seq<Server>)
    requires forall n :: 0 <= n < |states| ==> states[n].Shaped()
    ensures |ss| == |states|
    ensures forall n :: 0 <= n < |states| ==> states[n].Shaped() && ss[n] == states[n].servers[i]
  {
    seq(|states|, n requires 0 <= n < |states| && states[n].Shaped() => states[n].servers[i])
  }

  ghost predicate FileStep(ds: seq<Dir>, ss: seq<Server>, actions: seq<Action>, i: Id, n: nat) {
    n + 1 < |ds| && n + 1 < |ss| && n < |actions| && ds[n + 1] == FilesAfter(ds[n], actions[n], i, ss[n], ss[n + 1])
  }

  /**
    ds are the main files of server i at the moments of its trace ss; at the start
    it cleans the managed files of a directory that holds `junk`.
  */
  ghost predicate FilesAre(junk: Dir, ds: seq<Dir>, ss: seq<Server>, actions: seq<Action>, i: Id) {
    && |ds| == |ss| == |actions| + 1 && ds[0] == Clean(junk, Managed())
    && (forall n: nat {:trigger FileStep(ds, ss, actions, i, n)} :: n < |actions| ==> FileStep(ds, ss, actions, i, n))
  }

  /** Every run has such files, and only one sequence of them. */
  lemma {:induction false} FilesExist(junk: Dir, ss: seq<Server>, actions: seq<Action>, i: Id) returns (ds: seq<Dir>)
    requires |ss| == |actions| + 1
    ensures FilesAre(junk, ds, ss, actions, i)
    decreases |actions|
  {
    if actions == [] {
      ds := [Clean(junk, Managed())];
    } else {
      var n := |actions| - 1;
      var es := FilesExist(junk, ss[..n + 1], actions[..n], i);
      ds := es + [FilesAfter(es[n], actions[n], i, ss[n], ss[n + 1])];
      forall k: nat | k < |actions|
        ensures FileStep(ds, ss, actions, i, k)
      {
        assert k < n ==> FileStep(es, ss[..n + 1], actions[..n], i, k);
      }
    }
  }

  lemma {:induction false} FilesUnique(junk: Dir, ds: seq<Dir>, es: seq<Dir>, ss: seq<Server>, actions: seq<Action>, i: Id, n: nat)
    requires FilesAre(junk, ds, ss, actions, i) && FilesAre(junk, es, ss, actions, i) && n < |ss|
    ensures ds[n] == es[n]
  {
    if n > 0 {
      FilesUnique(junk, ds, es, ss, actions, i, n - 1);
      assert FileStep(ds, ss, actions, i, n - 1) && FileStep(es, ss, actions, i, n - 1);
    }
  }

  /** The files of these names read as the replay, in order and once each, of what s has committed. */
  ghost predicate Right(s: Server, d: Dir, names: iset<string>) {
    && -1 <= s.commit < |s.log|
    && (forall name :: name in names ==> Text(d, name) == Text(ReplayFirst(s.log, s.commit + 1), name))
  }

  /** The request makes the commit index go back: see CommitIndex.CommitGoesBackIff. */
  predicate LateCopy(s: Server, m: AppendRequest) {
    Consistent(s, m) && m.entry.Some? && m.leaderCommit > s.commit && m.prevIndex + 1 < s.commit
  }

  /** An entry between the positions writes to one of these files. */
  ghost predicate WritesBetween(log: seq<Entry>, lo: nat, hi: nat, names: iset<string>)
    requires hi <= |log|
  {
    exists name :: name in names && AddedFrom(log, lo, hi, name) != ""
  }

  /** The names, other than the managed ones, that a restart does not clean. */
  ghost function Unmanaged(names: iset<string>): iset<string> {
    iset name | name in names && name !in Managed()
  }

  /**
    The step is an append for a position that s has committed past, which says
    that more is committed, and an entry in between writes; or it is a restart of
    a server that has committed a write to a file that a restart does not clean.
  */
  ghost predicate Spoils(s: Server, a: Action, i: Id, names: iset<string>) {
    || (&& a.DeliverAppend? && a.append.follower == i && LateCopy(s, a.append)
        && 0 <= a.append.prevIndex + 2 <= s.commit + 1 <= |s.log|
        && WritesBetween(s.log, a.append.prevIndex + 2, s.commit + 1, names))
    || (Restarts(a, i) && 0 <= s.commit + 1 <= |s.log| && WritesBetween(s.log, 0, s.commit + 1, Unmanaged(names)))
  }

  // ---------------------------------------------------------------------------
  // One step

  /** What is known of a step of server i in such a run. */
  ghost predicate SafeStep(s: Server, s': Server) {
    && s.start == s'.start == 0 && -1 <= s.commit < |s.log| && -1 <= s'.commit < |s'.log|
    && s.log[..Min(s.commit, s'.commit) + 1] == s'.log[..Min(s.commit, s'.commit) + 1]
  }

  lemma SamePrefixReplays(a: seq<Entry>, b: seq<Entry>, n: nat)
    requires n <= |a| && n <= |b| && a[..n] == b[..n]
    ensures ReplayFirst(a, n) == ReplayFirst(b, n)
  {
    ReplayTake(map[], a, n, 0, n);
    ReplayTake(map[], b, n, 0, n);
  }

  lemma SafePrefixReplays(s: Server, s': Server)
    requires SafeStep(s, s')
    ensures var n := Min(s.commit, s'.commit) + 1; ReplayFirst(s.log, n) == ReplayFirst(s'.log, n)
  {
    SamePrefixReplays(s.log, s'.log, Min(s.commit, s'.commit) + 1);
  }

  lemma AddsNothing(x: string, y: string)
    ensures (x + y == x <==> y == "") && (x + y == y <==> x == "")
  {
    assert |x + y| == |x| + |y|;
  }

  /** The replay up to hi, when a file has been replayed up to lo. */
  lemma FurtherReplay(log: seq<Entry>, lo: nat, hi: nat, name: string)
    requires lo <= hi <= |log|
    ensures Text(ReplayFirst(log, hi), name) == Text(ReplayFirst(log, lo), name) + AddedFrom(log, lo, hi, name)
  {
    ReplaySplit(map[], log, 0, lo, hi);
    TextReplayFrom(ReplayFirst(log, lo), log, lo, hi, name);
  }

  lemma FurtherText(d: Dir, log: seq<Entry>, lo: nat, hi: nat, name: string)
    requires lo <= hi <= |log| && Text(d, name) == Text(ReplayFirst(log, lo), name)
    ensures Text(ReplayFrom(d, log, lo, hi), name) == Text(ReplayFirst(log, hi), name)
  {
    TextReplayFrom(d, log, lo, hi, name);
    FurtherReplay(log, lo, hi, name);
  }

  /** The commit index goes up, or stays. */
  lemma UpKeepsRight(s: Server, s': Server, d: Dir, d': Dir, names: iset<string>)
    requires SafeStep(s, s') && s.commit <= s'.commit && Right(s, d, names)
    requires d' == ReplayFrom(d, s'.log, s.commit + 1, s'.commit + 1)
    ensures Right(s', d', names)
  {
    SafePrefixReplays(s, s');
    forall name | name in names
      ensures Text(d', name) == Text(ReplayFirst(s'.log, s'.commit + 1), name)
    {
      FurtherText(d, s'.log, s.commit + 1, s'.commit + 1, name);
    }
  }

  lemma BackText(d: Dir, log: seq<Entry>, lo: nat, hi: nat, name: string)
    requires lo <= hi <= |log| && Text(d, name) == Text(ReplayFirst(log, hi), name)
    ensures Text(d, name) == Text(ReplayFirst(log, lo), name) <==> AddedFrom(log, lo, hi, name) == ""
  {
    FurtherReplay(log, lo, hi, name);
    AddsNothing(Text(ReplayFirst(log, lo), name), AddedFrom(log, lo, hi, name));
  }

  /** The commit index goes back, and the files stay as they are. */
  lemma BackKeepsRightIff(s: Server, s': Server, d: Dir, names: iset<string>)
    requires SafeStep(s, s') && s'.commit < s.commit && Right(s, d, names)
    ensures Right(s', d, names) <==> !WritesBetween(s.log, s'.commit + 1, s.commit + 1, names)
  {
    var (lo, hi, first) := (s'.commit + 1, s.commit + 1, ReplayFirst(s'.log, s'.commit + 1));
    SafePrefixReplays(s, s');
    forall name | name in names
      ensures Text(d, name) == Text(first, name) <==> AddedFrom(s.log, lo, hi, name) == ""
    {
      BackText(d, s.log, lo, hi, name);
    }
  }

  /** One file over a restart that replays the first n entries of `after`, as those of `log`. */
  lemma RestartText(d: Dir, log: seq<Entry>, after: seq<Entry>, n: nat, name: string)
    requires n <= |log| && n <= |after| && ReplayFirst(log, n) == ReplayFirst(after, n)
    requires Text(d, name) == Text(ReplayFirst(log, n), name)
    ensures Text(ReplayFrom(Clean(d, Managed()), after, 0, n), name) == Text(ReplayFirst(after, n), name)
       <==> name in Managed() || AddedFrom(log, 0, n, name) == ""
  {
    var cleaned := Clean(d, Managed());
    TextReplayFrom(cleaned, after, 0, n, name);
    TextReplayFrom(map[], after, 0, n, name);
    TextReplayFrom(map[], log, 0, n, name);
    AddsNothing(Text(cleaned, name), AddedFrom(after, 0, n, name));
    assert forall x: string :: "" + x == x;
  }

  /** A restart of a server with right files. */
  lemma RestartRightIff(s: Server, s': Server, d: Dir, names: iset<string>)
    requires SafeStep(s, s') && s'.commit == s.commit && Right(s, d, names)
    ensures Right(s', ReplayFrom(Clean(d, Managed()), s'.log, 0, s'.commit + 1), names)
       <==> !WritesBetween(s.log, 0, s.commit + 1, Unmanaged(names))
  {
    var n := s.commit + 1;
    SafePrefixReplays(s, s');
    forall name | name in names
      ensures Text(ReplayFrom(Clean(d, Managed()), s'.log, 0, n), name) == Text(ReplayFirst(s'.log, n), name)
         <==> !(name in Unmanaged(names) && AddedFrom(s.log, 0, n, name) != "")
    {
      RestartText(d, s.log, s'.log, n, name);
    }
  }

  /** What the cluster guarantees for a step of server i. */
  ghost predicate Lawful(s: Server, s': Server, a: Action, i: Id) {
    && SafeStep(s, s')
    && (s'.commit < s.commit <==> a.DeliverAppend? && a.append.follower == i && LateCopy(s, a.append))
    && (s'.commit < s.commit ==> s'.commit == a.append.prevIndex + 1)
    && (Restarts(a, i) ==> s'.commit == s.commit)
  }

  /** From right files a step leads to right files, unless it spoils them. */
  lemma StepRightIff(s: Server, s': Server, d: Dir, d': Dir, a: Action, i: Id, names: iset<string>)
    requires Lawful(s, s', a, i) && Right(s, d, names) && d' == FilesAfter(d, a, i, s, s')
    ensures Right(s', d', names) <==> !Spoils(s, a, i, names)
  {
    if Restarts(a, i) {
      RestartRightIff(s, s', d, names);
      assert d' == ReplayFrom(Clean(d, Managed()), s'.log, 0, s'.commit + 1);
    } else if s'.commit < s.commit {
      BackKeepsRightIff(s, s', d, names);
    } else {
      UpKeepsRight(s, s', d, d', names);
    }
  }

  // ---------------------------------------------------------------------------
  // A whole trace

  ghost predicate LawfulAt(ss: seq<Server>, actions: seq<Action>, i: Id, k: nat) {
    k + 1 < |ss| && k < |actions| && Lawful(ss[k], ss[k + 1], actions[k], i)
  }

  ghost predicate LawfulTrace(ss: seq<Server>, actions: seq<Action>, i: Id) {
    && |ss| == |actions| + 1 && ss[0].log == [] && ss[0].commit == -1
    && (forall k: nat {:trigger LawfulAt(ss, actions, i, k)} :: k < |actions| ==> LawfulAt(ss, actions, i, k))
  }

  /** The files are the replay of the committed entries at every moment up to n. */
  ghost predicate AlwaysRight(ds: seq<Dir>, ss: seq<Server>, n: nat, names: iset<string>)
    requires n < |ds| && n < |ss|
  {
    forall m: nat :: m <= n ==> Right(ss[m], ds[m], names)
  }

  ghost predicate NeverSpoiled(ss: seq<Server>, actions: seq<Action>, i: Id, n: nat, names: iset<string>)
    requires n <= |actions| && n < |ss|
  {
    forall k: nat :: k < n ==> !Spoils(ss[k], actions[k], i, names)
  }

  /** No file that is not cleaned holds text when the server is first started. */
  ghost predicate StartsEmpty(junk: Dir, names: iset<string>) {
    forall name :: name in Unmanaged(names) ==> Text(junk, name) == ""
  }

  lemma TraceStep(junk: Dir, ds: seq<Dir>, ss: seq<Server>, actions: seq<Action>, i: Id, k: nat, names: iset<string>)
    requires LawfulTrace(ss, actions, i) && FilesAre(junk, ds, ss, actions, i)
    requires k < |actions| && Right(ss[k], ds[k], names)
    ensures Right(ss[k + 1], ds[k + 1], names) <==> !Spoils(ss[k], actions[k], i, names)
  {
    assert LawfulAt(ss, actions, i, k) && FileStep(ds, ss, actions, i, k);
    StepRightIff(ss[k], ss[k + 1], ds[k], ds[k + 1], actions[k], i, names);
  }

  lemma StartRightIff(s: Server, junk: Dir, names: iset<string>)
    requires s.commit == -1 < |s.log|
    ensures Right(s, Clean(junk, Managed()), names) <==> StartsEmpty(junk, names)
  {
    forall name | name in names
      ensures Text(Clean(junk, Managed()), name) == "" <==> !(name in Unmanaged(names) && Text(junk, name) != "")
    {
    }
  }

  lemma {:induction false} TraceRightIff(junk: Dir, ds: seq<Dir>, ss: seq<Server>, actions: seq<Action>, i: Id, n: nat,
                                         names: iset<string>)
    requires LawfulTrace(ss, actions, i) && FilesAre(junk, ds, ss, actions, i) && n < |ss|
    ensures AlwaysRight(ds, ss, n, names) <==> StartsEmpty(junk, names) && NeverSpoiled(ss, actions, i, n, names)
  {
    if n == 0 {
      StartRightIff(ss[0], junk, names);
    } else {
      TraceRightIff(junk, ds, ss, actions, i, n - 1, names);
      if AlwaysRight(ds, ss, n - 1, names) {
        TraceStep(junk, ds, ss, actions, i, n - 1, names);
      }
    }
  }

  // ---------------------------------------------------------------------------
  // The steps of a run

  lemma RunStepSafe(capacity: nat, states: seq<Cluster>, actions: seq<Action>, i: Id, k: nat)
    requires IsWholeLogRun(STRICT, capacity, states, actions) && k < |actions|
    ensures SafeStep(states[k].servers[i], states[k + 1].servers[i])
  {
    var (s, s') := (states[k].servers[i], states[k + 1].servers[i]);
    Finality.StateFacts(capacity, states, actions, k, i);
    Finality.StateFacts(capacity, states, actions, k + 1, i);
    var p := Min(s.commit, s'.commit);
    if p >= 0 {
      StateMachineSafetyHolds(capacity, states, actions, k, k + 1, i, i, p);
    }
  }

  lemma ReplyCommits(s: Server, r: Reply, stale: Entry)
    requires s.Shaped()
    ensures HandleReply(s, r, stale).commit >= s.commit
  {
  }

  /** No step but an append lowers the commit index. */
  lemma OthersKeepCommit(c: Cluster, a: Action, i: Id)
    requires c.Shaped() && Enabled(STRICT, c, a) && KeepsWholeLog(a)
    requires Elections.SameImage(c.servers[i], c.disk[i])
    requires !(a.DeliverAppend? && a.append.follower == i)
    ensures Step(STRICT, c, a).servers[i].commit >= c.servers[i].commit
    ensures Restarts(a, i) ==> Step(STRICT, c, a).servers[i].commit == c.servers[i].commit
  {
    if a.DeliverReply? {
      ReplyCommits(c.servers[a.reply.to], a.reply, a.stale);
    }
  }

  lemma ImageCurrent(capacity: nat, states: seq<Cluster>, actions: seq<Action>, i: Id, k: nat)
    requires IsWholeLogRun(STRICT, capacity, states, actions) && k < |states|
    ensures Elections.SameImage(states[k].servers[i], states[k].disk[i])
  {
    Elections.RunKeeps(STRICT, capacity, states, actions, k);
  }

  /** The commit index goes back only by a late copy, and then to the position of its entry. */
  lemma BackIffLateCopy(capacity: nat, states: seq<Cluster>, actions: seq<Action>, i: Id, k: nat)
    requires IsWholeLogRun(STRICT, capacity, states, actions) && k < |actions|
    ensures var (s, s', a) := (states[k].servers[i], states[k + 1].servers[i], actions[k]);
      && (s'.commit < s.commit <==> a.DeliverAppend? && a.append.follower == i && LateCopy(s, a.append))
      && (s'.commit < s.commit ==> s'.commit == a.append.prevIndex + 1)
      && (Restarts(a, i) ==> s'.commit == s.commit)
  {
    var (s, a) := (states[k].servers[i], actions[k]);
    ImageCurrent(capacity, states, actions, i, k);
    if a.DeliverAppend? && a.append.follower == i {
      CommitGoesBackIff(s, a.append);
    } else {
      OthersKeepCommit(states[k], a, i);
    }
  }

  lemma RunLawful(capacity: nat, states: seq<Cluster>, actions: seq<Action>, i: Id)
    requires IsWholeLogRun(STRICT, capacity, states, actions)
    ensures LawfulTrace(Trace(states, i), actions, i)
  {
    var ss := Trace(states, i);
    assert i == 0 || i == 1 || i == 2 || i == 3 || i == 4;
    forall k: nat | k < |actions|
      ensures LawfulAt(ss, actions, i, k)
    {
      RunStepSafe(capacity, states, actions, i, k);
      BackIffLateCopy(capacity, states, actions, i, k);
    }
  }

  /**
    The main files of these names are at every moment the replay, in order and
    once each, of all that the server has committed, if and only if
    - the ones that it does not clean were empty at its first start,
    - it never accepts an append for a position that it has committed past, which
      says that more is committed, with a writing entry in between, and
    - it never restarts when it has committed a write to one that it does not clean.
  */
  lemma FilesRightIff(capacity: nat, states: seq<Cluster>, actions: seq<Action>, i: Id, junk: Dir, ds: seq<Dir>, n: nat,
                      names: iset<string>)
    requires IsWholeLogRun(STRICT, capacity, states, actions) && n < |states|
    requires FilesAre(junk, ds, Trace(states, i), actions, i)
    ensures AlwaysRight(ds, Trace(states, i), n, names)
       <==> StartsEmpty(junk, names) && NeverSpoiled(Trace(states, i), actions, i, n, names)
  {
    RunLawful(capacity, states, actions, i);
    TraceRightIff(junk, ds, Trace(states, i), actions, i, n, names);
  }

  /** The names file_0 .. file_99. */
  ghost function ManagedNames(): iset<string> {
    iset name | name in Managed()
  }

  /** The managed files follow the log as long as the commit index does not go back, whatever restarts there are. */
  lemma FilesFollowLog(capacity: nat, states: seq<Cluster>, actions: seq<Action>, i: Id, junk: Dir, ds: seq<Dir>, n: nat)
    requires IsWholeLogRun(STRICT, capacity, states, actions) && n < |states|
    requires FilesAre(junk, ds, Trace(states, i), actions, i)
    requires forall k: nat :: k < n ==> states[k].servers[i].commit <= states[k + 1].servers[i].commit
    ensures Right(states[n].servers[i], ds[n], ManagedNames())
  {
    var (ss, names) := (Trace(states, i), ManagedNames());
    RunLawful(capacity, states, actions, i);
    forall k: nat | k < n
      ensures !Spoils(ss[k], actions[k], i, names)
    {
      assert LawfulAt(ss, actions, i, k);
      assert forall name :: name !in Unmanaged(names);
    }
    TraceRightIff(junk, ds, ss, actions, i, n, names);
  }

  // ---------------------------------------------------------------------------
  // How often an entry is applied

  /** The positions lo .. hi - 1, in order. */
  function Range(lo: nat, hi: nat): seq<nat>
    decreases hi
  {
    if hi <= lo then [] else Range(lo, hi - 1) + [hi - 1]
  }

  lemma {:induction false} RangeHolds(lo: nat, hi: nat, p: nat)
    ensures multiset(Range(lo, hi))[p] == if lo <= p < hi then 1 else 0
    decreases hi
  {
    if lo < hi {
      RangeHolds(lo, hi - 1, p);
    }
  }

  lemma {:induction false} RangeAt(lo: nat, hi: nat)
    requires lo <= hi
    ensures |Range(lo, hi)| == hi - lo && forall k :: 0 <= k < hi - lo ==> Range(lo, hi)[k] == lo + k
    decreases hi
  {
    if lo < hi {
      RangeAt(lo, hi - 1);
    }
  }

  /** The position after the commit index. */
  function After(s: Server): nat {
    if s.commit < 0 then 0 else s.commit + 1
  }

  /** The positions whose entries a step of server i applies. */
  function StepApplies(a: Action, i: Id, s: Server, s': Server): seq<nat> {
    Range(if Restarts(a, i) then 0 else After(s), After(s'))
  }

  /** The entries at these positions, as the log holds them then. */
  function StepEntries(a: Action, i: Id, s: Server, s': Server): seq<Entry> {
    var lo := if Restarts(a, i) then 0 else After(s);
    if lo <= After(s') <= |s'.log| then s'.log[lo..After(s')] else []
  }

  lemma {:induction false} SameReplay(d: Dir, log: seq<Entry>, lo: nat, es: seq<Entry>, n: nat)
    requires n <= |es| && lo + n <= |log| && forall k :: 0 <= k < n ==> es[k] == log[lo + k]
    ensures ReplayFrom(d, es, 0, n) == ReplayFrom(d, log, lo, lo + n)
  {
    if n > 0 {
      SameReplay(d, log, lo, es, n - 1);
    }
  }

  lemma SliceCommitted(d: Dir, log: seq<Entry>, from: int, last: int, es: seq<Entry>)
    requires -1 <= from <= last < |log|
    requires |es| == last - from && forall k :: 0 <= k < |es| ==> es[k] == log[from + 1 + k]
    ensures Committed(d, 0, log, from, last) == ReplayOnto(d, es)
  {
    CommittedIsReplay(d, log, from, last);
    SameReplay(d, log, from + 1, es, |es|);
  }

  lemma CommittedIsReplay(d: Dir, log: seq<Entry>, from: int, last: int)
    requires -1 <= from <= last < |log|
    ensures Committed(d, 0, log, from, last) == ReplayFrom(d, log, from + 1, last + 1)
  {
  }

  /** A step applies them, one after the other, to the files as they were, or as a restart has cleaned them. */
  lemma StepFiles(d: Dir, d': Dir, a: Action, i: Id, s: Server, s': Server)
    requires SafeStep(s, s') && d' == FilesAfter(d, a, i, s, s')
    ensures d' == ReplayOnto(if Restarts(a, i) then Clean(d, Managed()) else d, StepEntries(a, i, s, s'))
  {
    if Restarts(a, i) {
      SliceCommitted(Clean(d, Managed()), s'.log, -1, s'.commit, StepEntries(a, i, s, s'));
    } else if s.commit <= s'.commit {
      SliceCommitted(d, s'.log, s.commit, s'.commit, StepEntries(a, i, s, s'));
    }
  }

  /** All positions that server i has applied since its last restart, in order. */
  function Applied(ss: seq<Server>, actions: seq<Action>, i: Id, n: nat): seq<nat>
    requires |ss| == |actions| + 1 && n < |ss|
  {
    if n == 0 then []
    else
      var now := StepApplies(actions[n - 1], i, ss[n - 1], ss[n]);
      if Restarts(actions[n - 1], i) then now else Applied(ss, actions, i, n - 1) + now
  }

  /** Their entries, each as it was when it was applied. */
  function Entries(ss: seq<Server>, actions: seq<Action>, i: Id, n: nat): seq<Entry>
    requires |ss| == |actions| + 1 && n < |ss|
  {
    if n == 0 then []
    else
      var now := StepEntries(actions[n - 1], i, ss[n - 1], ss[n]);
      if Restarts(actions[n - 1], i) then now else Entries(ss, actions, i, n - 1) + now
  }

  /** The files as the last restart, or the first start, has cleaned them. */
  ghost function Cleaned(ds: seq<Dir>, actions: seq<Action>, i: Id, n: nat): Dir
    requires |ds| == |actions| + 1 && n < |ds|
  {
    if n == 0 then ds[0]
    else if Restarts(actions[n - 1], i) then Clean(ds[n - 1], Managed())
    else Cleaned(ds, actions, i, n - 1)
  }

  lemma {:induction false} FilesAreEntries(junk: Dir, ds: seq<Dir>, ss: seq<Server>, actions: seq<Action>, i: Id, n: nat)
    requires LawfulTrace(ss, actions, i) && FilesAre(junk, ds, ss, actions, i) && n < |ss|
    ensures ds[n] == ReplayOnto(Cleaned(ds, actions, i, n), Entries(ss, actions, i, n))
  {
    if n > 0 {
      var (a, base) := (actions[n - 1], Cleaned(ds, actions, i, n - 1));
      assert LawfulAt(ss, actions, i, n - 1) && FileStep(ds, ss, actions, i, n - 1);
      StepFiles(ds[n - 1], ds[n], a, i, ss[n - 1], ss[n]);
      if !Restarts(a, i) {
        FilesAreEntries(junk, ds, ss, actions, i, n - 1);
        ReplayConcat(base, Entries(ss, actions, i, n - 1), StepEntries(a, i, ss[n - 1], ss[n]));
      }
    }
  }

  /** At some moment up to n the server had committed this entry at p. */
  predicate HadCommitted(ss: seq<Server>, n: nat, p: nat, e: Entry)
    requires n < |ss|
  {
    exists m :: 0 <= m <= n && p <= ss[m].commit && p < |ss[m].log| && ss[m].log[p] == e
  }

  lemma StepPairs(a: Action, i: Id, s: Server, s': Server)
    requires SafeStep(s, s')
    ensures |StepApplies(a, i, s, s')| == |StepEntries(a, i, s, s')|
    ensures forall k :: 0 <= k < |StepApplies(a, i, s, s')| ==>
      StepApplies(a, i, s, s')[k] <= s'.commit && StepEntries(a, i, s, s')[k] == s'.log[StepApplies(a, i, s, s')[k]]
  {
    var (lo, hi) := (if Restarts(a, i) then 0 else After(s), After(s'));
    if lo <= hi {
      RangeAt(lo, hi);
    }
  }

  /** The lists of positions and of entries go together. */
  ghost predicate Paired(ss: seq<Server>, n: nat, ps: seq<nat>, es: seq<Entry>)
    requires n < |ss|
  {
    |ps| == |es| && forall k :: 0 <= k < |ps| ==> HadCommitted(ss, n, ps[k], es[k])
  }

  lemma PairedNow(ss: seq<Server>, n: nat, ps: seq<nat>, es: seq<Entry>)
    requires n < |ss| && |ps| == |es|
    requires forall k :: 0 <= k < |ps| ==> ps[k] <= ss[n].commit && ps[k] < |ss[n].log| && es[k] == ss[n].log[ps[k]]
    ensures Paired(ss, n, ps, es)
  {
  }

  lemma PairedLater(ss: seq<Server>, m: nat, n: nat, ps: seq<nat>, es: seq<Entry>)
    requires m <= n < |ss| && Paired(ss, m, ps, es)
    ensures Paired(ss, n, ps, es)
  {
    forall k | 0 <= k < |ps|
      ensures HadCommitted(ss, n, ps[k], es[k])
    {
      assert HadCommitted(ss, m, ps[k], es[k]);
    }
  }

  lemma PairedConcat(ss: seq<Server>, n: nat, ps: seq<nat>, es: seq<Entry>, qs: seq<nat>, fs: seq<Entry>)
    requires n < |ss| && Paired(ss, n, ps, es) && Paired(ss, n, qs, fs)
    ensures Paired(ss, n, ps + qs, es + fs)
  {
  }

  lemma NextPaired(ss: seq<Server>, actions: seq<Action>, i: Id, m: nat, n: nat) returns (qs: seq<nat>, fs: seq<Entry>)
    requires n == m + 1 < |ss| && LawfulAt(ss, actions, i, m)
    ensures qs == StepApplies(actions[m], i, ss[m], ss[n]) && fs == StepEntries(actions[m], i, ss[m], ss[n])
    ensures Paired(ss, n, qs, fs)
  {
    qs, fs := StepApplies(actions[m], i, ss[m], ss[n]), StepEntries(actions[m], i, ss[m], ss[n]);
    StepPairs(actions[m], i, ss[m], ss[n]);
    PairedNow(ss, n, qs, fs);
  }

  lemma {:induction false} AppliedPaired(ss: seq<Server>, actions: seq<Action>, i: Id, n: nat)
    requires LawfulTrace(ss, actions, i) && n < |ss|
    ensures Paired(ss, n, Applied(ss, actions, i, n), Entries(ss, actions, i, n))
  {
    if n > 0 {
      assert LawfulAt(ss, actions, i, n - 1);
      var qs, fs := NextPaired(ss, actions, i, n - 1, n);
      if !Restarts(actions[n - 1], i) {
        var (ps, es) := (Applied(ss, actions, i, n - 1), Entries(ss, actions, i, n - 1));
        AppliedPaired(ss, actions, i, n - 1);
        PairedLater(ss, n - 1, n, ps, es);
        PairedConcat(ss, n, ps, es, qs, fs);
      }
    }
  }

  /**
    The main files at moment n are what the listed entries, applied one after the
    other, make of the cleaned files; and an entry that is listed for a position
    which is committed at moment n is the one that the log holds there.
  */
  lemma FilesAreApplied(capacity: nat, states: seq<Cluster>, actions: seq<Action>, i: Id, junk: Dir, ds: seq<Dir>, n: nat)
    requires IsWholeLogRun(STRICT, capacity, states, actions) && n < |states|
    requires FilesAre(junk, ds, Trace(states, i), actions, i)
    ensures var (ss, s) := (Trace(states, i), states[n].servers[i]);
      var (ps, es) := (Applied(ss, actions, i, n), Entries(ss, actions, i, n));
      && ds[n] == ReplayOnto(Cleaned(ds, actions, i, n), es) && |ps| == |es|
      && forall k :: 0 <= k < |ps| && ps[k] <= s.commit ==> ps[k] < |s.log| && es[k] == s.log[ps[k]]
  {
    var ss := Trace(states, i);
    RunLawful(capacity, states, actions, i);
    FilesAreEntries(junk, ds, ss, actions, i, n);
    AppliedPaired(ss, actions, i, n);
    var (ps, es) := (Applied(ss, actions, i, n), Entries(ss, actions, i, n));
    forall k | 0 <= k < |ps| && ps[k] <= states[n].servers[i].commit
      ensures ps[k] < |states[n].servers[i].log| && es[k] == states[n].servers[i].log[ps[k]]
    {
      assert HadCommitted(ss, n, ps[k], es[k]);
      var m :| 0 <= m <= n && ps[k] <= ss[m].commit && ps[k] < |ss[m].log| && ss[m].log[ps[k]] == es[k];
      Finality.SameEntries(capacity, states, actions, m, n, i, i, ps[k]);
    }
  }

  /** How often position p is among them. */
  function Times(ss: seq<Server>, actions: seq<Action>, i: Id, n: nat, p: nat): nat
    requires |ss| == |actions| + 1 && n < |ss|
  {
    multiset(Applied(ss, actions, i, n))[p]
  }

  /** The commit index goes back behind p. */
  predicate GoesBehind(s: Server, s': Server, p: nat) {
    s'.commit < p <= s.commit
  }

  /** Since its last restart the commit index has gone back behind position p so often. */
  function Backs(ss: seq<Server>, actions: seq<Action>, i: Id, n: nat, p: nat): nat
    requires |ss| == |actions| + 1 && n < |ss|
  {
    if n == 0 || Restarts(actions[n - 1], i) then 0
    else Backs(ss, actions, i, n - 1, p) + if GoesBehind(ss[n - 1], ss[n], p) then 1 else 0
  }

  lemma {:induction false} TimesAndBacks(ss: seq<Server>, actions: seq<Action>, i: Id, n: nat, p: nat)
    requires |ss| == |actions| + 1 && n < |ss| && ss[0].commit == -1
    ensures Times(ss, actions, i, n, p) == Backs(ss, actions, i, n, p) + if p <= ss[n].commit then 1 else 0
  {
    if n > 0 {
      var (s, s') := (ss[n - 1], ss[n]);
      TimesAndBacks(ss, actions, i, n - 1, p);
      RangeHolds(if Restarts(actions[n - 1], i) then 0 else After(s), After(s'), p);
    }
  }

  /** Step k has been taken since the last restart of server i before moment n. */
  predicate SinceRestart(actions: seq<Action>, i: Id, k: nat, n: nat)
    requires n <= |actions|
  {
    k < n && forall j :: k <= j < n ==> !Restarts(actions[j], i)
  }

  /** The step is a late copy of an append for a position before p, which s has committed. */
  predicate LateBehind(s: Server, a: Action, i: Id, p: nat) {
    a.DeliverAppend? && a.append.follower == i && LateCopy(s, a.append) && a.append.prevIndex + 1 < p <= s.commit
  }

  ghost predicate NeverLateBehind(ss: seq<Server>, actions: seq<Action>, i: Id, n: nat, p: nat)
    requires n <= |actions| && n < |ss|
  {
    forall k: nat :: SinceRestart(actions, i, k, n) ==> !LateBehind(ss[k], actions[k], i, p)
  }

  lemma NeverLateNext(ss: seq<Server>, actions: seq<Action>, i: Id, m: nat, n: nat, p: nat)
    requires n == m + 1 <= |actions| && n < |ss|
    ensures NeverLateBehind(ss, actions, i, n, p)
       <==> Restarts(actions[m], i) || (NeverLateBehind(ss, actions, i, m, p) && !LateBehind(ss[m], actions[m], i, p))
  {
    if !Restarts(actions[m], i) {
      assert SinceRestart(actions, i, m, n);
      assert forall k: nat :: SinceRestart(actions, i, k, n) <==> k == m || SinceRestart(actions, i, k, m);
    }
  }

  lemma {:induction false} BacksZeroIff(ss: seq<Server>, actions: seq<Action>, i: Id, n: nat, p: nat)
    requires LawfulTrace(ss, actions, i) && n < |ss|
    ensures Backs(ss, actions, i, n, p) == 0 <==> NeverLateBehind(ss, actions, i, n, p)
  {
    if n > 0 {
      NeverLateNext(ss, actions, i, n - 1, n, p);
      if !Restarts(actions[n - 1], i) {
        BacksZeroIff(ss, actions, i, n - 1, p);
        assert LawfulAt(ss, actions, i, n - 1);
      }
    }
  }

  /**
    Over every run without compaction or install, a committed entry has been
    applied exactly once since the last restart if and only if no late copy has
    taken the commit index back behind it.
  */
  lemma AppliedOnceIff(capacity: nat, states: seq<Cluster>, actions: seq<Action>, i: Id, n: nat, p: nat)
    requires IsWholeLogRun(STRICT, capacity, states, actions) && n < |states| && p <= states[n].servers[i].commit
    ensures var ss := Trace(states, i);
      Times(ss, actions, i, n, p) == 1 <==> NeverLateBehind(ss, actions, i, n, p)
  {
    var ss := Trace(states, i);
    RunLawful(capacity, states, actions, i);
    TimesAndBacks(ss, actions, i, n, p);
    BacksZeroIff(ss, actions, i, n, p);
  }
}
