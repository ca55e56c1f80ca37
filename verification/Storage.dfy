/**
  One server's memory, files and disk as a step system, to show that the main
  files are a cache of "replay everything committed", whether they were built by
  commits, by a restart from a snapshot, or after any number of compactions, and
  that a crash between any two effects finds a complete snapshot on disk.

  A compaction runs in its own thread, mostly without the lock
  (raft.c:133-174); its effects interleave with those of the handlers.
*/
module Storage {
  import opened RaftTypes
  import opened Files

  /**
    What raft_state_t says about the log: the window `log` from position `start`
    on, and the commit index. `below` is history: the entries of the positions
    that the window no longer holds.
  */
  datatype Image = Image(start: nat, log: seq<Entry>, commit: int, below: seq<Entry>)

  /**
    The progress of Raft_create_snapshot towards a window that starts at newStart.
    `extra` is history: the texts that the copy of the base leaves standing in a
    directory that was there before (see `Surviving`).
  */
  datatype Compaction =
    | Idle
    | Begun(newStart: nat, extra: Dir)
    | Made(newStart: nat, extra: Dir)
    | Writing(newStart: nat, pos: nat, slot: nat, extra: Dir)
    | Shifted(previous: nat)

  datatype Node = Node(
    mem: Image, main: Dir, snaps: map<nat, Dir>, disk: Image, comp: Compaction, outdated: set<nat>,
    names: set<string>)

  datatype Action =
    | Store(k: nat, e: Entry)
    | Commit(n: int)
    | Save
    | Begin(newStart: nat)
    | MakeDir
    | CopyBase
    | WriteSlot
    | NextEntry
    | Shift
    | RemoveOutdated(id: nat)
    | Crash(junk: Dir)

  // ---------------------------------------------------------------------------
  // Images

  predicate Faithful(m: Image) {
    |m.below| == m.start && m.start <= m.commit + 1 <= Count(m)
  }

  /** log_count. */
  function Count(m: Image): nat {
    m.start + |m.log|
  }

  /** Raft_get_log: absolute position k of the window. */
  function Read(m: Image, k: int): Entry
    requires m.start <= k < Count(m)
  {
    m.log[k - m.start]
  }

  /** The committed entries of the window at absolute positions lo .. hi - 1, applied to files. */
  function Applied(d: Dir, m: Image, lo: int, hi: int): Dir
    requires m.start <= lo <= hi <= Count(m)
  {
    ReplayFrom(d, m.log, lo - m.start, hi - m.start)
  }

  /** All entries, whether the window still holds them or not. */
  function All(m: Image): seq<Entry> {
    m.below + m.log
  }

  /** The files that the transactions below position k make. */
  function Built(m: Image, k: int): Dir
    requires m.start <= k <= Count(m)
  {
    BuiltOn(m.below, m.log, k - m.start)
  }

  lemma BuiltIsReplay(m: Image, k: int)
    requires |m.below| == m.start <= k <= Count(m)
    ensures Built(m, k) == ReplayFirst(All(m), k)
  {
    ReplaySplit(map[], All(m), 0, m.start, k);
    ReplayHead(map[], m.below, m.log, 0, m.start);
    ReplayTail(Replay(m.below), m.below, m.log, k - m.start);
  }

  lemma BuiltFurther(m: Image, lo: int, hi: int)
    requires m.start <= lo <= hi <= Count(m)
    ensures Applied(Built(m, lo), m, lo, hi) == Built(m, hi)
  {
    ReplaySplit(Replay(m.below), m.log, 0, lo - m.start, hi - m.start);
  }

  /** The assignment through Raft_get_log; what follows position k is dropped. */
  function Stored(m: Image, k: nat, e: Entry): Image
    requires m.start <= k <= Count(m)
  {
    m.(log := m.log[..k - m.start] + [e])
  }

  lemma StoredKeepsBelow(m: Image, t: Image, k: nat, e: Entry, n: int)
    requires m.start <= n <= k <= Count(m) && t == Stored(m, k, e)
    ensures Built(t, n) == Built(m, n)
    ensures forall i :: m.start <= i < n ==> Read(t, i) == Read(m, i)
  {
    HeadBuilt(m.below, m.log, k - m.start, e, n - m.start);
    StoredReads(m, t, k, e, n);
  }

  lemma HeadBuilt(below: seq<Entry>, log: seq<Entry>, a: nat, e: Entry, n: nat)
    requires n <= a <= |log|
    ensures BuiltOn(below, log[..a] + [e], n) == BuiltOn(below, log, n)
  {
    ReplayHead(Replay(below), log[..a], [e], 0, n);
    ReplayTake(Replay(below), log, a, 0, n);
  }

  lemma StoredReads(m: Image, t: Image, k: nat, e: Entry, n: int)
    requires m.start <= n <= k <= Count(m) && t == Stored(m, k, e)
    ensures forall i :: m.start <= i < n ==> Read(t, i) == Read(m, i)
  {
  }

  /** The left shift of the window (raft.c:161-164). */
  function ShiftedTo(m: Image, k: nat): Image
    requires m.start <= k <= Count(m)
  {
    m.(start := k, log := m.log[k - m.start..], below := m.below + m.log[..k - m.start])
  }

  /** The shift is invisible: every position the new window holds reads as before. */
  lemma ShiftInvisible(m: Image, k: nat)
    requires m.start <= k <= Count(m)
    ensures Count(ShiftedTo(m, k)) == Count(m) && All(ShiftedTo(m, k)) == All(m)
    ensures forall i :: k <= i < Count(m) ==> Read(ShiftedTo(m, k), i) == Read(m, i)
  {
    var a := k - m.start;
    assert m.log == m.log[..a] + m.log[a..];
    assert (m.below + m.log[..a]) + m.log[a..] == m.below + (m.log[..a] + m.log[a..]);
  }

  /** The files built from a window that begins at `below`, up to its slot n. */
  function BuiltOn(below: seq<Entry>, log: seq<Entry>, n: int): Dir
    requires 0 <= n <= |log|
  {
    ReplayFrom(Replay(below), log, 0, n)
  }

  lemma CutBuilt(below: seq<Entry>, log: seq<Entry>, a: nat, n: nat, b: int)
    requires a + n == b <= |log|
    ensures Replay(below + log[..a]) == BuiltOn(below, log, a)
    ensures BuiltOn(below + log[..a], log[a..], n) == BuiltOn(below, log, b)
  {
    ReplayCut(below, log, a, n, b);
  }

  lemma ShiftedBuilt(m: Image, t: Image, k: nat, n: int)
    requires m.start < k <= n <= Count(m) && t == ShiftedTo(m, k)
    ensures Count(t) == Count(m) && Replay(t.below) == Built(m, k) && Built(t, n) == Built(m, n)
  {
    CutBuilt(m.below, m.log, k - m.start, n - k, n - m.start);
  }

  // ---------------------------------------------------------------------------
  // Steps

  /** Raft_server_init: empty files, no snapshot. `names` are the managed file names. */
  function Start(names: set<string>): Node {
    var image := Image(0, [], -1, []);
    Node(image, Clean(map[], names), map[], image, Idle, {}, names)
  }

  /** The first part of Raft_server_restore: clean the main files, copy the snapshot over them. */
  function RestoredBase(start: nat, snaps: map<nat, Dir>, junk: Dir, names: set<string>): Dir
    requires start != 0 ==> start in snaps
  {
    var cleaned := Clean(junk, names);
    if start != 0 then Copy(snaps[start], cleaned, names) else cleaned
  }

  /** Then the committed part of the window is replayed. */
  function RestoredFiles(disk: Image, snaps: map<nat, Dir>, junk: Dir, names: set<string>): Dir
    requires disk.start <= disk.commit + 1 <= Count(disk) && (disk.start != 0 ==> disk.start in snaps)
  {
    ReplayFrom(RestoredBase(disk.start, snaps, junk, names), disk.log, 0, disk.commit + 1 - disk.start)
  }

  /** The last loop of Raft_server_restore reaches only the ids below 100. */
  function Swept(snaps: map<nat, Dir>, keep: nat): map<nat, Dir> {
    map id | id in snaps && (id >= 100 || id == keep) :: snaps[id]
  }

  /** The snapshot that a compaction has written when it has come to one slot of one entry. */
  function Partial(m: Image, newStart: nat, pos: nat, slot: nat): Dir
    requires m.start <= pos <= newStart <= Count(m) && (pos < newStart ==> slot <= |Writes(Read(m, pos))|)
  {
    AppendAll(Built(m, pos), if pos < newStart then Writes(Read(m, pos))[..slot] else [])
  }

  /** What a directory with the id holds in managed files that the base of the new snapshot lacks. */
  function Surviving(snaps: map<nat, Dir>, from: nat, id: nat, names: set<string>): (r: Dir) {
    var base := if from != 0 && from in snaps then snaps[from] else map[];
    var found := if id in snaps then snaps[id] else map[];
    map name | name in names && name !in base :: Text(found, name)
  }

  ghost predicate MainCurrent(main: Dir, m: Image, names: set<string>)
    requires Faithful(m)
  {
    forall name :: name in names ==> Text(main, name) == Text(Built(m, m.commit + 1), name)
  }

  /** A snapshot with the id of the window's start exists and is complete. */
  ghost predicate Complete(snaps: map<nat, Dir>, m: Image, names: set<string>) {
    m.start != 0 ==>
      m.start in snaps && forall name :: name in names ==> Text(snaps[m.start], name) == Text(Replay(m.below), name)
  }

  /** Where a compaction stands; diskStart is the start of the saved window. */
  predicate Progress(comp: Compaction, m: Image, diskStart: nat, snaps: map<nat, Dir>) {
    && Faithful(m)
    && match comp
      case Idle => diskStart == m.start
      case Begun(newStart, _) => diskStart == m.start < newStart <= m.commit + 1
      case Made(newStart, _) => diskStart == m.start < newStart <= m.commit + 1 && newStart in snaps
      case Writing(newStart, pos, slot, _) =>
        && diskStart == m.start <= pos <= newStart <= m.commit + 1 && m.start < newStart
        && newStart in snaps
        && (if pos < newStart then slot <= |Writes(Read(m, pos))| else slot == 0)
      case Shifted(previous) => diskStart == previous < m.start
  }

  /** What holds in every run: the windows, the progress of the compaction, and which directories exist. */
  ghost predicate StorageInv(x: Node) {
    && Faithful(x.mem) && Faithful(x.disk)
    && (x.mem.start != 0 ==> x.mem.start in x.snaps) && (x.disk.start != 0 ==> x.disk.start in x.snaps)
    && Progress(x.comp, x.mem, x.disk.start, x.snaps)
    && (forall id :: id in x.outdated ==> id < x.disk.start)
  }

  /** Every file reads as its text in `extra` and then that in `built`. */
  ghost predicate Behind(d: Dir, extra: Dir, built: Dir, names: set<string>) {
    forall name :: name in names ==> Text(d, name) == Text(extra, name) + Text(built, name)
  }

  /** What the new snapshot holds so far: behind what survived, what is built of it. */
  ghost predicate Written(comp: Compaction, m: Image, diskStart: nat, snaps: map<nat, Dir>, names: set<string>)
    requires Progress(comp, m, diskStart, snaps)
  {
    match comp
    case Begun(newStart, extra) => extra == Surviving(snaps, m.start, newStart, names)
    case Made(newStart, extra) => extra == Surviving(snaps, m.start, newStart, names)
    case Writing(newStart, pos, slot, extra) =>
      extra.Keys <= names && Behind(snaps[newStart], extra, Partial(m, newStart, pos, slot), names)
    case _ => true
  }

  /** What holds besides, as long as no compaction ends with more in its snapshot than it has built. */
  ghost predicate TextsRight(x: Node)
    requires StorageInv(x)
  {
    && MainCurrent(x.main, x.mem, x.names)
    && Complete(x.snaps, x.mem, x.names) && Complete(x.snaps, x.disk, x.names)
    && Written(x.comp, x.mem, x.disk.start, x.snaps, x.names)
  }

  /** The compaction ends, and text of an earlier directory has survived in its snapshot. */
  predicate Spoils(x: Node, a: Action) {
    a.Shift? && x.comp.Writing? && exists name :: name in x.comp.extra && x.comp.extra[name] != ""
  }

  /**
    When a step may be taken. The hypotheses are here: committed entries do not
    change, and commits do not go back.
  */
  predicate Enabled(x: Node, a: Action) {
    match a
    case Store(k, e) => x.mem.commit < k <= Count(x.mem)
    case Commit(n) => x.mem.commit <= n < Count(x.mem)
    case Save => true
    case Begin(newStart) => x.comp.Idle? && x.mem.start < newStart <= x.mem.commit + 1
    case MakeDir => x.comp.Begun?
    case CopyBase => x.comp.Made?
    case WriteSlot => x.comp.Writing? && x.comp.pos < x.comp.newStart && !EntryDone(x)
    case NextEntry => x.comp.Writing? && x.comp.pos < x.comp.newStart && EntryDone(x)
    case Shift => x.comp.Writing? && x.comp.pos == x.comp.newStart
    case RemoveOutdated(id) => id in x.outdated
    case Crash(junk) => true
  }

  /** All slots of the entry at hand have been written. */
  predicate EntryDone(x: Node)
    requires x.comp.Writing?
  {
    x.mem.start <= x.comp.pos < Count(x.mem) && x.comp.slot >= |Writes(Read(x.mem, x.comp.pos))|
  }

  /** The step does not fault: no missing log slot is read, no missing directory opened. */
  predicate Defined(x: Node, a: Action) {
    match a
    case Store(k, e) => x.mem.start <= k <= Count(x.mem)
    case Commit(n) => x.mem.start <= x.mem.commit + 1 <= n + 1 <= Count(x.mem)
    case CopyBase => x.comp.Made? && x.comp.newStart in x.snaps && (x.mem.start != 0 ==> x.mem.start in x.snaps)
    case WriteSlot =>
      && x.comp.Writing? && x.comp.newStart in x.snaps
      && x.mem.start <= x.comp.pos < Count(x.mem) && x.comp.slot < |Writes(Read(x.mem, x.comp.pos))|
    case Shift => x.comp.Writing? && x.mem.start <= x.comp.newStart <= Count(x.mem)
    case Crash(junk) =>
      && x.disk.start <= x.disk.commit + 1 <= Count(x.disk)
      && (x.disk.start != 0 ==> x.disk.start in x.snaps)
    case _ => true
  }

  function DoStore(x: Node, k: nat, e: Entry): Node
    requires x.mem.start <= k <= Count(x.mem)
  {
    x.(mem := Stored(x.mem, k, e))
  }

  /** Raft_commit_update with handle_raft_commit. */
  function DoCommit(x: Node, n: int): Node
    requires x.mem.start <= x.mem.commit + 1 <= n + 1 <= Count(x.mem)
  {
    x.(mem := x.mem.(commit := n), main := Applied(x.main, x.mem, x.mem.commit + 1, n + 1))
  }

  /** Raft_save_state; the save that follows a shift makes the previous snapshot outdated. */
  function DoSave(x: Node): Node {
    if x.comp.Shifted? then
      x.(disk := x.mem, comp := Idle,
         outdated := x.outdated + (if x.comp.previous != 0 then {x.comp.previous} else {}))
    else
      x.(disk := x.mem)
  }

  function DoBegin(x: Node, newStart: nat): Node {
    x.(comp := Begun(newStart, Surviving(x.snaps, x.mem.start, newStart, x.names)))
  }

  /** mkdir leaves a directory that is there. */
  function DoMakeDir(x: Node): Node
    requires x.comp.Begun?
  {
    var ns := x.comp.newStart;
    x.(snaps := if ns in x.snaps then x.snaps else x.snaps[ns := map[]], comp := Made(ns, x.comp.extra))
  }

  function DoCopyBase(x: Node): Node
    requires x.comp.Made? && x.comp.newStart in x.snaps && (x.mem.start != 0 ==> x.mem.start in x.snaps)
  {
    var (ns, from) := (x.comp.newStart, x.mem.start);
    x.(snaps := if from != 0 then x.snaps[ns := Copy(x.snaps[from], x.snaps[ns], x.names)] else x.snaps,
       comp := Writing(ns, from, 0, x.comp.extra))
  }

  /** Raft_add_to_snapshot for one slot of one entry, read from memory without the lock. */
  function DoWriteSlot(x: Node): Node
    requires x.comp.Writing? && x.comp.newStart in x.snaps
    requires x.mem.start <= x.comp.pos < Count(x.mem) && x.comp.slot < |Writes(Read(x.mem, x.comp.pos))|
  {
    var w := Writes(Read(x.mem, x.comp.pos))[x.comp.slot];
    x.(snaps := x.snaps[x.comp.newStart := Append(x.snaps[x.comp.newStart], w)],
       comp := x.comp.(slot := x.comp.slot + 1))
  }

  function DoShift(x: Node): Node
    requires x.comp.Writing? && x.mem.start <= x.comp.newStart <= Count(x.mem)
  {
    x.(mem := ShiftedTo(x.mem, x.comp.newStart), comp := Shifted(x.mem.start))
  }

  function DoCrash(x: Node, junk: Dir): Node
    requires x.disk.start <= x.disk.commit + 1 <= Count(x.disk) && (x.disk.start != 0 ==> x.disk.start in x.snaps)
  {
    Node(x.disk, RestoredFiles(x.disk, x.snaps, junk, x.names), Swept(x.snaps, x.disk.start), x.disk, Idle, {}, x.names)
  }

  function Step(x: Node, a: Action): Node
    requires Enabled(x, a) && Defined(x, a)
  {
    match a
    case Store(k, e) => DoStore(x, k, e)
    case Commit(n) => DoCommit(x, n)
    case Save => DoSave(x)
    case Begin(newStart) => DoBegin(x, newStart)
    case MakeDir => DoMakeDir(x)
    case CopyBase => DoCopyBase(x)
    case WriteSlot => DoWriteSlot(x)
    case NextEntry => x.(comp := x.comp.(pos := x.comp.pos + 1, slot := 0))
    case Shift => DoShift(x)
    case RemoveOutdated(id) => x.(snaps := x.snaps - {id}, outdated := x.outdated - {id})
    case Crash(junk) => DoCrash(x, junk)
  }

  // ---------------------------------------------------------------------------
  // Every step keeps the invariant

  /** No step that is enabled in a state with the invariant faults, and it keeps the invariant. */
  lemma StepKeeps(x: Node, a: Action)
    requires StorageInv(x) && Enabled(x, a)
    ensures Defined(x, a) && StorageInv(Step(x, a))
  {
    match a
    case Store(k, e) => StoreProgress(x.comp, x.mem, Stored(x.mem, k, e), x.disk.start, x.snaps, k, e);
    case Shift => ShiftInvisible(x.mem, x.comp.newStart);
    case _ =>
  }

  lemma StoreProgress(comp: Compaction, m: Image, t: Image, d: nat, snaps: map<nat, Dir>, k: nat, e: Entry)
    requires Faithful(m) && m.commit < k <= Count(m) && t == Stored(m, k, e) && Progress(comp, m, d, snaps)
    ensures Progress(comp, t, d, snaps)
  {
    if comp.Writing? {
      StoredKeepsBelow(m, t, k, e, m.commit + 1);
    }
  }

  // ---------------------------------------------------------------------------
  // What the steps do to texts

  lemma StoreMain(main: Dir, m: Image, t: Image, k: nat, e: Entry, names: set<string>)
    requires Faithful(m) && m.commit < k <= Count(m) && t == Stored(m, k, e) && MainCurrent(main, m, names)
    ensures Faithful(t) && MainCurrent(main, t, names)
  {
    StoredKeepsBelow(m, t, k, e, m.commit + 1);
  }

  lemma StoreWritten(comp: Compaction, m: Image, t: Image, d: nat, snaps: map<nat, Dir>, k: nat, e: Entry, names: set<string>)
    requires Faithful(m) && m.commit < k <= Count(m) && t == Stored(m, k, e)
    requires Progress(comp, m, d, snaps) && Progress(comp, t, d, snaps) && Written(comp, m, d, snaps, names)
    ensures Written(comp, t, d, snaps, names)
  {
    if comp.Writing? {
      StoredKeepsBelow(m, t, k, e, comp.pos);
      StoredKeepsBelow(m, t, k, e, m.commit + 1);
    }
  }

  lemma CommitMain(main: Dir, m: Image, t: Image, n: int, names: set<string>)
    requires Faithful(m) && m.commit <= n < Count(m) && t == m.(commit := n) && MainCurrent(main, m, names)
    ensures MainCurrent(Applied(main, m, m.commit + 1, n + 1), t, names)
  {
    var (lo, hi) := (m.commit + 1, n + 1);
    BuiltFurther(m, lo, hi);
    TextsReplay(main, Built(m, lo), m.log, lo - m.start, hi - m.start, names);
    assert Built(t, hi) == Built(m, hi);
  }

  /** What is built does not depend on the commit index. */
  lemma PartialUncommitted(m: Image, t: Image, n: int, ns: nat, pos: nat, slot: nat)
    requires m.start <= pos <= ns <= Count(m) && (pos < ns ==> slot <= |Writes(Read(m, pos))|) && t == m.(commit := n)
    ensures Partial(t, ns, pos, slot) == Partial(m, ns, pos, slot)
  {
    assert Built(t, pos) == Built(m, pos);
  }

  lemma CommitWritten(comp: Compaction, m: Image, t: Image, d: nat, snaps: map<nat, Dir>, n: int, names: set<string>)
    requires m.commit <= n < Count(m) && t == m.(commit := n)
    requires Progress(comp, m, d, snaps) && Progress(comp, t, d, snaps) && Written(comp, m, d, snaps, names)
    ensures Written(comp, t, d, snaps, names)
  {
    if comp.Writing? {
      PartialUncommitted(m, t, n, comp.newStart, comp.pos, comp.slot);
    }
  }

  lemma AtStart(m: Image, n: nat)
    requires m.start < n <= Count(m)
    ensures Partial(m, n, m.start, 0) == Replay(m.below)
  {
  }

  /** The copy of the base, file by file. */
  lemma CopyWritten(x: Node, y: Node, name: string)
    requires StorageInv(x) && Enabled(x, CopyBase) && Defined(x, CopyBase) && y == DoCopyBase(x) && name in x.names
    requires Complete(x.snaps, x.mem, x.names) && x.comp.extra == Surviving(x.snaps, x.mem.start, x.comp.newStart, x.names)
    ensures Text(y.snaps[x.comp.newStart], name) == Text(x.comp.extra, name) + Text(Replay(x.mem.below), name)
  {
    if x.mem.start == 0 {
      assert x.mem.below == [];
    }
    if name in x.comp.extra {
      assert Text(Replay(x.mem.below), name) == "";
      assert x.comp.extra[name] + "" == x.comp.extra[name];
    } else {
      assert "" + Text(Replay(x.mem.below), name) == Text(Replay(x.mem.below), name);
    }
  }

  lemma CopyBaseRight(x: Node, y: Node)
    requires StorageInv(x) && Enabled(x, CopyBase) && Defined(x, CopyBase) && y == DoCopyBase(x) && StorageInv(y)
    requires TextsRight(x)
    ensures TextsRight(y)
  {
    AtStart(x.mem, x.comp.newStart);
    forall name | name in x.names
      ensures Text(y.snaps[x.comp.newStart], name) == Text(x.comp.extra, name) + Text(Replay(x.mem.below), name)
    {
      CopyWritten(x, y, name);
    }
  }

  /** One more slot on both sides of the equality of texts. */
  lemma OneMoreSlot(d: Dir, base: Dir, ws: seq<FileWrite>, slot: nat, extra: string, name: string)
    requires slot < |ws| && Text(d, name) == extra + Text(AppendAll(base, ws[..slot]), name)
    ensures Text(Append(d, ws[slot]), name) == extra + Text(AppendAll(base, ws[..slot + 1]), name)
  {
    var w := ws[slot];
    assert ws[..slot + 1] == ws[..slot] + [w];
    AppendAllSnoc(base, ws[..slot], w);
    if w.name == name {
      TextsAssociate(extra, Text(AppendAll(base, ws[..slot]), name), w.text);
    }
  }

  lemma SlotWritten(m: Image, d: nat, snaps: map<nat, Dir>, ns: nat, pos: nat, slot: nat, extra: Dir, names: set<string>)
    requires Progress(Writing(ns, pos, slot, extra), m, d, snaps) && Written(Writing(ns, pos, slot, extra), m, d, snaps, names)
    requires pos < ns && slot < |Writes(Read(m, pos))|
    requires Progress(Writing(ns, pos, slot + 1, extra), m, d, snaps[ns := Append(snaps[ns], Writes(Read(m, pos))[slot])])
    ensures Written(Writing(ns, pos, slot + 1, extra), m, d, snaps[ns := Append(snaps[ns], Writes(Read(m, pos))[slot])], names)
  {
    var ws := Writes(Read(m, pos));
    forall name | name in names
      ensures Text(Append(snaps[ns], ws[slot]), name) == Text(extra, name) + Text(Partial(m, ns, pos, slot + 1), name)
    {
      OneMoreSlot(snaps[ns], Built(m, pos), ws, slot, Text(extra, name), name);
    }
  }

  lemma WriteSlotRight(x: Node, y: Node)
    requires StorageInv(x) && Enabled(x, WriteSlot) && Defined(x, WriteSlot) && y == DoWriteSlot(x) && StorageInv(y)
    requires TextsRight(x)
    ensures TextsRight(y)
  {
    SlotWritten(x.mem, x.disk.start, x.snaps, x.comp.newStart, x.comp.pos, x.comp.slot, x.comp.extra, x.names);
  }

  /** The end of one entry is the beginning of the next. */
  lemma PartialNext(m: Image, ns: nat, pos: nat, slot: nat)
    requires m.start <= pos < ns <= Count(m) && slot == |Writes(Read(m, pos))|
    ensures Partial(m, ns, pos, slot) == Partial(m, ns, pos + 1, 0)
  {
    var ws := Writes(Read(m, pos));
    assert ws[..|ws|] == ws;
    assert pos + 1 < ns ==> Writes(Read(m, pos + 1))[..0] == [];
  }

  lemma NextEntryRight(x: Node, y: Node)
    requires StorageInv(x) && Enabled(x, NextEntry) && y == Step(x, NextEntry) && StorageInv(y) && TextsRight(x)
    ensures TextsRight(y)
  {
    NextEntryWritten(x.comp, y.comp, x.mem, x.disk.start, x.snaps, x.names);
  }

  lemma NextEntryWritten(comp: Compaction, next: Compaction, m: Image, d: nat, snaps: map<nat, Dir>, names: set<string>)
    requires comp.Writing? && next == comp.(pos := comp.pos + 1, slot := 0)
    requires Progress(comp, m, d, snaps) && Progress(next, m, d, snaps) && Written(comp, m, d, snaps, names)
    requires comp.pos < comp.newStart && comp.slot == |Writes(Read(m, comp.pos))|
    ensures Written(next, m, d, snaps, names)
  {
    var (ns, pos, slot) := (comp.newStart, comp.pos, comp.slot);
    var built := Partial(m, ns, pos, slot);
    PartialNext(m, ns, pos, slot);
    WrittenIs(comp, m, d, snaps, names, built);
    WrittenIs(next, m, d, snaps, names, built);
  }

  lemma WrittenIs(comp: Compaction, m: Image, d: nat, snaps: map<nat, Dir>, names: set<string>, built: Dir)
    requires comp.Writing? && Progress(comp, m, d, snaps) && built == Partial(m, comp.newStart, comp.pos, comp.slot)
    ensures Written(comp, m, d, snaps, names)
       <==> comp.extra.Keys <= names && Behind(snaps[comp.newStart], comp.extra, built, names)
  {
  }

  lemma ShiftMain(main: Dir, m: Image, t: Image, k: nat, names: set<string>)
    requires Faithful(m) && m.start < k <= m.commit + 1 && t == ShiftedTo(m, k) && MainCurrent(main, m, names)
    ensures Faithful(t) && MainCurrent(main, t, names)
  {
    ShiftFaithful(m, t, k);
    ShiftedBuilt(m, t, k, m.commit + 1);
  }

  lemma ShiftFaithful(m: Image, t: Image, k: nat)
    requires Faithful(m) && m.start < k <= m.commit + 1 && t == ShiftedTo(m, k)
    ensures Faithful(t) && t.commit == m.commit
  {
  }

  lemma BehindNothing(extra: string, text: string)
    ensures extra + text == text <==> extra == ""
  {
    assert |extra + text| == |extra| + |text|;
  }

  /** The new snapshot is complete exactly if nothing has survived in it. */
  lemma ShiftCompleteIff(x: Node, y: Node)
    requires StorageInv(x) && Enabled(x, Shift) && Defined(x, Shift) && y == DoShift(x)
    requires Written(x.comp, x.mem, x.disk.start, x.snaps, x.names)
    ensures Complete(y.snaps, y.mem, y.names) <==> !Spoils(x, Shift)
  {
    var (m, ns, extra) := (x.mem, x.comp.newStart, x.comp.extra);
    ShiftedBuilt(m, y.mem, ns, ns);
    forall name | name in x.names
      ensures Text(x.snaps[ns], name) == Text(Replay(y.mem.below), name) <==> Text(extra, name) == ""
    {
      BehindNothing(Text(extra, name), Text(Replay(y.mem.below), name));
    }
  }

  lemma ShiftRight(x: Node, y: Node)
    requires StorageInv(x) && Enabled(x, Shift) && Defined(x, Shift) && y == DoShift(x) && StorageInv(y)
    requires TextsRight(x) && !Spoils(x, Shift)
    ensures TextsRight(y)
  {
    ShiftMain(x.main, x.mem, y.mem, x.comp.newStart, x.names);
    ShiftCompleteIff(x, y);
  }

  lemma BaseRebuilt(d: Image, snaps: map<nat, Dir>, junk: Dir, names: set<string>)
    requires Faithful(d) && Complete(snaps, d, names)
    ensures forall name :: name in names ==>
      Text(RestoredBase(d.start, snaps, junk, names), name) == Text(Replay(d.below), name)
  {
    forall name | name in names
      ensures Text(RestoredBase(d.start, snaps, junk, names), name) == Text(Replay(d.below), name)
    {
      if d.start == 0 {
        assert d.below == [];
      }
    }
  }

  /** A crash at any moment: the files that come back are those of the saved commit index. */
  lemma RestoreRebuilds(d: Image, snaps: map<nat, Dir>, junk: Dir, names: set<string>)
    requires Faithful(d) && Complete(snaps, d, names)
    ensures MainCurrent(RestoredFiles(d, snaps, junk, names), d, names)
  {
    BaseRebuilt(d, snaps, junk, names);
    TextsReplay(RestoredBase(d.start, snaps, junk, names), Replay(d.below), d.log, 0, d.commit + 1 - d.start, names);
  }

  lemma RestRight(x: Node, y: Node, a: Action)
    requires StorageInv(x) && Enabled(x, a) && Defined(x, a) && y == Step(x, a) && StorageInv(y) && TextsRight(x)
    requires a.Save? || a.Begin? || a.RemoveOutdated?
    ensures TextsRight(y)
  {
    if a.RemoveOutdated? && (x.comp.Begun? || x.comp.Made?) {
      assert Surviving(y.snaps, y.mem.start, y.comp.newStart, y.names) == Surviving(x.snaps, x.mem.start, x.comp.newStart, x.names);
    }
  }

  lemma MakeDirRight(x: Node, y: Node)
    requires StorageInv(x) && Enabled(x, MakeDir) && y == DoMakeDir(x) && StorageInv(y) && TextsRight(x)
    ensures TextsRight(y)
  {
    assert Surviving(y.snaps, y.mem.start, y.comp.newStart, y.names) == Surviving(x.snaps, x.mem.start, x.comp.newStart, x.names);
  }

  lemma StoreRight(x: Node, y: Node, k: nat, e: Entry)
    requires StorageInv(x) && Enabled(x, Store(k, e)) && Defined(x, Store(k, e)) && y == DoStore(x, k, e) && StorageInv(y)
    requires TextsRight(x)
    ensures TextsRight(y)
  {
    StoreMain(x.main, x.mem, y.mem, k, e, x.names);
    SameBelowComplete(x.snaps, x.mem, y.mem, x.names);
    StoreWritten(x.comp, x.mem, y.mem, x.disk.start, x.snaps, k, e, x.names);
  }

  lemma CommitRight(x: Node, y: Node, n: int)
    requires StorageInv(x) && Enabled(x, Commit(n)) && Defined(x, Commit(n)) && y == DoCommit(x, n) && StorageInv(y)
    requires TextsRight(x)
    ensures TextsRight(y)
  {
    CommitMain(x.main, x.mem, y.mem, n, x.names);
    SameBelowComplete(x.snaps, x.mem, y.mem, x.names);
    CommitWritten(x.comp, x.mem, y.mem, x.disk.start, x.snaps, n, x.names);
  }

  lemma SameBelowComplete(snaps: map<nat, Dir>, m: Image, t: Image, names: set<string>)
    requires t.start == m.start && t.below == m.below && Complete(snaps, m, names)
    ensures Complete(snaps, t, names)
  {
  }

  lemma CrashRight(x: Node, y: Node, junk: Dir)
    requires StorageInv(x) && Defined(x, Crash(junk)) && y == DoCrash(x, junk) && StorageInv(y) && TextsRight(x)
    ensures TextsRight(y)
  {
    RestoreRebuilds(x.disk, x.snaps, junk, x.names);
  }

  /** Texts stay right, but for a compaction that ends with text that has survived. */
  lemma StepKeepsTexts(x: Node, a: Action)
    requires StorageInv(x) && Enabled(x, a) && Defined(x, a) && StorageInv(Step(x, a)) && TextsRight(x) && !Spoils(x, a)
    ensures TextsRight(Step(x, a))
  {
    var y := Step(x, a);
    match a
    case Store(k, e) => StoreRight(x, y, k, e);
    case Commit(n) => CommitRight(x, y, n);
    case MakeDir => MakeDirRight(x, y);
    case CopyBase => CopyBaseRight(x, y);
    case WriteSlot => WriteSlotRight(x, y);
    case NextEntry => NextEntryRight(x, y);
    case Shift => ShiftRight(x, y);
    case Crash(junk) => CrashRight(x, y, junk);
    case _ => RestRight(x, y, a);
  }

  // ---------------------------------------------------------------------------
  // The same server without compaction

  /** A log that is never compacted: all entries, the commit index, and what is saved of them. */
  datatype Plain = Plain(entries: seq<Entry>, commit: int, savedEntries: seq<Entry>, savedCommit: int)

  predicate Compacts(a: Action) {
    a.Begin? || a.MakeDir? || a.CopyBase? || a.WriteSlot? || a.NextEntry? || a.Shift? || a.RemoveOutdated?
  }

  function PlainStep(p: Plain, a: Action): Plain {
    match a
    case Store(k, e) => if k <= |p.entries| then p.(entries := p.entries[..k] + [e]) else p
    case Commit(n) => p.(commit := n)
    case Save => p.(savedEntries := p.entries, savedCommit := p.commit)
    case Crash(junk) => p.(entries := p.savedEntries, commit := p.savedCommit)
    case _ => p
  }

  function PlainRun(actions: seq<Action>): Plain
    decreases |actions|
  {
    if actions == [] then Plain([], -1, [], -1)
    else PlainStep(PlainRun(actions[..|actions| - 1]), actions[|actions| - 1])
  }

  /** The run with everything that concerns compaction taken out. */
  function Erase(actions: seq<Action>): seq<Action>
    decreases |actions|
  {
    if actions == [] then []
    else
      var (init, last) := (actions[..|actions| - 1], actions[|actions| - 1]);
      if Compacts(last) then Erase(init) else Erase(init) + [last]
  }

  lemma {:induction false} ErasedRunIsSame(actions: seq<Action>)
    ensures PlainRun(Erase(actions)) == PlainRun(actions)
    decreases |actions|
  {
    if actions != [] {
      var (init, last) := (actions[..|actions| - 1], actions[|actions| - 1]);
      ErasedRunIsSame(init);
      if !Compacts(last) {
        assert (Erase(init) + [last])[..|Erase(init)|] == Erase(init);
      }
    }
  }

  function View(x: Node): Plain {
    Plain(All(x.mem), x.mem.commit, All(x.disk), x.disk.commit)
  }

  lemma StepRefines(x: Node, a: Action)
    requires StorageInv(x) && Enabled(x, a) && Defined(x, a)
    ensures View(Step(x, a)) == PlainStep(View(x), a)
  {
    match a
    case Store(k, e) => StoreRefines(x, k, e);
    case Shift => ShiftRefines(x);
    case _ =>
  }

  lemma StoreRefines(x: Node, k: nat, e: Entry)
    requires Faithful(x.mem) && x.mem.start <= k <= Count(x.mem)
    ensures View(DoStore(x, k, e)) == PlainStep(View(x), Store(k, e))
  {
    StoreView(x.mem, k, e);
  }

  lemma ShiftRefines(x: Node)
    requires Faithful(x.mem) && x.comp.Writing? && x.mem.start <= x.comp.newStart <= Count(x.mem)
    ensures View(DoShift(x)) == View(x)
  {
    ShiftInvisible(x.mem, x.comp.newStart);
  }

  lemma StoreView(m: Image, k: nat, e: Entry)
    requires Faithful(m) && m.start <= k <= Count(m)
    ensures All(Stored(m, k, e)) == All(m)[..k] + [e]
  {
    assert (m.below + m.log)[..k] == m.below + m.log[..k - m.start];
  }

  // ---------------------------------------------------------------------------
  // Runs

  predicate IsRun(names: set<string>, states: seq<Node>, actions: seq<Action>) {
    && |states| == |actions| + 1
    && states[0] == Start(names)
    && (forall n :: 0 <= n < |actions| ==>
          Enabled(states[n], actions[n]) && Defined(states[n], actions[n])
          && states[n + 1] == Step(states[n], actions[n]))
  }

  lemma StartKeeps(names: set<string>)
    ensures StorageInv(Start(names)) && TextsRight(Start(names)) && View(Start(names)) == PlainRun([])
  {
    assert All(Start(names).mem) == [];
  }

  lemma {:induction false} RunKeeps(names: set<string>, states: seq<Node>, actions: seq<Action>, n: nat)
    requires IsRun(names, states, actions) && n < |states|
    ensures StorageInv(states[n]) && states[n].names == names
  {
    if n == 0 {
      StartKeeps(names);
    } else {
      RunKeeps(names, states, actions, n - 1);
      StepKeeps(states[n - 1], actions[n - 1]);
      NamesStay(states[n - 1], actions[n - 1]);
    }
  }

  lemma NamesStay(x: Node, a: Action)
    requires Enabled(x, a) && Defined(x, a)
    ensures Step(x, a).names == x.names
  {
  }

  lemma {:induction false} RunRefines(names: set<string>, states: seq<Node>, actions: seq<Action>, n: nat)
    requires IsRun(names, states, actions) && n < |states|
    ensures View(states[n]) == PlainRun(actions[..n])
  {
    if n == 0 {
      StartKeeps(names);
    } else {
      RunRefines(names, states, actions, n - 1);
      RunKeeps(names, states, actions, n - 1);
      StepRefines(states[n - 1], actions[n - 1]);
      assert actions[..n][..n - 1] == actions[..n - 1];
    }
  }

  lemma RunErased(names: set<string>, states: seq<Node>, actions: seq<Action>, n: nat)
    requires IsRun(names, states, actions) && n < |states|
    ensures StorageInv(states[n]) && states[n].names == names && View(states[n]) == PlainRun(Erase(actions[..n]))
  {
    RunKeeps(names, states, actions, n);
    RunRefines(names, states, actions, n);
    ErasedRunIsSame(actions[..n]);
  }

  /**
    Compaction is invisible: after any run, every position that the window holds
    reads as it does in the run without its compactions, and so does the commit
    index.
  */
  lemma CompactionInvisible(names: set<string>, states: seq<Node>, actions: seq<Action>, n: nat)
    requires IsRun(names, states, actions) && n < |states|
    ensures var (x, p) := (states[n], PlainRun(Erase(actions[..n])));
      && x.mem.commit == p.commit && Count(x.mem) == |p.entries|
      && forall k :: x.mem.start <= k < Count(x.mem) ==> Read(x.mem, k) == p.entries[k]
  {
    RunErased(names, states, actions, n);
    assert View(states[n]).entries == All(states[n].mem);
  }

  // ---------------------------------------------------------------------------
  // Exactly when the snapshots are complete

  /** Every window up to moment n, in memory or on disk, begins with a complete snapshot. */
  ghost predicate AlwaysComplete(states: seq<Node>, n: nat)
    requires n < |states|
  {
    forall m: nat :: m <= n ==>
      Complete(states[m].snaps, states[m].mem, states[m].names) && Complete(states[m].snaps, states[m].disk, states[m].names)
  }

  ghost predicate NeverSpoils(states: seq<Node>, actions: seq<Action>, n: nat)
    requires n <= |actions| && n < |states|
  {
    forall k: nat :: k < n ==> !Spoils(states[k], actions[k])
  }

  lemma {:induction false} SpoilsOrRight(names: set<string>, states: seq<Node>, actions: seq<Action>, n: nat)
    requires IsRun(names, states, actions) && n < |states|
    ensures StorageInv(states[n])
    ensures NeverSpoils(states, actions, n) ==> TextsRight(states[n])
    ensures AlwaysComplete(states, n) <==> NeverSpoils(states, actions, n)
  {
    RunKeeps(names, states, actions, n);
    if n == 0 {
      StartKeeps(names);
    } else {
      SpoilsOrRight(names, states, actions, n - 1);
      if NeverSpoils(states, actions, n - 1) {
        RunKeeps(names, states, actions, n - 1);
        if Spoils(states[n - 1], actions[n - 1]) {
          ShiftCompleteIff(states[n - 1], states[n]);
        } else {
          StepKeepsTexts(states[n - 1], actions[n - 1]);
        }
      }
    }
  }

  /**
    The compaction that begins at step j finds, in a directory of its id, text in
    a managed file that its base lacks.
  */
  predicate FindsText(x: Node, a: Action) {
    && a.Begin?
    && exists name :: name in Surviving(x.snaps, x.mem.start, a.newStart, x.names)
         && Surviving(x.snaps, x.mem.start, a.newStart, x.names)[name] != ""
  }

  /** The compaction that is under way at moment n began at step j. */
  ghost predicate Began(states: seq<Node>, actions: seq<Action>, j: nat, n: nat) {
    && j < n <= |actions| < |states| && actions[j].Begin?
    && forall i :: j < i < n ==> !actions[i].Begin? && !actions[i].Shift? && !actions[i].Crash?
  }

  predicate UnderWay(comp: Compaction) {
    comp.Begun? || comp.Made? || comp.Writing?
  }

  lemma CompactionGoesOn(x: Node, a: Action, y: Node)
    requires Enabled(x, a) && Defined(x, a) && y == Step(x, a) && UnderWay(y.comp)
    ensures if a.Begin? then y.comp.extra == Surviving(x.snaps, x.mem.start, a.newStart, x.names)
      else UnderWay(x.comp) && y.comp.extra == x.comp.extra && !a.Shift? && !a.Crash?
  {
  }

  lemma {:induction false} BeganSomewhere(names: set<string>, states: seq<Node>, actions: seq<Action>, n: nat) returns (j: nat)
    requires IsRun(names, states, actions) && n < |states|
    requires UnderWay(states[n].comp)
    ensures Began(states, actions, j, n)
    ensures states[n].comp.extra == Surviving(states[j].snaps, states[j].mem.start, actions[j].newStart, states[j].names)
  {
    CompactionGoesOn(states[n - 1], actions[n - 1], states[n]);
    if actions[n - 1].Begin? {
      j := n - 1;
    } else {
      j := BeganSomewhere(names, states, actions, n - 1);
    }
  }

  /** What a compaction has found at its begin survives at its end. */
  lemma EndsAsItBegan(names: set<string>, states: seq<Node>, actions: seq<Action>, j: nat, k: nat)
    requires IsRun(names, states, actions) && k < |actions| && Began(states, actions, j, k) && actions[k].Shift?
    ensures Spoils(states[k], actions[k]) <==> FindsText(states[j], actions[j])
  {
    var i := BeganSomewhere(names, states, actions, k);
    assert i == j;
  }

  /** No compaction that finds such text has run to its end. */
  ghost predicate Undisturbed(states: seq<Node>, actions: seq<Action>, n: nat)
    requires n <= |actions| < |states|
  {
    forall j: nat, k: nat :: k < n && Began(states, actions, j, k) && actions[k].Shift? ==> !FindsText(states[j], actions[j])
  }

  /**
    Every snapshot that a window begins with is complete at every moment, if and
    only if no compaction runs to its end that began with text, in a directory of
    its id, in a managed file that its base lacks.
  */
  lemma SnapshotsCompleteIff(names: set<string>, states: seq<Node>, actions: seq<Action>, n: nat)
    requires IsRun(names, states, actions) && n < |states|
    ensures AlwaysComplete(states, n) <==> Undisturbed(states, actions, n)
  {
    SpoilsOrRight(names, states, actions, n);
    forall j: nat, k: nat | k < n && Began(states, actions, j, k) && actions[k].Shift?
      ensures Spoils(states[k], actions[k]) <==> FindsText(states[j], actions[j])
    {
      EndsAsItBegan(names, states, actions, j, k);
    }
    forall k: nat | k < n && actions[k].Shift?
      ensures exists j: nat :: Began(states, actions, j, k)
    {
      var j := BeganSomewhere(names, states, actions, k);
    }
  }

  /**
    No directory is left over for good below position 100: each is the snapshot of
    a window, or about to be removed, or being built.
  */
  ghost predicate NoLitter(x: Node) {
    forall id :: id in x.snaps ==>
      && id > 0
      && (|| id == x.mem.start || id == x.disk.start || id in x.outdated || id >= 100
          || (UnderWay(x.comp) && id == x.comp.newStart))
  }

  lemma {:induction false} FindsTextOnlyFar(names: set<string>, states: seq<Node>, actions: seq<Action>, n: nat)
    requires IsRun(names, states, actions) && n < |states|
    ensures NoLitter(states[n])
    ensures n < |actions| && FindsText(states[n], actions[n]) ==> actions[n].newStart >= 100
  {
    if n > 0 {
      FindsTextOnlyFar(names, states, actions, n - 1);
      RunKeeps(names, states, actions, n - 1);
      StepKeepsTidy(states[n - 1], actions[n - 1]);
    }
  }

  lemma StepKeepsTidy(x: Node, a: Action)
    requires StorageInv(x) && Enabled(x, a) && Defined(x, a) && NoLitter(x)
    ensures NoLitter(Step(x, a))
  {
  }

  lemma UndisturbedIsRight(names: set<string>, states: seq<Node>, actions: seq<Action>, n: nat)
    requires IsRun(names, states, actions) && n < |states| && Undisturbed(states, actions, n)
    ensures StorageInv(states[n]) && TextsRight(states[n])
  {
    SnapshotsCompleteIff(names, states, actions, n);
    SpoilsOrRight(names, states, actions, n);
  }

  /**
    Files agree with the log: after any run that no leftover directory disturbs,
    the main files read as the replay, in order and once each, of all
    transactions committed in the run without its compactions.
  */
  lemma FilesAgree(names: set<string>, states: seq<Node>, actions: seq<Action>, n: nat)
    requires IsRun(names, states, actions) && n < |states| && Undisturbed(states, actions, n)
    ensures var p := PlainRun(Erase(actions[..n]));
      && 0 <= p.commit + 1 <= |p.entries|
      && Texts(states[n].main, names) == Texts(ReplayFirst(p.entries, p.commit + 1), names)
  {
    RunErased(names, states, actions, n);
    UndisturbedIsRight(names, states, actions, n);
    MainIsReplay(states[n].main, states[n].mem, names);
  }

  lemma MainIsReplay(main: Dir, m: Image, names: set<string>)
    requires Faithful(m) && MainCurrent(main, m, names)
    ensures Texts(main, names) == Texts(ReplayFirst(All(m), m.commit + 1), names)
  {
    BuiltIsReplay(m, m.commit + 1);
    SameTextsIff(main, Built(m, m.commit + 1), names);
  }

  lemma DiskConsistent(d: Image, snaps: map<nat, Dir>, junk: Dir, names: set<string>)
    requires Faithful(d) && Complete(snaps, d, names)
    ensures d.start != 0 ==> Texts(snaps[d.start], names) == Texts(ReplayFirst(All(d), d.start), names)
    ensures Texts(RestoredFiles(d, snaps, junk, names), names) == Texts(ReplayFirst(All(d), d.commit + 1), names)
  {
    RestoreRebuilds(d, snaps, junk, names);
    MainIsReplay(RestoredFiles(d, snaps, junk, names), d, names);
    if d.start != 0 {
      ReplayHead(map[], d.below, d.log, 0, d.start);
      SameTextsIff(snaps[d.start], Replay(d.below), names);
    }
  }

  /** What a crash in state x comes back to, when p is all that the uncompacted server has saved. */
  ghost predicate ComesBack(x: Node, p: Plain, junk: Dir) {
    && Defined(x, Crash(junk))
    && 0 <= x.disk.start <= p.savedCommit + 1 <= |p.savedEntries|
    && (x.disk.start != 0 ==>
          Texts(x.snaps[x.disk.start], x.names) == Texts(ReplayFirst(p.savedEntries, x.disk.start), x.names))
    && Texts(DoCrash(x, junk).main, x.names) == Texts(ReplayFirst(p.savedEntries, p.savedCommit + 1), x.names)
  }

  lemma DiskComesBack(x: Node, junk: Dir)
    requires Faithful(x.disk) && Complete(x.snaps, x.disk, x.names)
    ensures ComesBack(x, View(x), junk)
  {
    DiskConsistent(x.disk, x.snaps, junk, x.names);
  }

  /**
    Crash consistency: whatever the moment of a crash, unless a leftover directory
    has disturbed the run, the saved start names a snapshot that is the replay of
    everything below it, and the restored files are the replay of everything up
    to the saved commit index.
  */
  lemma CrashConsistent(names: set<string>, states: seq<Node>, actions: seq<Action>, n: nat, junk: Dir)
    requires IsRun(names, states, actions) && n < |states| && Undisturbed(states, actions, n)
    ensures ComesBack(states[n], PlainRun(Erase(actions[..n])), junk)
  {
    RunErased(names, states, actions, n);
    UndisturbedIsRight(names, states, actions, n);
    DiskComesBack(states[n], junk);
  }
}
