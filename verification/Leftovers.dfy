/**
  A run in which a leftover directory spoils a snapshot: what
  `Storage.SnapshotsCompleteIff` excludes is something that happens. The windows
  are those of the program: a compaction of fifty entries once sixty are committed.
*/
module Leftovers {
  import opened RaftTypes
  import opened Files
  import opened Storage

  function Loud(): Entry {
    Entry(1, ClientLog, 1, 7, [FileWrite("file_0", "x")])
  }

  /** A transaction that writes nothing. */
  function Quiet(): Entry {
    Entry(1, ClientLog, 2, 7, [])
  }

  function Quiets(n: nat): (es: seq<Entry>)
    ensures |es| == n && forall k :: 0 <= k < n ==> es[k] == Quiet()
  {
    seq(n, k => Quiet())
  }

  lemma LoudWrites()
    ensures Writes(Loud()) == [FileWrite("file_0", "x")]
  {
    var data := Loud().data;
    assert Used(data, 1) == 0 && Used(data, 0) == 1;
  }

  // ---------------------------------------------------------------------------
  // Runs written down step by step

  /** The run is at a node with this memory, disk and snapshots, and this far in its compaction. */
  ghost predicate At(names: set<string>, states: seq<Node>, actions: seq<Action>,
               mem: Image, disk: Image, snaps: map<nat, Dir>, comp: Compaction)
  {
    && IsRun(names, states, actions)
    && var x := states[|actions|];
       x.mem == mem && x.disk == disk && x.snaps == snaps && x.comp == comp && x.names == names
  }

  lemma Extend(names: set<string>, states: seq<Node>, actions: seq<Action>, a: Action)
    returns (more: seq<Node>, acts: seq<Action>)
    requires IsRun(names, states, actions) && Enabled(states[|actions|], a) && Defined(states[|actions|], a)
    ensures IsRun(names, more, acts) && acts == actions + [a]
    ensures more == states + [Step(states[|actions|], a)]
  {
    more, acts := states + [Step(states[|actions|], a)], actions + [a];
  }

  lemma StoreAll(names: set<string>, states: seq<Node>, actions: seq<Action>, mem: Image, disk: Image,
                 snaps: map<nat, Dir>, es: seq<Entry>)
    returns (more: seq<Node>, acts: seq<Action>)
    requires At(names, states, actions, mem, disk, snaps, Idle) && mem.commit < Count(mem)
    ensures At(names, more, acts, mem.(log := mem.log + es), disk, snaps, Idle)
    decreases |es|
  {
    if es == [] {
      more, acts := states, actions;
      assert mem.log + [] == mem.log;
    } else {
      more, acts := Extend(names, states, actions, Store(Count(mem), es[0]));
      var next := mem.(log := mem.log + [es[0]]);
      assert mem.log[..Count(mem) - mem.start] == mem.log;
      more, acts := StoreAll(names, more, acts, next, disk, snaps, es[1..]);
      assert (mem.log + [es[0]]) + es[1..] == mem.log + es;
    }
  }

  /** All that is in the window is committed and saved. */
  lemma CommitAll(names: set<string>, states: seq<Node>, actions: seq<Action>, mem: Image, disk: Image, snaps: map<nat, Dir>)
    returns (more: seq<Node>, acts: seq<Action>)
    requires At(names, states, actions, mem, disk, snaps, Idle) && Faithful(mem) && mem.commit < Count(mem)
    requires |mem.log| > 0
    ensures var done := mem.(commit := Count(mem) - 1); At(names, more, acts, done, done, snaps, Idle)
  {
    more, acts := Extend(names, states, actions, Commit(Count(mem) - 1));
    more, acts := Extend(names, more, acts, Save);
  }

  /** A compaction comes to its first entry; there is a base, or no file of it. */
  lemma CompactionStarts(names: set<string>, states: seq<Node>, actions: seq<Action>, mem: Image, disk: Image,
                         snaps: map<nat, Dir>, ns: nat)
    returns (more: seq<Node>, acts: seq<Action>)
    requires At(names, states, actions, mem, disk, snaps, Idle) && mem.start < ns <= mem.commit + 1
    requires mem.start != 0 ==> mem.start in snaps && snaps[mem.start] == map[]
    ensures var made := if ns in snaps then snaps else snaps[ns := map[]];
      At(names, more, acts, mem, disk, made, Writing(ns, mem.start, 0, Surviving(snaps, mem.start, ns, names)))
  {
    more, acts := Extend(names, states, actions, Begin(ns));
    more, acts := Extend(names, more, acts, MakeDir);
    ghost var made := if ns in snaps then snaps else snaps[ns := map[]];
    assert Copy(map[], made[ns], names) == made[ns];
    assert made[ns := made[ns]] == made;
    more, acts := Extend(names, more, acts, CopyBase);
  }

  /** The next n entries write nothing. */
  lemma SkipQuiet(names: set<string>, states: seq<Node>, actions: seq<Action>, mem: Image, disk: Image,
                  snaps: map<nat, Dir>, ns: nat, pos: nat, n: nat, extra: Dir)
    returns (more: seq<Node>, acts: seq<Action>)
    requires At(names, states, actions, mem, disk, snaps, Writing(ns, pos, 0, extra))
    requires mem.start <= pos && pos + n <= ns <= Count(mem) && forall k :: pos <= k < pos + n ==> Read(mem, k) == Quiet()
    ensures At(names, more, acts, mem, disk, snaps, Writing(ns, pos + n, 0, extra))
    decreases n
  {
    if n == 0 {
      more, acts := states, actions;
    } else {
      assert Writes(Read(mem, pos)) == [];
      more, acts := Extend(names, states, actions, NextEntry);
      more, acts := SkipQuiet(names, more, acts, mem, disk, snaps, ns, pos + 1, n - 1, extra);
    }
  }

  // ---------------------------------------------------------------------------
  // The run

  /** Sixty quiet transactions, of which fifty are compacted. */
  const FIRST := Image(50, Quiets(10), 59, Quiets(50))

  lemma FirstCompaction(names: set<string>) returns (states: seq<Node>, actions: seq<Action>)
    ensures At(names, states, actions, FIRST, FIRST, map[50 := map[]], Idle)
  {
    var start := Image(0, [], -1, []);
    states, actions := [Storage.Start(names)], [];
    states, actions := StoreAll(names, states, actions, start, start, map[], Quiets(60));
    assert [] + Quiets(60) == Quiets(60);
    var full := Image(0, Quiets(60), 59, []);
    states, actions := CommitAll(names, states, actions, start.(log := Quiets(60)), start, map[]);
    states, actions := CompactionStarts(names, states, actions, full, full, map[], 50);
    ghost var extra := Surviving(map[], 0, 50, names);
    states, actions := SkipQuiet(names, states, actions, full, full, map[50 := map[]], 50, 0, 50, extra);
    states, actions := Extend(names, states, actions, Shift);
    assert Quiets(60)[50..] == Quiets(10) && [] + Quiets(60)[..50] == Quiets(50);
    states, actions := Extend(names, states, actions, Save);
  }

  /** Fifty more, of which the first writes to file_0. */
  const SECOND := Image(50, Quiets(10) + [Loud()] + Quiets(49), 109, Quiets(50))

  lemma SecondReads()
    ensures Faithful(SECOND) && Count(SECOND) == 110 && Read(SECOND, 60) == Loud()
    ensures forall k :: 50 <= k < 110 && k != 60 ==> Read(SECOND, k) == Quiet()
  {
  }

  lemma SecondCommitted(names: set<string>) returns (states: seq<Node>, actions: seq<Action>)
    ensures At(names, states, actions, SECOND, SECOND, map[50 := map[]], Idle)
  {
    states, actions := FirstCompaction(names);
    states, actions := StoreAll(names, states, actions, FIRST, FIRST, map[50 := map[]], [Loud()] + Quiets(49));
    assert Quiets(10) + ([Loud()] + Quiets(49)) == Quiets(10) + [Loud()] + Quiets(49);
    states, actions := CommitAll(names, states, actions, SECOND.(commit := 59), FIRST, map[50 := map[]]);
  }

  /** A compaction towards position 100 gets as far as the entry that writes. */
  lemma ReachesLoud(names: set<string>, states: seq<Node>, actions: seq<Action>, before: map<nat, Dir>, text: string)
    returns (more: seq<Node>, acts: seq<Action>)
    requires At(names, states, actions, SECOND, SECOND, before, Idle)
    requires 50 in before && before[50] == map[] && text == (if 100 in before then Text(before[100], "file_0") else "")
    requires 100 in before ==> before[100] == map["file_0" := text]
    ensures At(names, more, acts, SECOND, SECOND, before[100 := map["file_0" := text + "x"]],
               Writing(100, 60, 1, Surviving(before, 50, 100, names)))
  {
    SecondReads();
    LoudWrites();
    ghost var extra := Surviving(before, 50, 100, names);
    ghost var made := if 100 in before then before else before[100 := map[]];
    more, acts := CompactionStarts(names, states, actions, SECOND, SECOND, before, 100);
    more, acts := SkipQuiet(names, more, acts, SECOND, SECOND, made, 100, 50, 10, extra);
    more, acts := Extend(names, more, acts, WriteSlot);
    assert Append(made[100], FileWrite("file_0", "x")) == map["file_0" := text + "x"];
    assert made[100 := map["file_0" := text + "x"]] == before[100 := map["file_0" := text + "x"]];
  }

  const LEFT: map<nat, Dir> := map[50 := map[], 100 := map["file_0" := "x"]]

  /** A crash cuts the compaction short, and the restart does not clear its directory. */
  lemma CutShort(names: set<string>) returns (states: seq<Node>, actions: seq<Action>)
    ensures At(names, states, actions, SECOND, SECOND, LEFT, Idle)
  {
    states, actions := SecondCommitted(names);
    states, actions := ReachesLoud(names, states, actions, map[50 := map[]], "");
    assert "" + "x" == "x";
    assert Swept(LEFT, 50) == LEFT;
    SecondReads();
    states, actions := Extend(names, states, actions, Crash(map[]));
  }

  const TWICE: map<nat, Dir> := map[50 := map[], 100 := map["file_0" := "xx"]]

  lemma DoneAgain(names: set<string>) returns (states: seq<Node>, actions: seq<Action>)
    ensures At(names, states, actions, SECOND, SECOND, TWICE, Writing(100, 100, 0, Surviving(LEFT, 50, 100, names)))
  {
    states, actions := CutShort(names);
    states, actions := ReachesLoud(names, states, actions, LEFT, "x");
    SecondReads();
    LoudWrites();
    ghost var extra := Surviving(LEFT, 50, 100, names);
    assert "x" + "x" == "xx" && LEFT[100 := map["file_0" := "xx"]] == TWICE;
    states, actions := Extend(names, states, actions, NextEntry);
    states, actions := SkipQuiet(names, states, actions, SECOND, SECOND, TWICE, 100, 61, 39, extra);
  }

  /**
    The next compaction to the same position begins with the text of the
    directory and runs to its end: the window begins with a snapshot that has the
    text twice.
  */
  lemma LeftoverSpoils(names: set<string>) returns (states: seq<Node>, actions: seq<Action>)
    requires "file_0" in names
    ensures IsRun(names, states, actions) && !AlwaysComplete(states, |actions|)
    ensures var x := states[|actions|]; x.mem.start == 100 && 100 in x.snaps && Text(x.snaps[100], "file_0") == "xx"
  {
    states, actions := DoneAgain(names);
    ghost var k := |actions|;
    var j := BeganSomewhere(names, states, actions, k);
    assert Surviving(LEFT, 50, 100, names)["file_0"] == "x";
    SecondReads();
    states, actions := Extend(names, states, actions, Shift);
    Disturbed(names, states, actions, j, k);
  }

  lemma Disturbed(names: set<string>, states: seq<Node>, actions: seq<Action>, j: nat, k: nat)
    requires IsRun(names, states, actions) && |actions| == k + 1 && actions[k].Shift?
    requires Began(states, actions, j, k) && FindsText(states[j], actions[j])
    ensures !AlwaysComplete(states, |actions|)
  {
    SnapshotsCompleteIff(names, states, actions, k + 1);
  }
}
