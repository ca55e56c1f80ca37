/**
  A run in which a late copy of an append makes a follower apply a transaction
  twice, and one in which a restart doubles a file: `CommitIndex.CommitGoesBackIff`
  and `RunFiles.FilesRightIff` are about something that happens.
*/
module LateCopies {
  import opened RaftTypes
  import opened ServerSpec
  import opened Cluster
  import opened Files
  import opened Scenes
  import opened RunFiles

  function Loud(): Entry {
    Entry(1, ClientLog, 1, 7, [FileWrite("file_0", "x"), FileWrite("notes.txt", "y")])
  }

  function Quiet(): Entry {
    Entry(1, ClientLog, 2, 7, [])
  }

  function Three(): seq<Entry> {
    [First(), Loud(), Quiet()]
  }

  /** The leader with three entries, which followers 1 and 2 have or not. */
  function WithThree(counts: seq<int>, commit: int, nexts: seq<int>, requests: seq<int>, held: seq<nat>): View {
    View(1, 3, Three(), counts, commit, nexts, requests, held)
  }

  lemma TwoAdded(mode: Delivery, capacity: nat) returns (states: seq<Cluster>, actions: seq<Action>)
    requires capacity >= 3
    ensures IsWholeLogRun(mode, capacity, states, actions)
    ensures Leads(states[|actions|], V0)
    ensures Has(states[|actions|], 1, Copy(1, [], -1), 3) && Has(states[|actions|], 2, Copy(1, [], -1), 3)
    ensures Has(states[|actions|], 3, Copy(0, [], -1), 3)
  {
    EntriesEvaluate();
    states, actions := FirstElection(mode, capacity, 3);
    states, actions := ClientAdds(mode, capacity, states, actions, FirstView(3), Loud());
    states, actions := ClientAdds(mode, capacity, states, actions, WithLoud(), Quiet());
  }

  function WithLoud(): View {
    View(1, 3, [First(), Loud()], [1, 1], -1, [1, 1, 1, 1, 1], [0, 0, 0, 0, 0], [2, 0, 0, 0, 0])
  }

  lemma EntriesEvaluate()
    ensures WithEntry(FirstView(3), Loud()) == WithLoud() && WithEntry(WithLoud(), Quiet()) == V0
  {
  }

  /** A follower of term 1 with the first n entries. */
  function Holding(n: nat, commit: int): Copy
    requires n <= 3
  {
    PrefixOf(1, Three(), n, commit)
  }

  const V0 := WithThree([1, 1, 1], -1, [1, 1, 1, 1, 1], [0, 0, 0, 0, 0], [3, 0, 0, 0, 0])
  const V1 := WithThree([2, 2, 2], -1, [1, 3, 1, 1, 1], [0, 4, 0, 0, 0], [3, 3, 0, 0, 0])
  const V2 := WithThree([3, 3, 3], 2, [1, 3, 3, 1, 1], [0, 4, 4, 0, 0], [3, 3, 3, 0, 0])

  const BEFORE_ONE := WithThree([1, 1, 1], -1, [1, 0, 1, 1, 1], [0, 1, 0, 0, 0], [3, 0, 0, 0, 0])
  const BEFORE_TWO := WithThree([2, 2, 2], -1, [1, 3, 0, 1, 1], [0, 4, 1, 0, 0], [3, 3, 0, 0, 0])

  lemma OneEvaluates()
    ensures Answered(V0, 1, 0) == BEFORE_ONE && ThreeStored(BEFORE_ONE, 1) == V1
  {
    var v1 := WithThree([2, 1, 1], -1, [1, 1, 1, 1, 1], [0, 2, 0, 0, 0], [3, 1, 0, 0, 0]);
    var v2 := WithThree([2, 2, 1], -1, [1, 2, 1, 1, 1], [0, 3, 0, 0, 0], [3, 2, 0, 0, 0]);
    assert Next(BEFORE_ONE, 1) == v1;
    assert Next(v1, 1) == v2;
    assert Next(v2, 1) == V1;
    OneGoesBack();
  }

  lemma OneGoesBack()
    ensures Answered(V0, 1, 0) == BEFORE_ONE
  {
  }

  lemma TwoEvaluates()
    ensures Answered(V1, 2, 0) == BEFORE_TWO && ThreeStored(BEFORE_TWO, 2) == V2
  {
    var v1 := WithThree([3, 2, 2], 0, [1, 3, 1, 1, 1], [0, 4, 2, 0, 0], [3, 3, 1, 0, 0]);
    var v2 := WithThree([3, 3, 2], 1, [1, 3, 2, 1, 1], [0, 4, 3, 0, 0], [3, 3, 2, 0, 0]);
    assert Next(BEFORE_TWO, 2) == v1;
    assert Next(v1, 2) == v2;
    assert Next(v2, 2) == V2;
  }

  lemma OneStored(mode: Delivery, capacity: nat) returns (states: seq<Cluster>, actions: seq<Action>)
    requires capacity >= 3
    ensures IsWholeLogRun(mode, capacity, states, actions) && Leads(states[|actions|], V1)
    ensures Has(states[|actions|], 2, Copy(1, [], -1), 3) && Has(states[|actions|], 3, Copy(0, [], -1), 3)
  {
    OneEvaluates();
    states, actions := TwoAdded(mode, capacity);
    states, actions := SendAndBackOff(mode, capacity, states, actions, V0, 1, Copy(1, [], -1));
    states, actions := StoresThree(mode, capacity, states, actions, 1, BEFORE_ONE, -1);
  }

  /** Followers 1 and 2 store all three entries, and the leader commits them. */
  lemma AllCommitted(mode: Delivery, capacity: nat) returns (states: seq<Cluster>, actions: seq<Action>)
    requires capacity >= 3
    ensures IsWholeLogRun(mode, capacity, states, actions) && Leads(states[|actions|], V2)
    ensures Has(states[|actions|], 3, Copy(0, [], -1), 3)
  {
    TwoEvaluates();
    states, actions := OneStored(mode, capacity);
    states, actions := SendAndBackOff(mode, capacity, states, actions, V1, 2, Copy(1, [], -1));
    states, actions := StoresThree(mode, capacity, states, actions, 2, BEFORE_TWO, -1);
  }

  /** The leader when follower 3 stands before its first entry, and before its last. */
  const BEFORE_FIRST := WithThree([3, 3, 3], 2, [1, 3, 3, 0, 1], [0, 4, 4, 1, 0], [3, 3, 3, 0, 0])
  const BEFORE_LAST := WithThree([3, 3, 3], 2, [1, 3, 3, 2, 1], [0, 4, 4, 3, 0], [3, 3, 3, 2, 0])

  lemma ThreeEvaluates()
    ensures Answered(V2, 3, 0) == BEFORE_FIRST
    ensures PlaceIs(BEFORE_FIRST, 3, 0) && PlaceIs(Next(BEFORE_FIRST, 3), 3, 1)
    ensures Next(BEFORE_FIRST, 3).log == Three() && Next(BEFORE_FIRST, 3).t == 1 && Next(BEFORE_FIRST, 3).room == 3
    ensures Next(Next(BEFORE_FIRST, 3), 3) == BEFORE_LAST
    ensures CommitAt(BEFORE_FIRST, 0, -1) == 0 && CommitAt(Next(BEFORE_FIRST, 3), 1, 0) == 1
  {
    var v1 := WithThree([3, 3, 3], 2, [1, 3, 3, 1, 1], [0, 4, 4, 2, 0], [3, 3, 3, 1, 0]);
    assert Next(BEFORE_FIRST, 3) == v1;
    assert Next(v1, 3) == BEFORE_LAST;
  }

  /** The appends of the first and of the last entry to follower 3; both say that all three are committed. */
  function FirstAppend(): AppendRequest {
    RequestTo(BEFORE_FIRST, 3)
  }

  function LastAppend(): AppendRequest {
    RequestTo(BEFORE_LAST, 3)
  }

  /** Follower 3 has stored and committed two entries, and a copy of the first append is still on its way. */
  lemma TwoCommitted(mode: Delivery, capacity: nat) returns (states: seq<Cluster>, actions: seq<Action>)
    requires capacity >= 3
    ensures IsWholeLogRun(mode, capacity, states, actions)
    ensures Leads(states[|actions|], BEFORE_LAST) && Has(states[|actions|], 3, Holding(2, 1), 3)
    ensures FirstAppend() in states[|actions|].net.appends && LastAppend() in states[|actions|].net.appends
  {
    ThreeEvaluates();
    states, actions := AllCommitted(mode, capacity);
    states, actions := SendAndBackOff(mode, capacity, states, actions, V2, 3, Copy(0, [], -1));
    assert Copy(1, [], -1) == Holding(0, -1);
    states, actions := StoresNext(mode, capacity, states, actions, BEFORE_FIRST, 3, 0, -1);
    states, actions := StoresNext(mode, capacity, states, actions, Next(BEFORE_FIRST, 3), 3, 1, 0);
    states, actions := Sent(mode, capacity, states, actions, BEFORE_LAST, 3);
  }

  lemma LateCopyEvaluates()
    ensures Fitting(BEFORE_LAST, 3, Holding(2, 1), FirstAppend()) && Stored(BEFORE_LAST, 3, FirstAppend()) == BEFORE_LAST
    ensures Given(BEFORE_LAST, Holding(2, 1), FirstAppend()) == Holding(2, 0)
    ensures Fitting(BEFORE_LAST, 3, Holding(2, 0), LastAppend())
    ensures Given(BEFORE_LAST, Holding(2, 0), LastAppend()) == Holding(3, 2)
  {
  }

  /** The late copy comes, and then the last append. */
  lemma LateCopyComes(mode: Delivery, capacity: nat) returns (states: seq<Cluster>, actions: seq<Action>, k: nat)
    requires capacity >= 3
    ensures IsWholeLogRun(mode, capacity, states, actions) && |actions| == k + 2
    ensures actions[k] == DeliverAppend(FirstAppend()) && actions[k + 1] == DeliverAppend(LastAppend())
    ensures Has(states[k], 3, Holding(2, 1), 3)
    ensures Has(states[k + 1], 3, Holding(2, 0), 3)
    ensures Has(states[k + 2], 3, Holding(3, 2), 3)
  {
    LateCopyEvaluates();
    var before, b := TwoCommitted(mode, capacity);
    k := |b|;
    var between, c := Accepted(mode, capacity, before, b, BEFORE_LAST, 3, Holding(2, 1), FirstAppend());
    states, actions := Accepted(mode, capacity, between, c, BEFORE_LAST, 3, Holding(2, 0), LastAppend());
    assert states[k + 1] == between[k + 1];
    assert states[k] == between[k] == before[k];
  }

  lemma LoudWrites()
    ensures Added(Writes(Loud()), "file_0") == "x" && Added(Writes(Loud()), "notes.txt") == "y"
  {
    var data := Loud().data;
    assert Used(data, 2) == 0 && Used(data, 1) == 1 && Used(data, 0) == 2;
    assert data[..2] == data && data[..1][..0] == [];
    assert Added(data[..1], "file_0") == "" + "x" && Added(data[..1], "notes.txt") == "";
    assert Added(data, "file_0") == "x" + "" && Added(data, "notes.txt") == "" + "y";
  }

  lemma LoudBetween()
    ensures AddedFrom(Three()[..2], 1, 2, "file_0") == "x"
  {
    LoudWrites();
    assert AddedFrom(Three()[..2], 1, 1, "file_0") == "";
    assert "" + "x" == "x";
  }

  /** Going back behind position p and forth again applies its entry twice. */
  lemma BackAndForthTwice(ss: seq<Server>, actions: seq<Action>, i: Id, k: nat, p: nat)
    requires |ss| == |actions| + 1 && |actions| == k + 2 && ss[0].commit == -1
    requires !Restarts(actions[k], i) && !Restarts(actions[k + 1], i)
    requires ss[k + 1].commit < p <= ss[k].commit && p <= ss[k + 2].commit
    ensures Times(ss, actions, i, k + 2, p) >= 2
  {
    TimesAndBacks(ss, actions, i, k + 2, p);
    assert Backs(ss, actions, i, k + 1, p) == Backs(ss, actions, i, k, p) + 1;
    assert Backs(ss, actions, i, k + 2, p) == Backs(ss, actions, i, k + 1, p);
  }

  lemma FirstAppendSpoils(s: Server)
    requires s.Shaped() && s.term == 1 && s.start == 0 && s.log == Three()[..2] && s.commit == 1
    ensures Spoils(s, DeliverAppend(FirstAppend()), 3, ManagedNames())
  {
    LoudBetween();
    var name := FileName(0);
    assert name == "file_0" && name in ManagedNames();
    assert AddedFrom(s.log, 1, 2, name) != "";
  }

  /**
    A run, with any delivery, at the end of which follower 3 has applied the
    second entry twice, because a late copy of the first append came at step k.
  */
  lemma LateCopyAppliesTwice(mode: Delivery, capacity: nat)
    returns (states: seq<Cluster>, actions: seq<Action>, k: nat)
    requires capacity >= 3
    ensures IsWholeLogRun(mode, capacity, states, actions) && k < |actions|
    ensures var ss := Trace(states, 3);
      Times(ss, actions, 3, |actions|, 1) >= 2 && ss[|actions|].log == Three() && Spoils(ss[k], actions[k], 3, ManagedNames())
  {
    states, actions, k := LateCopyComes(mode, capacity);
    var ss := Trace(states, 3);
    assert Three()[..3] == Three();
    BackAndForthTwice(ss, actions, 3, k, 1);
    FirstAppendSpoils(ss[k]);
  }

  /** In that run the managed files of follower 3 are not always the replay of what it has committed. */
  lemma LateCopyMakesFilesWrong(capacity: nat, junk: Dir)
    returns (states: seq<Cluster>, actions: seq<Action>, ds: seq<Dir>)
    requires capacity >= 3
    ensures IsWholeLogRun(STRICT, capacity, states, actions) && FilesAre(junk, ds, Trace(states, 3), actions, 3)
    ensures !AlwaysRight(ds, Trace(states, 3), |actions|, ManagedNames())
  {
    var k;
    states, actions, k := LateCopyAppliesTwice(STRICT, capacity);
    ds := FilesExist(junk, Trace(states, 3), actions, 3);
    FilesRightIff(capacity, states, actions, 3, junk, ds, |actions|, ManagedNames());
  }

  // ---------------------------------------------------------------------------
  // A restart

  lemma NotesWritten(s: Server)
    requires s.log == Three() && s.commit == 2
    ensures Spoils(s, Restart(0), 0, iset{"notes.txt"})
  {
    LoudWrites();
    var name := "notes.txt";
    assert name !in Managed();
    assert AddedFrom(s.log, 0, 1, name) == "" + "" && AddedFrom(s.log, 0, 2, name) == "" + "y";
    assert |AddedFrom(s.log, 0, 3, name)| >= 1;
  }

  /** The leader restarts: a file that it does not clean holds twice what was committed to it. */
  lemma RestartMakesFilesWrong(capacity: nat, junk: Dir)
    returns (states: seq<Cluster>, actions: seq<Action>, ds: seq<Dir>)
    requires capacity >= 3
    ensures IsWholeLogRun(STRICT, capacity, states, actions) && FilesAre(junk, ds, Trace(states, 0), actions, 0)
    ensures !AlwaysRight(ds, Trace(states, 0), |actions|, iset{"notes.txt"})
  {
    var before, b := AllCommitted(STRICT, capacity);
    NotesWritten(before[|b|].servers[0]);
    states, actions := Extend(STRICT, capacity, before, b, Restart(0));
    assert states[|b|] == before[|b|];
    ds := FilesExist(junk, Trace(states, 0), actions, 0);
    FilesRightIff(capacity, states, actions, 0, junk, ds, |actions|, iset{"notes.txt"});
    assert Trace(states, 0)[|b|] == before[|b|].servers[0];
  }
}
