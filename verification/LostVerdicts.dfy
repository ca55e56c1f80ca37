/**
  A run in which a server reports a transaction as lost that it has committed:
  a compaction has dropped it, and an entry of a later term is committed.
*/
module LostVerdicts {
  import opened RaftTypes
  import opened ServerSpec
  import opened Cluster
  import opened Scenes
  import opened Verdict
  import Elections

  /** A transaction of term 1 with number 7. */
  function Transaction(): Entry {
    Entry(1, ClientLog, 7, 0, [])
  }

  function Three(): seq<Entry> {
    [First(), Transaction(), Opening(2, STALE)]
  }

  function WithThree(counts: seq<int>, commit: int, nexts: seq<int>, requests: seq<int>, held: seq<nat>): View {
    View(2, 3, Three(), counts, commit, nexts, requests, held)
  }

  /** Server 0 leads term 1 and appends the transaction. */
  const BEGUN := View(1, 3, [First(), Transaction()], [1, 1], -1, [1, 1, 1, 1, 1], [0, 0, 0, 0, 0], [2, 0, 0, 0, 0])

  lemma Begun(capacity: nat) returns (states: seq<Cluster>, actions: seq<Action>)
    requires capacity >= 3
    ensures IsWholeLogRun(STRICT, capacity, states, actions) && Leads(states[|actions|], BEGUN)
    ensures Has(states[|actions|], 1, Copy(1, [], -1), 3) && Has(states[|actions|], 2, Copy(1, [], -1), 3)
  {
    states, actions := FirstElection(STRICT, capacity, 3);
    states, actions := ClientAdds(STRICT, capacity, states, actions, FirstView(3), Transaction());
    assert WithEntry(FirstView(3), Transaction()) == BEGUN;
  }

  /** It crashes, comes back and leads term 2. */
  const AGAIN := WithThree([1, 1, 1], -1, [3, 3, 3, 3, 3], [0, 0, 0, 0, 0], [3, 0, 0, 0, 0])

  lemma LeadsAgain(capacity: nat) returns (states: seq<Cluster>, actions: seq<Action>)
    requires capacity >= 3
    ensures IsWholeLogRun(STRICT, capacity, states, actions) && Leads(states[|actions|], AGAIN)
    ensures Has(states[|actions|], 1, Copy(2, [], -1), 3) && Has(states[|actions|], 2, Copy(2, [], -1), 3)
  {
    states, actions := Begun(capacity);
    Elections.RunKeeps(STRICT, capacity, states, actions, |actions|);
    states, actions := Extend(STRICT, capacity, states, actions, Restart(0));
    states, actions := Elected(STRICT, capacity, states, actions, BEGUN, Copy(1, [], -1), Copy(1, [], -1));
    assert Won(BEGUN.(t := 2)) == AGAIN;
  }

  /** The leader's place with follower f goes back from 3 to 0. */
  function BackThree(v: View, f: Id): View
    requires PlaceIs(v, f, 3)
  {
    Answered(Answered(Answered(v, f, 0), f, 0), f, 0)
  }

  lemma BacksOffThree(capacity: nat, states: seq<Cluster>, actions: seq<Action>, v: View, f: Id)
    returns (more: seq<Cluster>, acts: seq<Action>)
    requires IsWholeLogRun(STRICT, capacity, states, actions) && Leads(states[|actions|], v)
    requires f != 0 && PlaceIs(v, f, 3) && Has(states[|actions|], f, Copy(v.t, [], -1), v.room)
    ensures IsWholeLogRun(STRICT, capacity, more, acts) && Aside(states[|actions|], more[|acts|], f)
    ensures Leads(more[|acts|], BackThree(v, f)) && Has(more[|acts|], f, Copy(v.t, [], -1), v.room)
  {
    var k := Copy(v.t, [], -1);
    var v1 := Answered(v, f, 0);
    var v2 := Answered(v1, f, 0);
    more, acts := SendAndBackOff(STRICT, capacity, states, actions, v, f, k);
    more, acts := SendAndBackOff(STRICT, capacity, more, acts, v1, f, k);
    more, acts := SendAndBackOff(STRICT, capacity, more, acts, v2, f, k);
  }

  const BEFORE_ONE := WithThree([1, 1, 1], -1, [3, 0, 3, 3, 3], [0, 3, 0, 0, 0], [3, 0, 0, 0, 0])
  const AFTER_ONE := WithThree([1, 1, 2], -1, [3, 3, 3, 3, 3], [0, 6, 0, 0, 0], [3, 3, 0, 0, 0])
  const BEFORE_TWO := WithThree([1, 1, 2], -1, [3, 3, 0, 3, 3], [0, 6, 3, 0, 0], [3, 3, 0, 0, 0])
  const AFTER_TWO := WithThree([1, 1, 3], 2, [3, 3, 3, 3, 3], [0, 6, 6, 0, 0], [3, 3, 3, 0, 0])

  lemma OneEvaluates()
    ensures BackThree(AGAIN, 1) == BEFORE_ONE && ThreeStored(BEFORE_ONE, 1) == AFTER_ONE
  {
    var v1 := WithThree([1, 1, 1], -1, [3, 1, 3, 3, 3], [0, 4, 0, 0, 0], [3, 1, 0, 0, 0]);
    var v2 := WithThree([1, 1, 1], -1, [3, 2, 3, 3, 3], [0, 5, 0, 0, 0], [3, 2, 0, 0, 0]);
    assert Next(BEFORE_ONE, 1) == v1;
    assert Next(v1, 1) == v2;
    assert Next(v2, 1) == AFTER_ONE;
    OneGoesBack();
  }

  lemma OneGoesBack()
    ensures BackThree(AGAIN, 1) == BEFORE_ONE
  {
    assert Answered(AGAIN, 1, 0) == WithThree([1, 1, 1], -1, [3, 2, 3, 3, 3], [0, 1, 0, 0, 0], [3, 0, 0, 0, 0]);
  }

  lemma TwoEvaluates()
    ensures BackThree(AFTER_ONE, 2) == BEFORE_TWO && ThreeStored(BEFORE_TWO, 2) == AFTER_TWO
  {
    var v1 := WithThree([1, 1, 2], -1, [3, 3, 1, 3, 3], [0, 6, 4, 0, 0], [3, 3, 1, 0, 0]);
    var v2 := WithThree([1, 1, 2], -1, [3, 3, 2, 3, 3], [0, 6, 5, 0, 0], [3, 3, 2, 0, 0]);
    assert Next(BEFORE_TWO, 2) == v1;
    assert Next(v1, 2) == v2;
    assert Next(v2, 2) == AFTER_TWO;
    TwoGoesBack();
  }

  lemma TwoGoesBack()
    ensures BackThree(AFTER_ONE, 2) == BEFORE_TWO
  {
    assert Answered(AFTER_ONE, 2, 0) == WithThree([1, 1, 2], -1, [3, 3, 2, 3, 3], [0, 6, 1, 0, 0], [3, 3, 0, 0, 0]);
  }

  lemma OneBackedOff(capacity: nat) returns (states: seq<Cluster>, actions: seq<Action>)
    requires capacity >= 3
    ensures IsWholeLogRun(STRICT, capacity, states, actions) && Leads(states[|actions|], BEFORE_ONE)
    ensures Has(states[|actions|], 1, Copy(2, [], -1), 3) && Has(states[|actions|], 2, Copy(2, [], -1), 3)
  {
    OneGoesBack();
    states, actions := LeadsAgain(capacity);
    states, actions := BacksOffThree(capacity, states, actions, AGAIN, 1);
  }

  lemma OneStored(capacity: nat) returns (states: seq<Cluster>, actions: seq<Action>)
    requires capacity >= 3
    ensures IsWholeLogRun(STRICT, capacity, states, actions) && Leads(states[|actions|], AFTER_ONE)
    ensures Has(states[|actions|], 2, Copy(2, [], -1), 3)
  {
    OneEvaluates();
    states, actions := OneBackedOff(capacity);
    states, actions := StoresThree(STRICT, capacity, states, actions, 1, BEFORE_ONE, -1);
  }

  /** Followers 1 and 2 store everything, and the leader commits it. */
  lemma AllCommitted(capacity: nat) returns (states: seq<Cluster>, actions: seq<Action>)
    requires capacity >= 3
    ensures IsWholeLogRun(STRICT, capacity, states, actions) && Leads(states[|actions|], AFTER_TWO)
  {
    TwoEvaluates();
    states, actions := OneStored(capacity);
    states, actions := BacksOffThree(capacity, states, actions, AFTER_ONE, 2);
    states, actions := StoresThree(STRICT, capacity, states, actions, 2, BEFORE_TWO, -1);
  }

  /** Without compaction or install no snapshot is ever in progress. */
  lemma {:induction false} NoneInProgress(capacity: nat, states: seq<Cluster>, actions: seq<Action>, n: nat, i: Id)
    requires IsWholeLogRun(STRICT, capacity, states, actions) && n < |states|
    ensures !states[n].servers[i].snapshotInProgress
  {
    if n == 0 {
      assert i == 0 || i == 1 || i == 2 || i == 3 || i == 4;
    } else {
      NoneInProgress(capacity, states, actions, n - 1, i);
      StepBeginsNone(states[n - 1], actions[n - 1], i);
    }
  }

  lemma StepBeginsNone(c: Cluster, a: Action, i: Id)
    requires c.Shaped() && Enabled(STRICT, c, a) && KeepsWholeLog(a) && !c.servers[i].snapshotInProgress
    ensures !Step(STRICT, c, a).servers[i].snapshotInProgress
  {
  }

  /** One step of any kind. */
  lemma AnyStep(capacity: nat, states: seq<Cluster>, actions: seq<Action>, a: Action)
    returns (more: seq<Cluster>, acts: seq<Action>)
    requires IsRun(STRICT, capacity, states, actions) && Enabled(STRICT, states[|actions|], a)
    ensures IsRun(STRICT, capacity, more, acts) && acts == actions + [a]
    ensures |more| == |states| + 1 && more[..|states|] == states && more[|acts|] == Step(STRICT, states[|actions|], a)
  {
    more, acts := states + [Step(STRICT, states[|actions|], a)], actions + [a];
    forall n | 0 <= n < |acts|
      ensures Enabled(STRICT, more[n], acts[n]) && more[n + 1] == Step(STRICT, more[n], acts[n])
    {
    }
  }

  lemma Verdicts(s: Server)
    requires s.Shaped() && s.start == 0 && s.log == Three() && s.commit == 2
    ensures VerdictOf(s, 1, 7) == COMMITTED && VerdictOf(FinishSnapshot(s, 2), 1, 7) == LOST
  {
    assert Scan(s.log, 3, 1, 7, 1) == COMMITTED;
    assert FinishSnapshot(s, 2).log == [Opening(2, STALE)];
  }

  /** At moment m server 0 finds the transaction committed, and after its compaction, at the end, lost. */
  lemma CommittedReportedLost(capacity: nat) returns (states: seq<Cluster>, actions: seq<Action>, m: nat)
    requires capacity >= 3
    ensures IsRun(STRICT, capacity, states, actions) && m < |actions|
    ensures VerdictOf(states[m].servers[0], 1, 7) == COMMITTED && VerdictOf(states[|actions|].servers[0], 1, 7) == LOST
  {
    var before, b := AllCommitted(capacity);
    m := |b|;
    Verdicts(before[m].servers[0]);
    NoneInProgress(capacity, before, b, m, 0);
    var between, c := AnyStep(capacity, before, b, BeginSnapshot(0));
    Verdicts(between[m + 1].servers[0]);
    states, actions := AnyStep(capacity, between, c, EndSnapshot(0, 2));
    assert states[m] == between[m] == before[m];
  }
}
