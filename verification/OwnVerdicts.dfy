/**
  When a release that returns 0 has found the client's own transaction: exactly
  if the term of the transaction did not open with an entry of the same id. The
  entry that opens a term keeps the id of the slot that it takes
  (raft_leader.c:126-130).
*/
module OwnVerdicts {
  import opened RaftTypes
  import opened ServerSpec
  import opened Cluster
  import opened TermLogs
  import opened LogMatching
  import opened Openings
  import opened Scenes
  import opened Verdict
  import opened Finality
  import StateMachineSafety

  // ---------------------------------------------------------------------------
  // A run in which the release answers for the opening entry

  /** A slot with this id. */
  function Slot(id: int): Entry {
    STALE.(id := id)
  }

  function Own(id: int): Entry {
    Entry(1, ClientLog, id, 7, [FileWrite("file_0", "x")])
  }

  /** The leader of term 1, which opened with the id, when followers 1 and 2 have stored its entry. */
  function OpeningStored(id: int): View {
    View(1, 2, [First(Slot(id))], [3], 0, [1, 1, 1, 1, 1], [0, 2, 2, 0, 0], [1, 1, 1, 0, 0])
  }

  function BeforeOne(id: int): View {
    View(1, 2, [First(Slot(id))], [1], -1, [1, 0, 1, 1, 1], [0, 1, 0, 0, 0], [1, 0, 0, 0, 0])
  }

  function AfterOne(id: int): View {
    View(1, 2, [First(Slot(id))], [2], -1, [1, 1, 1, 1, 1], [0, 2, 0, 0, 0], [1, 1, 0, 0, 0])
  }

  function BeforeTwo(id: int): View {
    View(1, 2, [First(Slot(id))], [2], -1, [1, 1, 0, 1, 1], [0, 2, 1, 0, 0], [1, 1, 0, 0, 0])
  }

  lemma OneEvaluates(id: int)
    ensures Answered(FirstView(2, Slot(id)), 1, 0) == BeforeOne(id) && Next(BeforeOne(id), 1) == AfterOne(id)
  {
  }

  lemma TwoEvaluates(id: int)
    ensures Answered(AfterOne(id), 2, 0) == BeforeTwo(id) && Next(BeforeTwo(id), 2) == OpeningStored(id)
  {
  }

  lemma StoresFirst(capacity: nat, states: seq<Cluster>, actions: seq<Action>, v: View, w: View, f: Id)
    returns (more: seq<Cluster>, acts: seq<Action>)
    requires IsWholeLogRun(STRICT, capacity, states, actions) && Leads(states[|actions|], v)
    requires f != 0 && v.t == 1 && |v.log| == 1 && PlaceIs(v, f, 1) && w == Answered(v, f, 0) && PlaceIs(w, f, 0)
    requires Has(states[|actions|], f, Copy(1, [], -1), v.room)
    ensures IsWholeLogRun(STRICT, capacity, more, acts) && Leads(more[|acts|], Next(w, f))
    ensures Aside(states[|actions|], more[|acts|], f)
  {
    more, acts := SendAndBackOff(STRICT, capacity, states, actions, v, f, Copy(1, [], -1));
    assert PrefixOf(1, w.log, 0, -1) == Copy(1, [], -1);
    more, acts := StoresNext(STRICT, capacity, more, acts, w, f, 0, -1);
  }

  lemma OpeningCommits(capacity: nat, id: int) returns (states: seq<Cluster>, actions: seq<Action>)
    requires capacity >= 2
    ensures IsWholeLogRun(STRICT, capacity, states, actions) && Leads(states[|actions|], OpeningStored(id))
  {
    OneEvaluates(id);
    TwoEvaluates(id);
    states, actions := FirstElection(STRICT, capacity, 2, Slot(id));
    states, actions := StoresFirst(capacity, states, actions, FirstView(2, Slot(id)), BeforeOne(id), 1);
    states, actions := StoresFirst(capacity, states, actions, AfterOne(id), BeforeTwo(id), 2);
  }

  /** The leader's log when it has appended a client's transaction, of which nobody else knows. */
  function TwoEntries(id: int): seq<Entry> {
    [First(Slot(id)), Own(id)]
  }

  lemma ScanAnswers(s: Server, id: int)
    requires s.start == 0 && s.log == TwoEntries(id) && s.commit == 0
    ensures VerdictOf(s, 1, id) == COMMITTED && ContainsOwn(s.log, 1, id) && !ContainsOwn(CommittedOf(s), 1, id)
  {
    assert Is(s.log[1], 1, id);
  }

  /**
    A run at whose end server 0 finds the transaction (1, id) committed, and has
    it in its log, but not among what it has committed: it answers for the entry
    that opened term 1.
  */
  lemma AnswersForTheOpening(capacity: nat, id: int) returns (states: seq<Cluster>, actions: seq<Action>)
    requires capacity >= 2
    ensures IsWholeLogRun(STRICT, capacity, states, actions)
    ensures var s := states[|actions|].servers[0];
      && s.role.Leader? && s.term == 1 && s.start == 0 && s.log == TwoEntries(id) && s.commit == 0
      && VerdictOf(s, 1, id) == COMMITTED && ContainsOwn(s.log, 1, id) && !ContainsOwn(CommittedOf(s), 1, id)
  {
    states, actions := OpeningCommits(capacity, id);
    states, actions := ClientAdds(STRICT, capacity, states, actions, OpeningStored(id), Own(id));
    assert [First(Slot(id))] + [Own(id)] == TwoEntries(id);
    ScanAnswers(states[|actions|].servers[0], id);
  }

  // ---------------------------------------------------------------------------
  // Exactly when the answer is about the client's transaction

  /** The release polls server i at these moments of the run, and at one of them it has committed the transaction. */
  ghost predicate OwnAtSomePoll(states: seq<Cluster>, i: Id, polls: seq<nat>, t: int, id: int) {
    exists p :: 0 <= p < |polls| && polls[p] < |states| && OwnAt(states[polls[p]], i, t, id)
  }

  ghost predicate OwnAt(c: Cluster, i: Id, t: int, id: int) {
    c.Shaped() && -1 <= c.servers[i].commit < |c.servers[i].log| && ContainsOwn(CommittedOf(c.servers[i]), t, id)
  }

  ghost predicate Returns0(states: seq<Cluster>, i: Id, polls: seq<nat>, t: int, id: int) {
    && (forall n :: 0 <= n < |states| ==> states[n].Shaped())
    && (forall p :: 0 <= p < |polls| ==> polls[p] < |states|)
    && Awaited(Polled(states, i, polls, t, id)) == Some(0)
  }

  /**
    Whatever a release for (t, id) polls, in a run whose term t opened with the
    id g: 0 means that the transaction is committed.
  */
  ghost predicate ReleaseTellsTruth(capacity: nat, g: int, id: int) {
    forall states: seq<Cluster>, actions: seq<Action>, i: Id, polls: seq<nat>, t: int ::
      Released(capacity, states, actions, i, polls, t, g, id) ==> OwnAtSomePoll(states, i, polls, t, id)
  }

  ghost predicate Released(capacity: nat, states: seq<Cluster>, actions: seq<Action>, i: Id, polls: seq<nat>,
                           t: int, g: int, id: int)
  {
    && IsWholeLogRun(STRICT, capacity, states, actions) && OpenedWith(states[|actions|].h.termLog, t, g)
    && Returns0(states, i, polls, t, id)
  }

  lemma OpenedOtherwise(capacity: nat, states: seq<Cluster>, actions: seq<Action>, m: nat, t: int, g: int, id: int)
    requires IsWholeLogRun(STRICT, capacity, states, actions) && m < |states| && g != id
    requires OpenedWith(states[|actions|].h.termLog, t, g)
    ensures !OpenedWith(states[m].h.termLog, t, id)
  {
    var a: Family, b: Family := states[m].h.termLog, states[|actions|].h.termLog;
    StateMachineSafety.RunGrows(capacity, states, actions, m, |actions|);
    if OpenedWith(a, t, id) {
      var o: nat :| OpensAt(a[t], t, o) && a[t][o].id == id;
      var p: nat :| OpensAt(b[t], t, p) && b[t][p].id == g;
      OpeningStays(a[t], b[t], t, o, p);
    }
  }

  lemma OtherIdIsTrue(capacity: nat, states: seq<Cluster>, actions: seq<Action>, i: Id, polls: seq<nat>, t: int, g: int, id: int)
    requires IsWholeLogRun(STRICT, capacity, states, actions) && OpenedWith(states[|actions|].h.termLog, t, g) && g != id
    requires Returns0(states, i, polls, t, id)
    ensures OwnAtSomePoll(states, i, polls, t, id)
  {
    var answers := Polled(states, i, polls, t, id);
    VerdictsKnown(capacity, states, actions, i, polls, t, id);
    AwaitedMeans(answers);
    var p :| 0 <= p < |answers| && answers[p] == COMMITTED;
    CommittedIsOwn(capacity, states, actions, polls[p], i, t, id);
    OpenedOtherwise(capacity, states, actions, polls[p], t, g, id);
    assert OwnAt(states[polls[p]], i, t, id);
  }

  lemma FirstTermOpensWith(capacity: nat, states: seq<Cluster>, actions: seq<Action>, id: int)
    requires IsWholeLogRun(STRICT, capacity, states, actions)
    requires states[|actions|].servers[0].role.Leader? && states[|actions|].servers[0].term == 1
    requires states[|actions|].servers[0].log == TwoEntries(id)
    ensures OpenedWith(states[|actions|].h.termLog, 1, id)
  {
    var c := states[|actions|];
    RunKeepsLogs(STRICT, capacity, states, actions, |actions|);
    assert RoleFits(c.servers[0], c.h);
    assert OpensAt(c.h.termLog[1], 1, 0);
  }

  /**
    For terms that open with the id g, a release of transaction id that returns 0
    tells the truth in all runs if and only if g is not id.
  */
  lemma ReleaseIsOwnIff(capacity: nat, g: int, id: int)
    requires capacity >= 2
    ensures ReleaseTellsTruth(capacity, g, id) <==> g != id
  {
    if g == id {
      var states, actions := AnswersForTheOpening(capacity, id);
      FirstTermOpensWith(capacity, states, actions, id);
      PolledAtTheEnd(states, actions, id);
      assert Released(capacity, states, actions, 0, [|actions|], 1, g, id);
      assert !OwnAtSomePoll(states, 0, [|actions|], 1, id);
    } else {
      forall states: seq<Cluster>, actions: seq<Action>, i: Id, polls: seq<nat>, t: int |
        Released(capacity, states, actions, i, polls, t, g, id)
        ensures OwnAtSomePoll(states, i, polls, t, id)
      {
        OtherIdIsTrue(capacity, states, actions, i, polls, t, g, id);
      }
    }
  }

  lemma PolledAtTheEnd(states: seq<Cluster>, actions: seq<Action>, id: int)
    requires |states| == |actions| + 1 && forall n :: 0 <= n < |states| ==> states[n].Shaped()
    requires states[|actions|].Shaped() && VerdictOf(states[|actions|].servers[0], 1, id) == COMMITTED
    ensures Returns0(states, 0, [|actions|], 1, id)
  {
    var answers := Polled(states, 0, [|actions|], 1, id);
    assert answers == [COMMITTED];
  }
}
