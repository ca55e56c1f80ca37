/**
  Why a leader must know what a reply answers. A heartbeat and an append share
  one request id, and the leader decides from its current log what a success
  acknowledges; and request ids begin at 0 in every tenure, while a reply carries
  the follower's current term. A leader that takes the reply to a heartbeat, or
  to a request of an earlier tenure, for the answer to its last append counts a
  server that does not have the entry, or counts one twice. With
  `Replication.ReplicationCountSound` this gives the exact condition for a sound
  replication counter.
*/
module Acknowledgements {
  import opened RaftTypes
  import opened ServerSpec
  import opened Cluster
  import opened LeaderCompleteness
  import opened Replication
  import opened Scenes
  import Elections

  function Second(): Entry {
    Opening(2, STALE)
  }

  function ClientEntry(): Entry {
    STALE.(term := 1, kind := ClientLog)
  }

  /** Term 1: server 3 holds the leader's only entry. */
  function FirstTenure(): View {
    View(1, 2, [First()], [2], -1, [1, 1, 1, 1, 1], [0, 0, 0, 2, 0], [1, 0, 0, 1, 0])
  }

  /** The last request of term 1 to server 3: a heartbeat. */
  function LastHeartbeat(): AppendRequest {
    RequestTo(FirstTenure(), 3)
  }

  /** In term 1 server 3 has come to hold the leader's log, and one more heartbeat is on its way. */
  lemma CaughtUp(mode: Delivery, capacity: nat) returns (states: seq<Cluster>, actions: seq<Action>)
    requires capacity >= 2
    ensures IsWholeLogRun(mode, capacity, states, actions)
    ensures Leads(states[|actions|], FirstTenure()) && Has(states[|actions|], 3, Copy(1, [First()], -1), 2)
    ensures LastHeartbeat() in states[|actions|].net.appends
    ensures Has(states[|actions|], 1, Copy(1, [], -1), 2) && Has(states[|actions|], 2, Copy(1, [], -1), 2)
  {
    CatchingUpEvaluates();
    states, actions := FirstElection(mode, capacity, 2);
    states, actions := SendAndBackOff(mode, capacity, states, actions, FirstView(2), 3, Copy(0, [], -1));
    states, actions := SendAndStore(mode, capacity, states, actions, BackedOff(), 3, Copy(1, [], -1));
    states, actions := Sent(mode, capacity, states, actions, FirstTenure(), 3);
  }

  function BackedOff(): View {
    View(1, 2, [First()], [1], -1, [1, 1, 1, 0, 1], [0, 0, 0, 1, 0], [1, 0, 0, 0, 0])
  }

  lemma CatchingUpEvaluates()
    ensures Answered(FirstView(2), 3, 0) == BackedOff()
    ensures Given(BackedOff(), Copy(1, [], -1), RequestTo(BackedOff(), 3)) == Copy(1, [First()], -1)
    ensures Answered(Stored(BackedOff(), 3, RequestTo(BackedOff(), 3)), 3, 1) == FirstTenure()
  {
  }

  /** The counter of the leader's entry of its own term at k is larger than the number of servers that have it. */
  ghost predicate Overcounted(c: Cluster, i: Id, k: nat)
    requires c.Shaped()
  {
    var s := c.servers[i];
    s.role.Leader? && k < |s.log| && s.log[k].term == s.term && s.replicated[k] > |Takers(c.h, s.term, k)|
  }

  /** Of the servers only 0 and 3 may have taken position k. */
  lemma FewTakers(h: History, v: View, k: nat)
    requires |v.held| == N_SERVERS && Held(h, v) && v.held[1] <= k && v.held[2] <= k && v.held[4] <= k
    ensures |Takers(h, v.t, k)| <= if v.held[3] > k then 2 else 1
  {
    var few: set<Id> := if v.held[3] > k then {0, 3} else {0};
    forall i: Id | i in Takers(h, v.t, k)
      ensures i in few
    {
      assert StoredBy(h, v.t, i) > k;
    }
    SubsetCardinality(Takers(h, v.t, k), few);
  }

  lemma ViewOvercounted(c: Cluster, v: View, k: nat)
    requires c.Shaped() && Leads(c, v) && k < |v.log| && v.log[k].term == v.t
    requires v.held[1] <= k && v.held[2] <= k && v.held[4] <= k
    requires v.counts[k] > if v.held[3] > k then 2 else 1
    ensures Overcounted(c, 0, k)
  {
    FewTakers(c.h, v, k);
  }

  /** The leader has one entry more, and the reply to the last heartbeat is on its way. */
  function EntryAdded(): View {
    View(1, 2, [First(), ClientEntry()], [2, 1], -1, [1, 1, 1, 1, 1], [0, 0, 0, 2, 0], [2, 0, 0, 1, 0])
  }

  lemma HeartbeatAnswered(mode: Delivery, capacity: nat) returns (states: seq<Cluster>, actions: seq<Action>)
    requires capacity >= 2
    ensures IsWholeLogRun(mode, capacity, states, actions) && Leads(states[|actions|], EntryAdded())
    ensures ReplyTo(LastHeartbeat(), 1, 1) in states[|actions|].net.replies
  {
    var v := FirstTenure();
    states, actions := CaughtUp(mode, capacity);
    states, actions := Accepted(mode, capacity, states, actions, v, 3, Copy(1, [First()], -1), LastHeartbeat());
    assert Stored(v, 3, LastHeartbeat()) == v;
    states, actions := ClientAdds(mode, capacity, states, actions, v, ClientEntry());
    assert WithEntry(v, ClientEntry()) == EntryAdded();
  }

  /** The reply to a heartbeat is counted for an entry that only the leader has. */
  lemma BlindAckOvercounts(mode: Delivery, capacity: nat) returns (states: seq<Cluster>, actions: seq<Action>)
    requires mode.blindAcks && capacity >= 2
    ensures IsWholeLogRun(mode, capacity, states, actions) && Overcounted(states[|actions|], 0, 1)
  {
    var (v, r) := (EntryAdded(), ReplyTo(LastHeartbeat(), 1, 1));
    states, actions := HeartbeatAnswered(mode, capacity);
    states, actions := ReplyTaken(mode, capacity, states, actions, v, r);
    assert Answered(v, 3, 1).counts == [2, 2];
    ViewOvercounted(states[|actions|], Answered(v, 3, 1), 1);
  }

  /** Term 2 of the same leader: server 3 holds the first entry only. */
  function SecondTenure(): View {
    View(2, 2, [First(), Second()], [2, 1], -1, [2, 2, 2, 2, 2], [0, 0, 0, 0, 0], [2, 0, 0, 0, 0])
  }

  /** The leader has crashed and come back, and leads term 2, while the last heartbeat of term 1 is still on its way. */
  lemma Reelected(mode: Delivery, capacity: nat) returns (states: seq<Cluster>, actions: seq<Action>)
    requires capacity >= 2 && !mode.duplicateVotes
    ensures IsWholeLogRun(mode, capacity, states, actions) && LastHeartbeat() in states[|actions|].net.appends
    ensures Leads(states[|actions|], SecondTenure()) && Has(states[|actions|], 3, Copy(1, [First()], -1), 2)
  {
    var (v, one) := (FirstTenure(), Copy(1, [], -1));
    states, actions := CaughtUp(mode, capacity);
    Elections.RunKeeps(mode, capacity, states, actions, |actions|);
    states, actions := Extend(mode, capacity, states, actions, Restart(0));
    states, actions := Elected(mode, capacity, states, actions, v, one, one);
    assert v.log + [Second()] == SecondTenure().log && v.counts + [1] == [2, 1];
  }

  /** In term 2 server 3 has both entries, and the second has been counted once. */
  function BothHeld(): View {
    View(2, 2, [First(), Second()], [2, 2], -1, [2, 2, 2, 2, 2], [0, 0, 0, 2, 0], [2, 0, 0, 2, 0])
  }

  lemma BothStored(mode: Delivery, capacity: nat) returns (states: seq<Cluster>, actions: seq<Action>)
    requires capacity >= 2 && !mode.duplicateVotes
    ensures IsWholeLogRun(mode, capacity, states, actions) && LastHeartbeat() in states[|actions|].net.appends
    ensures Leads(states[|actions|], BothHeld()) && Has(states[|actions|], 3, Copy(2, BothHeld().log, -1), 2)
  {
    var (v, k) := (SecondTenure(), Copy(1, [First()], -1));
    states, actions := Reelected(mode, capacity);
    states, actions := SendAndBackOff(mode, capacity, states, actions, v, 3, k);
    var (w, l) := (Answered(v, 3, 0), k.(term := 2));
    assert w == v.(nexts := [2, 2, 2, 1, 2], requests := [0, 0, 0, 1, 0]);
    states, actions := SendAndStore(mode, capacity, states, actions, w, 3, l);
    assert Given(w, l, RequestTo(w, 3)).log == w.log[..2] == w.log;
    assert Answered(Stored(w, 3, RequestTo(w, 3)), 3, 1) == BothHeld();
  }

  /** The refusal of a request of term 1 makes the leader of term 2 count server 3 twice. */
  lemma StaleReplyOvercounts(mode: Delivery, capacity: nat) returns (states: seq<Cluster>, actions: seq<Action>)
    requires mode.staleReplies && capacity >= 2 && !mode.duplicateVotes
    ensures IsWholeLogRun(mode, capacity, states, actions) && Overcounted(states[|actions|], 0, 1)
  {
    var (v, k, m) := (BothHeld(), Copy(2, BothHeld().log, -1), LastHeartbeat());
    states, actions := BothStored(mode, capacity);
    states, actions := Refused(mode, capacity, states, actions, v, 3, k, m);
    states, actions := ReplyTaken(mode, capacity, states, actions, v, ReplyTo(m, 2, 0));
    var w := Answered(v, 3, 0);
    states, actions := SendAndStore(mode, capacity, states, actions, w, 3, k);
    var x := Answered(Stored(w, 3, RequestTo(w, 3)), 3, 1);
    assert x.counts == [2, 3] && x.held == [2, 0, 0, 2, 0];
    ViewOvercounted(states[|actions|], x, 1);
  }

  /** In all states of all runs without compaction or install, every counter is sound. */
  ghost predicate CountersSound(mode: Delivery, capacity: nat) {
    forall states: seq<Cluster>, actions: seq<Action>, n: nat, i: Id, k: nat ::
      IsWholeLogRun(mode, capacity, states, actions) && n < |states| ==> !Overcounted(states[n], i, k)
  }

  /**
    The replication counter is sound on all runs if and only if a leader takes
    neither the reply to a heartbeat nor one of an earlier tenure for an answer
    to its last append.
  */
  lemma CountersSoundIff(mode: Delivery, capacity: nat)
    requires capacity >= 2 && !mode.duplicateVotes
    ensures CountersSound(mode, capacity) <==> !mode.blindAcks && !mode.staleReplies
  {
    if mode.blindAcks {
      var states, actions := BlindAckOvercounts(mode, capacity);
      assert !CountersSound(mode, capacity);
    } else if mode.staleReplies {
      var states, actions := StaleReplyOvercounts(mode, capacity);
      assert !CountersSound(mode, capacity);
    } else {
      assert mode == STRICT;
      forall states: seq<Cluster>, actions: seq<Action>, n: nat, i: Id, k: nat |
        IsWholeLogRun(mode, capacity, states, actions) && n < |states|
        ensures !Overcounted(states[n], i, k)
      {
        if Overcounted(states[n], i, k) {
          ReplicationCountSound(capacity, states, actions, n, i, k);
        }
      }
    }
  }
}
