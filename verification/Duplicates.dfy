/**
  Votes are counted by increment: with a network that may deliver a vote reply
  twice, two servers can lead in one term. With `Elections.ElectionSafety` this
  gives the exact condition for election safety.
*/
module Duplicates {
  import opened RaftTypes
  import opened ServerSpec
  import opened Cluster
  import opened Elections
  import opened Scenes

  function Running(i: Id, capacity: nat): Server {
    StartElection(Init(i, capacity))
  }

  function BallotFor(i: Id, capacity: nat): VoteRequest {
    VoteRequestOf(Running(i, capacity))
  }

  function Grant(from: Id, to: Id): Reply {
    Reply(from, to, 1, 1, -1, Ballot)
  }

  /** i stands for term 1 and v votes for it; nobody else moves. */
  lemma StandAndVote(mode: Delivery, capacity: nat, states: seq<Cluster>, actions: seq<Action>, i: Id, v: Id)
    returns (more: seq<Cluster>, acts: seq<Action>)
    requires IsWholeLogRun(mode, capacity, states, actions) && i != v
    requires Untouched(states[|actions|], capacity, i) && Untouched(states[|actions|], capacity, v)
    ensures IsWholeLogRun(mode, capacity, more, acts)
    ensures more[|acts|].servers[i] == Running(i, capacity) && BallotFor(i, capacity) in more[|acts|].net.votes
    ensures Grant(v, i) in more[|acts|].net.replies
    ensures forall j: Id :: j != i && j != v ==> more[|acts|].servers[j] == states[|actions|].servers[j]
  {
    more, acts := Extend(mode, capacity, states, actions, Elect(i));
    assert BallotFor(i, capacity) in more[|acts|].net.votes;
    more, acts := Extend(mode, capacity, more, acts, DeliverVote(v, BallotFor(i, capacity)));
  }

  /** A candidate of term 1 with n votes and room in its log. */
  predicate Standing(s: Server, n: int) {
    s.Shaped() && s.role.Candidate? && s.term == 1 && s.nvoted == n && s.HasRoom()
  }

  predicate Leading(s: Server) {
    s.role.Leader? && s.term == 1
  }

  /** i counts a vote of v: one more, or it leads. */
  lemma CountVoteOf(mode: Delivery, capacity: nat, states: seq<Cluster>, actions: seq<Action>, i: Id, v: Id, n: int)
    returns (more: seq<Cluster>, acts: seq<Action>)
    requires IsWholeLogRun(mode, capacity, states, actions) && mode.duplicateVotes
    requires Standing(states[|actions|].servers[i], n) && Grant(v, i) in states[|actions|].net.replies
    ensures IsWholeLogRun(mode, capacity, more, acts) && more[|acts|].net == states[|actions|].net
    ensures if IsMajority(n + 1) then Leading(more[|acts|].servers[i]) else Standing(more[|acts|].servers[i], n + 1)
    ensures forall j: Id :: j != i ==> more[|acts|].servers[j] == states[|actions|].servers[j]
  {
    more, acts := Extend(mode, capacity, states, actions, DeliverReply(Grant(v, i), STALE));
  }

  /** i wins term 1 with the vote of v counted twice. */
  lemma WinWithOneVoter(mode: Delivery, capacity: nat, states: seq<Cluster>, actions: seq<Action>, i: Id, v: Id)
    returns (more: seq<Cluster>, acts: seq<Action>)
    requires IsWholeLogRun(mode, capacity, states, actions) && mode.duplicateVotes && capacity > 0 && i != v
    requires Untouched(states[|actions|], capacity, i) && Untouched(states[|actions|], capacity, v)
    ensures IsWholeLogRun(mode, capacity, more, acts) && Leading(more[|acts|].servers[i])
    ensures forall j: Id :: j != i && j != v ==> more[|acts|].servers[j] == states[|actions|].servers[j]
  {
    more, acts := StandAndVote(mode, capacity, states, actions, i, v);
    more, acts := CountVoteOf(mode, capacity, more, acts, i, v, 1);
    more, acts := CountVoteOf(mode, capacity, more, acts, i, v, 2);
  }

  /** Two leaders of term 1, each with one voter that is counted twice. */
  lemma TwoLeaders(mode: Delivery, capacity: nat) returns (states: seq<Cluster>, actions: seq<Action>)
    requires mode.duplicateVotes && capacity > 0
    ensures IsWholeLogRun(mode, capacity, states, actions)
    ensures Leading(states[|actions|].servers[0]) && Leading(states[|actions|].servers[2])
  {
    StartIsRun(mode, capacity);
    states, actions := [Start(capacity)], [];
    states, actions := WinWithOneVoter(mode, capacity, states, actions, 0, 1);
    assert Untouched(states[|actions|], capacity, 2) && Untouched(states[|actions|], capacity, 3);
    states, actions := WinWithOneVoter(mode, capacity, states, actions, 2, 3);
  }

  predicate LeadIn(c: Cluster, i: Id, term: int)
    requires c.Shaped()
  {
    c.servers[i].role.Leader? && c.servers[i].term == term
  }

  /** No two servers lead in one term, at one moment or at two. */
  ghost predicate OneLeaderPerTerm(states: seq<Cluster>)
    requires forall n :: 0 <= n < |states| ==> states[n].Shaped()
  {
    forall m: nat, n: nat, i: Id, j: Id, t: int ::
      m < |states| && n < |states| && LeadIn(states[m], i, t) && LeadIn(states[n], j, t) ==> i == j
  }

  lemma RunHasOneLeaderPerTerm(mode: Delivery, capacity: nat, states: seq<Cluster>, actions: seq<Action>)
    requires IsRun(mode, capacity, states, actions) && !mode.duplicateVotes
    ensures OneLeaderPerTerm(states)
  {
    forall m: nat, n: nat, i: Id, j: Id, t: int |
      m < |states| && n < |states| && LeadIn(states[m], i, t) && LeadIn(states[n], j, t)
      ensures i == j
    {
      ElectionSafety(mode, capacity, states, actions, m, n, i, j);
    }
  }

  /** Election safety holds on all runs if and only if no vote reply is delivered twice. */
  lemma ElectionSafeIff(mode: Delivery, capacity: nat)
    requires capacity > 0
    ensures (forall states: seq<Cluster>, actions: seq<Action> ::
               IsRun(mode, capacity, states, actions) ==> OneLeaderPerTerm(states))
       <==> !mode.duplicateVotes
  {
    if mode.duplicateVotes {
      var states, actions := TwoLeaders(mode, capacity);
      var last := |actions|;
      assert LeadIn(states[last], 0, 1) && LeadIn(states[last], 2, 1);
      assert !OneLeaderPerTerm(states);
    } else {
      forall states: seq<Cluster>, actions: seq<Action> | IsRun(mode, capacity, states, actions)
        ensures OneLeaderPerTerm(states)
      {
        RunHasOneLeaderPerTerm(mode, capacity, states, actions);
      }
    }
  }
}
