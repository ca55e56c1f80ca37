/**
  The sending end of a snapshot stream and the answers of the follower: when
  Raft_send_snapshot takes the snapshot for installed (raft_leader.c:49-66).
*/
module StreamEnds {
  import opened RaftTypes
  import opened ServerSpec
  import opened Cluster
  import opened HandlerLaws

  /** The thread that has sent `done` waits no longer, and reads that the follower has not refused. */
  predicate SenderEnds(s: Server, m: InstallRequest)
    requires s.Shaped()
  {
    m.done && m.requestId != s.lastRequest[m.follower] && s.lastResponse[m.follower] != 0
  }

  /**
    The answer to the outstanding `done` of a leader lets the sender end if and
    only if the follower was waiting for it. Otherwise the sender gives up.
  */
  lemma DoneAnswerDecides(s: Server, m: InstallRequest, x: Server, stale: Entry)
    requires s.Shaped() && x.Shaped() && s.role.Leader? && m.done && m.snapshotId >= 0
    requires m.term == s.term && m.leader == s.id && m.follower == x.id && m.requestId == s.lastRequest[x.id]
    requires s.nextIndex[x.id] < s.start && x.term <= s.term
    ensures var t := HandleReply(s, HandleInstallRequest(x, m).1, stale);
      && t.lastRequest[x.id] == m.requestId + 1
      && (SenderEnds(t, m) <==> Awaits(Heard(x, m.term), m))
  {
    InstallLaw(x, m);
    LeaderReplyLaw(s, HandleInstallRequest(x, m).1, stale);
  }

  /**
    But any reply of the term that comes between the answer and the sender's look
    has the last word, whatever it was about: the sender then ends if and only if
    that reply does not say 0.
  */
  lemma LateReplyHasTheLastWord(s: Server, m: InstallRequest, r: Reply, stale: Entry)
    requires s.Shaped() && s.role.Leader? && m.done && m.requestId != s.lastRequest[m.follower]
    requires r.term == s.term && r.from == m.follower && r.requestId != s.lastRequest[m.follower]
    ensures SenderEnds(HandleReply(s, r, stale), m) <==> r.success != 0
  {
    LeaderReplyLaw(s, r, stale);
  }

  /**
    At step k server i takes a reply of f in its own term that does not say 0, or
    wins an election.
  */
  predicate ToldAt(c: Cluster, a: Action, i: Id, f: Id)
    requires c.Shaped()
  {
    && a.DeliverReply? && a.reply.to == i && a.reply.term == c.servers[i].term
    && ((a.reply.from == f && a.reply.success != 0) || Wins(c.servers[i], a.reply))
  }

  ghost predicate ToldBefore(states: seq<Cluster>, actions: seq<Action>, n: nat, i: Id, f: Id) {
    exists k :: 0 <= k < n && k < |states| && k < |actions| && states[k].Shaped() && ToldAt(states[k], actions[k], i, f)
  }

  lemma ReplyTold(s: Server, r: Reply, stale: Entry, f: Id)
    requires s.Shaped() && HandleReply(s, r, stale).lastResponse[f] != 0 && s.lastResponse[f] == 0
    ensures r.term == s.term && ((r.from == f && r.success != 0) || Wins(s, r))
  {
    if r.term != s.term {
      OtherTermLaw(s, r, stale);
    } else if s.role.Candidate? {
      BallotLaw(s, r, stale);
    } else {
      LeaderReplyLaw(s, r, stale);
    }
  }

  /** What a server or its disk notes of f comes from one of both, unless it takes a reply. */
  ghost predicate FromBefore(c: Cluster, c': Cluster, i: Id, f: Id)
    requires c.Shaped() && c'.Shaped()
  {
    var (x, y) := (c.servers[i].lastResponse[f], c.disk[i].lastResponse[f]);
    c'.servers[i].lastResponse[f] in {x, y} && c'.disk[i].lastResponse[f] in {x, y}
  }

  lemma VoteKeepsResponses(c: Cluster, i: Id, f: Id, j: Id, m: VoteRequest)
    requires c.Shaped()
    ensures FromBefore(c, DoVote(c, j, m), i, f)
  {
    VoteLaw(c.servers[j], m);
  }

  lemma AppendKeepsResponses(c: Cluster, i: Id, f: Id, m: AppendRequest)
    requires c.Shaped() && (Consistent(c.servers[m.follower], m) ==> Storable(c.servers[m.follower], m))
    ensures FromBefore(c, DoAppend(c, m), i, f)
  {
    AppendRequestLaw(c.servers[m.follower], m);
  }

  lemma InstallKeepsResponses(c: Cluster, i: Id, f: Id, m: InstallRequest)
    requires c.Shaped() && m.snapshotId >= 0
    ensures FromBefore(c, DoInstall(c, m), i, f)
  {
    InstallLaw(c.servers[m.follower], m);
  }

  predicate IsRequest(a: Action) {
    a.DeliverVote? || a.DeliverAppend? || a.DeliverInstall?
  }

  lemma RestKeepsResponses(mode: Delivery, c: Cluster, a: Action, i: Id, f: Id)
    requires c.Shaped() && Enabled(mode, c, a) && !a.DeliverReply? && !IsRequest(a)
    ensures FromBefore(c, Step(mode, c, a), i, f)
  {
  }

  lemma ReplyKeepsResponses(mode: Delivery, c: Cluster, r: Reply, stale: Entry, i: Id, f: Id)
    requires c.Shaped()
    ensures var c' := DoReply(mode, c, r, stale);
      && (r.to != i ==> FromBefore(c, c', i, f))
      && c'.disk[i].lastResponse[f] in {c'.servers[i].lastResponse[f], c.disk[i].lastResponse[f]}
      && (r.to == i ==> c'.servers[i] == HandleReply(c.servers[i], r, stale))
  {
  }

  lemma OthersKeepResponses(mode: Delivery, c: Cluster, a: Action, i: Id, f: Id)
    requires c.Shaped() && Enabled(mode, c, a) && !a.DeliverReply?
    ensures FromBefore(c, Step(mode, c, a), i, f)
  {
    match a
    case DeliverVote(j, m) => VoteKeepsResponses(c, i, f, j, m);
    case DeliverAppend(m) => AppendKeepsResponses(c, i, f, m);
    case DeliverInstall(m) => InstallKeepsResponses(c, i, f, m);
    case _ => RestKeepsResponses(mode, c, a, i, f);
  }

  /** Something other than 0 is noted of f. */
  predicate Remembers(c: Cluster, i: Id, f: Id)
    requires c.Shaped()
  {
    c.servers[i].lastResponse[f] != 0 || c.disk[i].lastResponse[f] != 0
  }

  lemma StepTold(mode: Delivery, c: Cluster, a: Action, i: Id, f: Id)
    requires c.Shaped() && Enabled(mode, c, a) && Remembers(Step(mode, c, a), i, f) && !Remembers(c, i, f)
    ensures ToldAt(c, a, i, f)
  {
    if a.DeliverReply? {
      ReplyKeepsResponses(mode, c, a.reply, a.stale, i, f);
      ReplyTold(c.servers[i], a.reply, a.stale, f);
    } else {
      OthersKeepResponses(mode, c, a, i, f);
    }
  }

  lemma StartRemembersNothing(capacity: nat, i: Id, f: Id)
    ensures !Remembers(Start(capacity), i, f)
  {
    assert i == 0 || i == 1 || i == 2 || i == 3 || i == 4;
  }

  lemma {:induction false} RememberedWasTold(mode: Delivery, capacity: nat, states: seq<Cluster>, actions: seq<Action>, n: nat,
                                        i: Id, f: Id)
    requires IsRun(mode, capacity, states, actions) && n < |states| && Remembers(states[n], i, f)
    ensures ToldBefore(states, actions, n, i, f)
  {
    if n == 0 {
      StartRemembersNothing(capacity, i, f);
    } else if Remembers(states[n - 1], i, f) {
      RememberedWasTold(mode, capacity, states, actions, n - 1, i, f);
      var k :| 0 <= k < n - 1 && ToldAt(states[k], actions[k], i, f);
      assert ToldAt(states[k], actions[k], i, f);
    } else {
      StepTold(mode, states[n - 1], actions[n - 1], i, f);
    }
  }

  /**
    Over every run, a leader takes a stream for finished only after a reply of that
    follower, taken in its own term, that does not say 0, or after it has won an
    election.
  */
  lemma StreamEndsOnlyWhenTold(mode: Delivery, capacity: nat, states: seq<Cluster>, actions: seq<Action>, n: nat, i: Id, f: Id)
    requires IsRun(mode, capacity, states, actions) && n < |actions| && actions[n] == EndStream(i, f)
    ensures ToldBefore(states, actions, n, i, f)
  {
    RememberedWasTold(mode, capacity, states, actions, n, i, f);
  }
}
