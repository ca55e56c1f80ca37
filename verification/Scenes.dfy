/**
  Runs of the cluster written down step by step. Server 0 leads or stands for
  election, and one other server at a time takes part; each lemma adds one step
  to a run and says what is then known of the two.
*/
module Scenes {
  import opened RaftTypes
  import opened ServerSpec
  import opened Cluster
  import opened TermLogs

  lemma Extend(mode: Delivery, capacity: nat, states: seq<Cluster>, actions: seq<Action>, a: Action)
    returns (more: seq<Cluster>, acts: seq<Action>)
    requires IsWholeLogRun(mode, capacity, states, actions) && Enabled(mode, states[|actions|], a) && KeepsWholeLog(a)
    ensures IsWholeLogRun(mode, capacity, more, acts) && more[|acts|] == Step(mode, states[|actions|], a)
    ensures |more| == |states| + 1 && more[..|states|] == states && acts == actions + [a]
  {
    more, acts := states + [Step(mode, states[|actions|], a)], actions + [a];
    forall n | 0 <= n < |more|
      ensures more[n].Shaped()
    {
    }
    forall n | 0 <= n < |acts|
      ensures Enabled(mode, more[n], acts[n]) && more[n + 1] == Step(mode, more[n], acts[n]) && KeepsWholeLog(acts[n])
    {
    }
  }

  /** What the slot of a new log holds, which an opening entry takes over. */
  const STALE := Entry(0, LeaderLog, 0, 0, [])

  /** Server i has never done anything. */
  predicate Untouched(c: Cluster, capacity: nat, i: Id)
    requires c.Shaped()
  {
    c.servers[i] == Init(i, capacity)
  }

  lemma StartIsRun(mode: Delivery, capacity: nat)
    ensures IsWholeLogRun(mode, capacity, [Start(capacity)], [])
    ensures forall i: Id :: Untouched(Start(capacity), capacity, i)
  {
    var c := Start(capacity);
    forall i: Id
      ensures Untouched(c, capacity, i)
    {
      assert i == 0 || i == 1 || i == 2 || i == 3 || i == 4;
    }
  }

  /**
    What is known of server 0 in term t: its log and counters, its commit index,
    its place with each follower, and how much of the log of term t each server
    has stored. `room` bounds the length of its log.
  */
  datatype View = View(
    t: int, room: nat, log: seq<Entry>, counts: seq<int>, commit: int, nexts: seq<int>, requests: seq<int>, held: seq<nat>)
  {
    predicate Shaped() {
      |counts| == |log| <= room && |nexts| == |requests| == |held| == N_SERVERS
    }
  }

  /** What is known of another server. */
  datatype Copy = Copy(term: int, log: seq<Entry>, commit: int)

  predicate Server0(c: Cluster, v: View)
    requires c.Shaped()
  {
    var s := c.servers[0];
    && s.term == v.t && s.start == 0 && s.commit == v.commit && s.capacity >= v.room
    && s.log == v.log && s.replicated == v.counts
  }

  ghost predicate Held(h: History, v: View)
    requires |v.held| == N_SERVERS
  {
    && (forall i: Id :: StoredBy(h, v.t, i) == v.held[i])
    && (forall u: int, i: Id :: u > v.t ==> (u, i) !in h.stored)
  }

  /** Server 0 leads. */
  ghost predicate Leads(c: Cluster, v: View)
    requires c.Shaped()
  {
    && v.Shaped() && Server0(c, v) && Held(c.h, v)
    && c.servers[0].role.Leader? && c.servers[0].nextIndex == v.nexts && c.servers[0].lastRequest == v.requests
  }

  predicate Has(c: Cluster, f: Id, k: Copy, room: nat)
    requires c.Shaped()
  {
    var s := c.servers[f];
    s.term == k.term && s.start == 0 && s.log == k.log && s.commit == k.commit && s.capacity >= room
  }

  /** Only servers 0 and f have moved, and no append is lost. */
  ghost predicate Aside(c: Cluster, c': Cluster, f: Id)
    requires c.Shaped() && c'.Shaped()
  {
    (forall i: Id :: i != 0 && i != f ==> c'.servers[i] == c.servers[i]) && c.net.appends <= c'.net.appends
  }

  lemma HeldSame(h: History, h': History, v: View)
    requires |v.held| == N_SERVERS && Held(h, v) && h'.stored == h.stored
    ensures Held(h', v)
  {
    forall i: Id
      ensures StoredBy(h', v.t, i) == v.held[i]
    {
      assert StoredBy(h, v.t, i) == v.held[i];
    }
  }

  lemma HeldNext(h: History, h': History, v: View, v': View, i: Id, n: nat)
    requires |v.held| == N_SERVERS && Held(h, v) && h'.stored == h.stored[(v.t, i) := n]
    requires v'.t == v.t && v'.held == v.held[i := n]
    ensures Held(h', v')
  {
    forall j: Id
      ensures StoredBy(h', v.t, j) == v'.held[j]
    {
      assert StoredBy(h, v.t, j) == v.held[j];
    }
  }

  // ---------------------------------------------------------------------------
  // An election

  /** Server 0 stands for term v.t and has n votes; nothing is stored for that term or a later one. */
  ghost predicate Race(c: Cluster, v: View, n: int)
    requires c.Shaped()
  {
    var s := c.servers[0];
    && v.Shaped() && |v.log| < v.room && Server0(c, v) && s.role.Candidate? && s.nvoted == n
    && (forall u: int, i: Id :: u >= v.t ==> (u, i) !in c.h.stored)
  }

  function BallotOf(v: View): VoteRequest {
    VoteRequest(v.t, 0, |v.log| - 1, if v.log == [] then -1 else v.log[|v.log| - 1].term)
  }

  function GrantOf(f: Id, t: int): Reply {
    Reply(f, 0, t, 1, -1, Ballot)
  }

  lemma Stands(mode: Delivery, capacity: nat, states: seq<Cluster>, actions: seq<Action>, v: View)
    returns (more: seq<Cluster>, acts: seq<Action>)
    requires IsWholeLogRun(mode, capacity, states, actions) && v.Shaped() && |v.log| < v.room
    requires Server0(states[|actions|], v) && !states[|actions|].servers[0].role.Leader?
    requires forall u: int, i: Id :: u > v.t ==> (u, i) !in states[|actions|].h.stored
    ensures IsWholeLogRun(mode, capacity, more, acts) && Aside(states[|actions|], more[|acts|], 0)
    ensures Race(more[|acts|], v.(t := v.t + 1), 1) && BallotOf(v.(t := v.t + 1)) in more[|acts|].net.votes
  {
    more, acts := Extend(mode, capacity, states, actions, Elect(0));
  }

  /** A server with an empty log that has not seen the term votes. */
  lemma VoteCast(mode: Delivery, capacity: nat, states: seq<Cluster>, actions: seq<Action>, v: View, f: Id, k: Copy)
    returns (more: seq<Cluster>, acts: seq<Action>)
    requires IsWholeLogRun(mode, capacity, states, actions) && Race(states[|actions|], v, 1) && f != 0
    requires Has(states[|actions|], f, k, v.room) && k.term < v.t && k.log == []
    requires BallotOf(v) in states[|actions|].net.votes && (v.log != [] ==> v.log[|v.log| - 1].term >= 0)
    ensures IsWholeLogRun(mode, capacity, more, acts) && Race(more[|acts|], v, 1)
    ensures more[|acts|].net == states[|actions|].net.(replies := states[|actions|].net.replies + {GrantOf(f, v.t)})
    ensures forall i: Id :: i != f ==> more[|acts|].servers[i] == states[|actions|].servers[i]
    ensures Has(more[|acts|], f, k.(term := v.t), v.room)
  {
    more, acts := Extend(mode, capacity, states, actions, DeliverVote(f, BallotOf(v)));
  }

  /** The view of a leader that has just won. */
  function Won(v: View, stale: Entry := STALE): View
    requires v.Shaped()
  {
    View(v.t, v.room, v.log + [Opening(v.t, stale)], v.counts + [1], v.commit,
         Filled(|v.log| + 1), Filled(0), [|v.log| + 1, 0, 0, 0, 0])
  }

  lemma VoteCounted(mode: Delivery, capacity: nat, states: seq<Cluster>, actions: seq<Action>, v: View, f: Id, n: int)
    returns (more: seq<Cluster>, acts: seq<Action>)
    requires IsWholeLogRun(mode, capacity, states, actions) && Race(states[|actions|], v, n) && !IsMajority(n + 1)
    requires GrantOf(f, v.t) in states[|actions|].net.replies
    ensures IsWholeLogRun(mode, capacity, more, acts) && Aside(states[|actions|], more[|acts|], 0)
    ensures Race(more[|acts|], v, n + 1)
    ensures forall r :: r in states[|actions|].net.replies && r != GrantOf(f, v.t) ==> r in more[|acts|].net.replies
  {
    more, acts := Extend(mode, capacity, states, actions, DeliverReply(GrantOf(f, v.t), STALE));
  }

  lemma HeldByWinner(h: History, h': History, v: View, n: nat)
    requires forall u: int, i: Id :: u >= v.t ==> (u, i) !in h.stored
    requires h'.stored == h.stored[(v.t, 0) := n] && v.held == [n, 0, 0, 0, 0]
    ensures Held(h', v)
  {
    forall i: Id
      ensures StoredBy(h', v.t, i) == v.held[i]
    {
      assert i != 0 ==> (v.t, i) !in h.stored;
    }
  }

  lemma VoteWins(mode: Delivery, capacity: nat, states: seq<Cluster>, actions: seq<Action>, v: View, f: Id, n: int,
                 stale: Entry := STALE)
    returns (more: seq<Cluster>, acts: seq<Action>)
    requires IsWholeLogRun(mode, capacity, states, actions) && Race(states[|actions|], v, n) && IsMajority(n + 1)
    requires GrantOf(f, v.t) in states[|actions|].net.replies
    ensures IsWholeLogRun(mode, capacity, more, acts) && Aside(states[|actions|], more[|acts|], 0)
    ensures Leads(more[|acts|], Won(v, stale))
  {
    more, acts := Extend(mode, capacity, states, actions, DeliverReply(GrantOf(f, v.t), stale));
    HeldByWinner(states[|actions|].h, more[|acts|].h, Won(v, stale), |v.log| + 1);
  }

  /** Server 0 wins the next term with the votes of 1 and 2. */
  lemma Elected(mode: Delivery, capacity: nat, states: seq<Cluster>, actions: seq<Action>, v: View, one: Copy, two: Copy,
                stale: Entry := STALE)
    returns (more: seq<Cluster>, acts: seq<Action>)
    requires IsWholeLogRun(mode, capacity, states, actions) && v.Shaped() && |v.log| < v.room
    requires Server0(states[|actions|], v) && !states[|actions|].servers[0].role.Leader?
    requires forall u: int, i: Id :: u > v.t ==> (u, i) !in states[|actions|].h.stored
    requires v.log != [] ==> v.log[|v.log| - 1].term >= 0
    requires Has(states[|actions|], 1, one, v.room) && one.term <= v.t && one.log == []
    requires Has(states[|actions|], 2, two, v.room) && two.term <= v.t && two.log == []
    ensures IsWholeLogRun(mode, capacity, more, acts) && Leads(more[|acts|], Won(v.(t := v.t + 1), stale))
    ensures Has(more[|acts|], 1, one.(term := v.t + 1), v.room) && Has(more[|acts|], 2, two.(term := v.t + 1), v.room)
    ensures more[|acts|].servers[3] == states[|actions|].servers[3]
    ensures more[|acts|].servers[4] == states[|actions|].servers[4]
    ensures states[|actions|].net.appends <= more[|acts|].net.appends
  {
    var w := v.(t := v.t + 1);
    more, acts := Stands(mode, capacity, states, actions, v);
    more, acts := VoteCast(mode, capacity, more, acts, w, 1, one);
    more, acts := VoteCast(mode, capacity, more, acts, w, 2, two);
    more, acts := VoteCounted(mode, capacity, more, acts, w, 1, 1);
    more, acts := VoteWins(mode, capacity, more, acts, w, 2, 2, stale);
  }

  function First(stale: Entry := STALE): Entry {
    Opening(1, stale)
  }

  /** The leader of term 1 when it has just won from the initial state. */
  function FirstView(room: nat, stale: Entry := STALE): View {
    View(1, room, [First(stale)], [1], -1, [1, 1, 1, 1, 1], [0, 0, 0, 0, 0], [1, 0, 0, 0, 0])
  }

  /** Server 0 wins term 1 from the initial state. */
  lemma FirstElection(mode: Delivery, capacity: nat, room: nat, stale: Entry := STALE)
    returns (states: seq<Cluster>, actions: seq<Action>)
    requires capacity >= room > 0
    ensures IsWholeLogRun(mode, capacity, states, actions) && Leads(states[|actions|], FirstView(room, stale))
    ensures Has(states[|actions|], 1, Copy(1, [], -1), room) && Has(states[|actions|], 2, Copy(1, [], -1), room)
    ensures Has(states[|actions|], 3, Copy(0, [], -1), room) && Has(states[|actions|], 4, Copy(0, [], -1), room)
  {
    var v := View(0, room, [], [], -1, Filled(0), Filled(0), [0, 0, 0, 0, 0]);
    var none := Copy(0, [], -1);
    var c := Start(capacity);
    StartIsRun(mode, capacity);
    assert Untouched(c, capacity, 0) && Untouched(c, capacity, 1) && Untouched(c, capacity, 2);
    assert Untouched(c, capacity, 3) && Untouched(c, capacity, 4);
    states, actions := Elected(mode, capacity, [c], [], v, none, none, stale);
    assert Won(v.(t := 1), stale) == FirstView(room, stale);
  }

  // ---------------------------------------------------------------------------
  // Requests to server f, step by step

  /** What server 0 sends to f. */
  function RequestTo(v: View, f: Id): AppendRequest
    requires v.Shaped() && 0 <= v.nexts[f] <= |v.log|
  {
    var next := v.nexts[f];
    AppendRequest(v.t, 0, f, next - 1, TermOf(v.log, next - 1),
                  if next < |v.log| then Some(v.log[next]) else None, if next < |v.log| then v.counts[next] else 0,
                  v.commit, v.requests[f])
  }

  function ReplyTo(m: AppendRequest, term: int, success: int): Reply {
    Reply(m.follower, 0, term, success, m.requestId, Appending(m.term, m.prevIndex, m.entry.Some?))
  }

  lemma Sent(mode: Delivery, capacity: nat, states: seq<Cluster>, actions: seq<Action>, v: View, f: Id)
    returns (more: seq<Cluster>, acts: seq<Action>)
    requires IsWholeLogRun(mode, capacity, states, actions) && Leads(states[|actions|], v)
    requires f != 0 && 0 <= v.nexts[f] <= |v.log|
    ensures IsWholeLogRun(mode, capacity, more, acts) && Leads(more[|acts|], v)
    ensures more[|acts|].servers == states[|actions|].servers && Aside(states[|actions|], more[|acts|], f)
    ensures RequestTo(v, f) in more[|acts|].net.appends
  {
    more, acts := Extend(mode, capacity, states, actions, SendAppend(0, f));
  }

  /** Server f refuses a request of an old term, or one that its log does not reach. */
  lemma Refused(mode: Delivery, capacity: nat, states: seq<Cluster>, actions: seq<Action>,
                v: View, f: Id, k: Copy, m: AppendRequest)
    returns (more: seq<Cluster>, acts: seq<Action>)
    requires IsWholeLogRun(mode, capacity, states, actions) && Leads(states[|actions|], v)
    requires f != 0 && Has(states[|actions|], f, k, v.room) && k.term <= v.t
    requires m in states[|actions|].net.appends && m.leader == 0 && m.follower == f
    requires m.term < k.term || (m.term == v.t && m.prevIndex >= |k.log|)
    ensures var now := if m.term < k.term then k.term else v.t;
      && IsWholeLogRun(mode, capacity, more, acts) && Aside(states[|actions|], more[|acts|], f)
      && Leads(more[|acts|], v) && Has(more[|acts|], f, k.(term := now), v.room)
      && ReplyTo(m, now, 0) in more[|acts|].net.replies
  {
    more, acts := Extend(mode, capacity, states, actions, DeliverAppend(m));
    HeldSame(states[|actions|].h, more[|acts|].h, v);
  }

  /** A request of the leader's term that continues the follower's log, which is a prefix of the leader's. */
  predicate Fitting(v: View, f: Id, k: Copy, m: AppendRequest) {
    && f != 0 && v.Shaped() && k.term == v.t == m.term && m.leader == 0 && m.follower == f
    && k.log <= v.log && -1 <= m.prevIndex < |k.log| && m.prevTerm == TermOf(v.log, m.prevIndex)
    && (m.entry.Some? ==> m.prevIndex + 1 < |v.log| && m.entry.value == v.log[m.prevIndex + 1])
  }

  /** The follower after such a request. */
  function Given(v: View, k: Copy, m: AppendRequest): Copy
    requires -1 <= m.prevIndex
  {
    var index := m.prevIndex + 1;
    Copy(k.term,
         if m.entry.Some? && index == |k.log| && index < |v.log| then v.log[..index + 1] else k.log,
         if m.leaderCommit <= k.commit then k.commit
         else if m.entry.Some? then Min(index, m.leaderCommit) else m.leaderCommit)
  }

  function Stored(v: View, f: Id, m: AppendRequest): View
    requires |v.held| == N_SERVERS && Covered(m) >= 0
  {
    v.(held := v.held[f := Max(v.held[f], Covered(m))])
  }

  lemma GivenLog(log: seq<Entry>, copy: seq<Entry>, index: nat)
    requires copy <= log && index <= |copy| && index < |log|
    ensures Put(copy, index, log[index]) == if index == |copy| then log[..index + 1] else copy
  {
  }

  lemma Accepted(mode: Delivery, capacity: nat, states: seq<Cluster>, actions: seq<Action>,
                 v: View, f: Id, k: Copy, m: AppendRequest)
    returns (more: seq<Cluster>, acts: seq<Action>)
    requires IsWholeLogRun(mode, capacity, states, actions) && Leads(states[|actions|], v)
    requires Has(states[|actions|], f, k, v.room) && Fitting(v, f, k, m) && m in states[|actions|].net.appends
    ensures IsWholeLogRun(mode, capacity, more, acts) && Aside(states[|actions|], more[|acts|], f)
    ensures Leads(more[|acts|], Stored(v, f, m)) && Has(more[|acts|], f, Given(v, k, m), v.room)
    ensures ReplyTo(m, v.t, 1) in more[|acts|].net.replies
    ensures |more| == |states| + 1 && more[..|states|] == states && acts == actions + [DeliverAppend(m)]
  {
    if m.entry.Some? {
      GivenLog(v.log, k.log, m.prevIndex + 1);
    }
    more, acts := Extend(mode, capacity, states, actions, DeliverAppend(m));
    assert StoredBy(states[|actions|].h, v.t, f) == v.held[f];
    HeldNext(states[|actions|].h, more[|acts|].h, v, Stored(v, f, m), f, Max(v.held[f], Covered(m)));
  }

  /** The reply is one that server 0 takes for the answer to its last request to f. */
  predicate Taken(mode: Delivery, v: View, r: Reply)
    requires |v.requests| == N_SERVERS
  {
    && r.from != 0 && r.to == 0 && r.term == v.t && r.requestId == v.requests[r.from] && r.origin.Appending?
    && (mode.staleReplies || r.origin.term == v.t)
    && (mode.blindAcks || r.success == 0 || r.origin.carried)
  }

  /** The leader after a reply, as far as it is known. */
  function Answered(v: View, f: Id, success: int): View
    requires v.Shaped() && 0 <= v.nexts[f]
  {
    var next := v.nexts[f];
    var v1 := v.(requests := v.requests[f := v.requests[f] + 1]);
    if success == 0 then v1.(nexts := v.nexts[f := next - 1])
    else if next < |v.log| then
      var counted := next > v.commit && v.log[next].term == v.t;
      var n := v.counts[next] + 1;
      v1.(nexts := v.nexts[f := next + 1],
          counts := if counted then v.counts[next := n] else v.counts,
          commit := if counted && IsMajority(n) then next else v.commit)
    else v1
  }

  lemma ReplyHandled(s: Server, v: View, r: Reply)
    requires s.Shaped() && v.Shaped() && Expected(s, r) && 0 <= v.nexts[r.from]
    requires s.term == v.t && s.start == 0 && s.log == v.log && s.replicated == v.counts && s.commit == v.commit
    requires s.nextIndex == v.nexts && s.lastRequest == v.requests
    ensures var (s', v') := (HandleReply(s, r, STALE), Answered(v, r.from, r.success));
      && s'.term == v'.t && s'.start == 0 && s'.log == v'.log && s'.replicated == v'.counts && s'.commit == v'.commit
      && s'.nextIndex == v'.nexts && s'.lastRequest == v'.requests
      && s'.role.Leader? && s'.capacity == s.capacity && v'.Shaped() && v'.held == v.held
  {
  }

  lemma ReplyTaken(mode: Delivery, capacity: nat, states: seq<Cluster>, actions: seq<Action>, v: View, r: Reply)
    returns (more: seq<Cluster>, acts: seq<Action>)
    requires IsWholeLogRun(mode, capacity, states, actions) && Leads(states[|actions|], v)
    requires r in states[|actions|].net.replies && Taken(mode, v, r) && 0 <= v.nexts[r.from]
    ensures IsWholeLogRun(mode, capacity, more, acts) && Leads(more[|acts|], Answered(v, r.from, r.success))
    ensures Aside(states[|actions|], more[|acts|], r.from)
    ensures more[|acts|].servers[r.from] == states[|actions|].servers[r.from]
  {
    ReplyHandled(states[|actions|].servers[0], v, r);
    more, acts := Extend(mode, capacity, states, actions, DeliverReply(r, STALE));
    LeaderNoted(states[|actions|].h, states[|actions|].servers[0], more[|acts|].servers[0], r);
    HeldSame(states[|actions|].h, more[|acts|].h, v);
  }

  lemma LeaderNoted(h: History, s: Server, s': Server, r: Reply)
    requires s.Shaped() && |h.tally| == N_SERVERS && s.role.Leader?
    ensures NotedReply(h, s, s', r).stored == h.stored
  {
  }

  /** The leader appends an entry of a client. */
  function WithEntry(v: View, e: Entry): View
    requires v.Shaped()
  {
    v.(log := v.log + [e], counts := v.counts + [1], held := v.held[0 := |v.log| + 1])
  }

  lemma ClientAdds(mode: Delivery, capacity: nat, states: seq<Cluster>, actions: seq<Action>, v: View, e: Entry)
    returns (more: seq<Cluster>, acts: seq<Action>)
    requires IsWholeLogRun(mode, capacity, states, actions) && Leads(states[|actions|], v)
    requires |v.log| < v.room && e.term == v.t && e.kind.ClientLog?
    ensures IsWholeLogRun(mode, capacity, more, acts) && Leads(more[|acts|], WithEntry(v, e))
    ensures more[|acts|].net == states[|actions|].net && Aside(states[|actions|], more[|acts|], 0)
  {
    more, acts := Extend(mode, capacity, states, actions, ClientAppend(0, e));
    HeldNext(states[|actions|].h, more[|acts|].h, v, WithEntry(v, e), 0, |v.log| + 1);
  }

  /** Server f refuses what comes after its log, and the leader goes one position back. */
  lemma SendAndBackOff(mode: Delivery, capacity: nat, states: seq<Cluster>, actions: seq<Action>, v: View, f: Id, k: Copy)
    returns (more: seq<Cluster>, acts: seq<Action>)
    requires IsWholeLogRun(mode, capacity, states, actions) && Leads(states[|actions|], v)
    requires f != 0 && Has(states[|actions|], f, k, v.room) && k.term <= v.t && |k.log| < v.nexts[f] <= |v.log|
    ensures IsWholeLogRun(mode, capacity, more, acts) && Aside(states[|actions|], more[|acts|], f)
    ensures Leads(more[|acts|], Answered(v, f, 0)) && Has(more[|acts|], f, k.(term := v.t), v.room)
  {
    var m := RequestTo(v, f);
    more, acts := Sent(mode, capacity, states, actions, v, f);
    more, acts := Refused(mode, capacity, more, acts, v, f, k, m);
    more, acts := ReplyTaken(mode, capacity, more, acts, v, ReplyTo(m, v.t, 0));
  }

  /** Server f stores the next entry, or confirms it, and the leader counts that. */
  lemma SendAndStore(mode: Delivery, capacity: nat, states: seq<Cluster>, actions: seq<Action>, v: View, f: Id, k: Copy)
    returns (more: seq<Cluster>, acts: seq<Action>)
    requires IsWholeLogRun(mode, capacity, states, actions) && Leads(states[|actions|], v)
    requires f != 0 && Has(states[|actions|], f, k, v.room) && k.term == v.t && k.log <= v.log
    requires 0 <= v.nexts[f] <= |k.log| && v.nexts[f] < |v.log|
    ensures var m := RequestTo(v, f);
      && IsWholeLogRun(mode, capacity, more, acts) && Aside(states[|actions|], more[|acts|], f)
      && m in more[|acts|].net.appends
      && Leads(more[|acts|], Answered(Stored(v, f, m), f, 1)) && Has(more[|acts|], f, Given(v, k, m), v.room)
  {
    var m := RequestTo(v, f);
    more, acts := Sent(mode, capacity, states, actions, v, f);
    more, acts := Accepted(mode, capacity, more, acts, v, f, k, m);
    more, acts := ReplyTaken(mode, capacity, more, acts, Stored(v, f, m), ReplyTo(m, v.t, 1));
  }

  /** A follower with the first n entries of a log. */
  function PrefixOf(t: int, log: seq<Entry>, n: nat, commit: int): Copy
    requires n <= |log|
  {
    Copy(t, log[..n], commit)
  }

  /** The place of the leader with f is n. */
  predicate PlaceIs(v: View, f: Id, n: nat) {
    v.Shaped() && v.nexts[f] == n <= |v.log|
  }

  /** The view after follower f has stored and confirmed the entry at its place. */
  function Next(v: View, f: Id): View
    requires v.Shaped() && f != 0 && 0 <= v.nexts[f] < |v.log|
  {
    Answered(Stored(v, f, RequestTo(v, f)), f, 1)
  }

  lemma NextStands(v: View, f: Id, n: nat)
    requires f != 0 && PlaceIs(v, f, n) && n < |v.log|
    ensures var w := Next(v, f); PlaceIs(w, f, n + 1) && w.log == v.log && w.t == v.t && w.room == v.room
  {
  }

  /** The follower's commit index after it stored entry n. */
  function CommitAt(v: View, n: nat, commit: int): int {
    if v.commit <= commit then commit else Min(n, v.commit)
  }

  lemma HoldsNext(v: View, f: Id, n: nat, commit: int)
    requires f != 0 && PlaceIs(v, f, n) && n < |v.log|
    ensures Given(v, PrefixOf(v.t, v.log, n, commit), RequestTo(v, f))
         == PrefixOf(v.t, v.log, n + 1, CommitAt(v, n, commit))
  {
  }

  /** Follower f stores entry n. */
  lemma StoresNext(mode: Delivery, capacity: nat, states: seq<Cluster>, actions: seq<Action>,
                   v: View, f: Id, n: nat, commit: int)
    returns (more: seq<Cluster>, acts: seq<Action>)
    requires IsWholeLogRun(mode, capacity, states, actions) && Leads(states[|actions|], v)
    requires f != 0 && PlaceIs(v, f, n) && n < |v.log|
    requires Has(states[|actions|], f, PrefixOf(v.t, v.log, n, commit), v.room)
    ensures IsWholeLogRun(mode, capacity, more, acts) && Aside(states[|actions|], more[|acts|], f)
    ensures RequestTo(v, f) in more[|acts|].net.appends && Leads(more[|acts|], Next(v, f))
    ensures Has(more[|acts|], f, PrefixOf(v.t, v.log, n + 1, CommitAt(v, n, commit)), v.room)
  {
    more, acts := SendAndStore(mode, capacity, states, actions, v, f, PrefixOf(v.t, v.log, n, commit));
    HoldsNext(v, f, n, commit);
  }

  /** The leader after a follower that stands at 0 has stored all three entries. */
  function ThreeStored(v: View, f: Id): View
    requires f != 0 && PlaceIs(v, f, 0) && |v.log| == 3
  {
    NextStands(v, f, 0);
    NextStands(Next(v, f), f, 1);
    Next(Next(Next(v, f), f), f)
  }

  lemma StoresThree(mode: Delivery, capacity: nat, states: seq<Cluster>, actions: seq<Action>, f: Id, v: View, commit: int)
    returns (more: seq<Cluster>, acts: seq<Action>)
    requires IsWholeLogRun(mode, capacity, states, actions) && Leads(states[|actions|], v) && f != 0
    requires Has(states[|actions|], f, Copy(v.t, [], commit), v.room) && PlaceIs(v, f, 0) && |v.log| == 3
    ensures IsWholeLogRun(mode, capacity, more, acts) && Aside(states[|actions|], more[|acts|], f)
    ensures Leads(more[|acts|], ThreeStored(v, f))
  {
    var (v1, c0) := (Next(v, f), CommitAt(v, 0, commit));
    NextStands(v, f, 0);
    NextStands(v1, f, 1);
    var (v2, c1) := (Next(v1, f), CommitAt(v1, 1, c0));
    assert Copy(v.t, [], commit) == PrefixOf(v.t, v.log, 0, commit);
    more, acts := StoresNext(mode, capacity, states, actions, v, f, 0, commit);
    more, acts := StoresNext(mode, capacity, more, acts, v1, f, 1, c0);
    more, acts := StoresNext(mode, capacity, more, acts, v2, f, 2, c1);
  }
}
