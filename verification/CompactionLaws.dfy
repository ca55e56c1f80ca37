/**
  A compaction is invisible to the handlers: a server that compacts its log at any
  moments answers, sends and commits as one that never does, as long as what
  reaches it is about positions that it still holds. And the counters of a leader
  stay true over compactions.
*/
module CompactionLaws {
  import opened RaftTypes
  import opened ServerSpec
  import opened HandlerLaws
  import opened Cluster
  import opened Replication

  // ---------------------------------------------------------------------------
  // Every handler after a compaction is the compaction after the handler

  lemma SameLastTerm(log: seq<Entry>, d: nat)
    requires d < |log|
    ensures LastTerm(log[d..]) == LastTerm(log)
  {
  }

  lemma HeardCommutes(s: Server, k: nat, term: int)
    requires s.Shaped() && s.start <= k <= s.LogCount()
    ensures Heard(FinishSnapshot(s, k), term) == FinishSnapshot(Heard(s, term), k)
  {
  }

  lemma VoteCommutes(s: Server, k: nat, m: VoteRequest)
    requires s.Shaped() && s.start <= k < s.LogCount()
    ensures HandleVoteRequest(FinishSnapshot(s, k), m).1 == HandleVoteRequest(s, m).1
    ensures HandleVoteRequest(s, m).0.Shaped() && HandleVoteRequest(s, m).0.log == s.log
    ensures HandleVoteRequest(s, m).0.start == s.start
    ensures HandleVoteRequest(FinishSnapshot(s, k), m).0 == FinishSnapshot(HandleVoteRequest(s, m).0, k)
  {
    SameLastTerm(s.log, k - s.start);
    HeardCommutes(s, k, m.term);
    VoteLaw(s, m);
    VoteLaw(FinishSnapshot(s, k), m);
  }

  lemma PutCommutes(log: seq<Entry>, counts: seq<int>, d: nat, k: nat, e: Entry, n: int)
    requires d <= k <= |log| == |counts|
    ensures Put(log[d..], k - d, e) == Put(log, k, e)[d..]
    ensures PutCount(log[d..], counts[d..], k - d, e, n) == PutCount(log, counts, k, e, n)[d..]
  {
    assert log[d..][..k - d] == log[..k][d..] && counts[d..][..k - d] == counts[..k][d..];
  }

  lemma AcceptCommutes(s: Server, k: nat, m: AppendRequest)
    requires s.Shaped() && s.start <= k <= m.prevIndex < s.LogCount() && Storable(s, m)
    ensures Accept(s, m).start == s.start && k <= Accept(s, m).LogCount()
    ensures Accept(FinishSnapshot(s, k), m) == FinishSnapshot(Accept(s, m), k)
  {
    if m.entry.Some? {
      PutCommutes(s.log, s.replicated, k - s.start, m.prevIndex + 1 - s.start, m.entry.value, m.replicated);
    }
  }

  lemma AppendCommutes(s: Server, k: nat, m: AppendRequest)
    requires s.Shaped() && s.start <= k <= s.LogCount() && k <= m.prevIndex
    requires Consistent(s, m) ==> Storable(s, m)
    ensures var (t, r) := HandleAppendRequest(s, m);
      && t.start == s.start && k <= t.LogCount()
      && HandleAppendRequest(FinishSnapshot(s, k), m) == (FinishSnapshot(t, k), r)
  {
    var u := if s.term < m.term then ConvertToFollower(s, m.term) else s;
    assert Consistent(FinishSnapshot(s, k), m) <==> Consistent(s, m);
    if Consistent(s, m) {
      AcceptCommutes(u, k, m);
    }
  }

  lemma UpdateCommutes(xs: seq<int>, d: nat, i: nat, x: int)
    requires d <= i < |xs|
    ensures xs[i := x][d..] == xs[d..][i - d := x]
  {
  }

  lemma CountedCommutes(s: Server, k: nat, f: Id)
    requires s.Shaped() && s.start <= k <= s.nextIndex[f] < s.LogCount()
    ensures var t := HandleAppendReply(s, f, 1);
      && t.start == s.start && k <= t.LogCount()
      && HandleAppendReply(FinishSnapshot(s, k), f, 1) == FinishSnapshot(t, k)
  {
    var (c, i) := (FinishSnapshot(s, k), s.nextIndex[f] - s.start);
    UpdateCommutes(s.replicated, k - s.start, i, s.replicated[i] + 1);
    assert c.replicated[s.nextIndex[f] - k] == s.replicated[i] && (Counts(c, f) <==> Counts(s, f));
  }

  lemma AppendReplyCommutes(s: Server, k: nat, f: Id, success: int)
    requires s.Shaped() && s.start <= k <= s.LogCount() && k <= s.nextIndex[f]
    ensures var t := HandleAppendReply(s, f, success);
      && t.start == s.start && k <= t.LogCount()
      && HandleAppendReply(FinishSnapshot(s, k), f, success) == FinishSnapshot(t, k)
  {
    if success != 0 && s.nextIndex[f] < s.LogCount() {
      CountedCommutes(s, k, f);
      AnySuccess(s, f, success);
      AnySuccess(FinishSnapshot(s, k), f, success);
    }
  }

  lemma AnySuccess(s: Server, f: Id, success: int)
    requires s.Shaped() && s.start <= s.nextIndex[f] && success != 0
    ensures HandleAppendReply(s, f, success) == HandleAppendReply(s, f, 1)
  {
  }

  lemma WinCommutes(s: Server, k: nat, stale: Entry)
    requires s.Shaped() && s.start <= k <= s.LogCount()
    ensures ConvertToLeader(FinishSnapshot(s, k), stale) == FinishSnapshot(ConvertToLeader(s, stale), k)
  {
  }

  lemma CandidateCommutes(s: Server, k: nat, r: Reply, stale: Entry)
    requires s.Shaped() && s.start <= k <= s.LogCount() && s.term == r.term && s.role.Candidate?
    ensures var t := HandleReply(s, r, stale);
      && t.start == s.start && k <= t.LogCount()
      && HandleReply(FinishSnapshot(s, k), r, stale) == FinishSnapshot(t, k)
  {
    var s1 := s.(lastResponse := s.lastResponse[r.from := r.success]);
    VoteCountCommutes(s1, k, r.success);
    WinCommutes(CountVote(s1, r.success), k, stale);
  }

  lemma VoteCountCommutes(s: Server, k: nat, success: int)
    requires s.Shaped() && s.start <= k <= s.LogCount()
    ensures var t := CountVote(s, success);
      t.Shaped() && t.start == s.start && t.log == s.log && CountVote(FinishSnapshot(s, k), success) == FinishSnapshot(t, k)
  {
  }

  lemma LeaderCommutes(s: Server, k: nat, r: Reply, stale: Entry)
    requires s.Shaped() && s.start <= k <= s.LogCount() && s.term == r.term && !s.role.Candidate?
    requires s.nextIndex[r.from] < s.start || k <= s.nextIndex[r.from]
    ensures var t := HandleReply(s, r, stale);
      && t.start == s.start && k <= t.LogCount()
      && HandleReply(FinishSnapshot(s, k), r, stale) == FinishSnapshot(t, k)
  {
    var u := Noted(s, r);
    LeaderReplyLaw(s, r, stale);
    LeaderReplyLaw(FinishSnapshot(s, k), r, stale);
    assert Noted(FinishSnapshot(s, k), r) == FinishSnapshot(u, k);
    if s.start <= s.nextIndex[r.from] {
      AppendReplyCommutes(u, k, r.from, r.success);
    }
  }

  lemma ReplyCommutes(s: Server, k: nat, r: Reply, stale: Entry)
    requires s.Shaped() && s.start <= k <= s.LogCount()
    requires s.nextIndex[r.from] < s.start || k <= s.nextIndex[r.from]
    ensures var t := HandleReply(s, r, stale);
      && t.start == s.start && k <= t.LogCount()
      && HandleReply(FinishSnapshot(s, k), r, stale) == FinishSnapshot(t, k)
  {
    if s.term == r.term && s.role.Candidate? {
      CandidateCommutes(s, k, r, stale);
    } else if s.term == r.term {
      LeaderCommutes(s, k, r, stale);
    }
  }

  /** The request to a follower is the same exactly if the position before it is still in the window, or was not before. */
  lemma RequestSameIff(s: Server, k: nat, f: Id)
    requires s.Shaped() && s.start <= k <= s.nextIndex[f] <= s.LogCount()
    ensures AppendRequestTo(FinishSnapshot(s, k), f) == AppendRequestTo(s, f)
       <==> k < s.nextIndex[f] || TermThere(s, k - 1, -1)
  {
  }

  lemma ClientCommutes(s: Server, k: nat, e: Entry)
    requires s.Shaped() && s.start <= k <= s.LogCount() && CanAppend(s)
    ensures AppendEntry(FinishSnapshot(s, k), e) == FinishSnapshot(AppendEntry(s, e), k)
  {
  }

  // ---------------------------------------------------------------------------
  // Over any history of one server

  datatype Event =
    | Stand
    | Vote(ballot: VoteRequest)
    | Append(append: AppendRequest)
    | Answer(reply: Reply, stale: Entry)
    | Client(entry: Entry)
    | Send(f: Id)
    | Back
    | Shift(newStart: nat)

  /** What goes out. */
  datatype Message = Nothing | Ballots(ballots: VoteRequest) | Replies(reply: Reply) | Requests(request: AppendRequest)

  predicate Possible(s: Server, e: Event)
    requires s.Shaped()
  {
    match e
    case Append(m) => Consistent(s, m) ==> Storable(s, m)
    case Send(f) => s.start <= s.nextIndex[f] <= s.LogCount()
    case Shift(newStart) => s.start <= newStart <= s.LogCount()
    case _ => true
  }

  function After(s: Server, e: Event): (t: Server)
    requires s.Shaped() && Possible(s, e)
    ensures t.Shaped()
  {
    match e
    case Stand => StartElection(s)
    case Vote(m) => HandleVoteRequest(s, m).0
    case Append(m) => HandleAppendRequest(s, m).0
    case Answer(r, stale) => HandleReply(s, r, stale)
    case Client(e) => AppendEntry(s, e)
    case Send(f) => s
    case Back => Restore(s)
    case Shift(newStart) => FinishSnapshot(s, newStart)
  }

  function Out(s: Server, e: Event): Message
    requires s.Shaped() && Possible(s, e)
  {
    match e
    case Stand => Ballots(VoteRequestOf(StartElection(s)))
    case Vote(m) => Replies(HandleVoteRequest(s, m).1)
    case Append(m) => Replies(HandleAppendRequest(s, m).1)
    case Send(f) => Requests(AppendRequestTo(s, f))
    case _ => Nothing
  }

  /** The event is about positions that a window from k on holds; the plain server s never shifts. */
  predicate Within(s: Server, k: nat, e: Event)
    requires s.Shaped()
  {
    match e
    case Stand => k < s.LogCount()
    case Vote(_) => k < s.LogCount()
    case Append(m) => k <= m.prevIndex
    case Answer(r, _) => k <= s.nextIndex[r.from]
    case Client(_) => s.role.Leader? ==> s.HasRoom()
    case Send(f) => k < s.nextIndex[f]
    case Back => true
    case Shift(newStart) => k <= newStart <= s.LogCount()
  }

  /** The same event for a server that does not compact. */
  function Plain(s: Server, e: Event): (t: Server)
    requires s.Shaped() && (!e.Shift? ==> Possible(s, e))
    ensures t.Shaped()
  {
    if e.Shift? then s else After(s, e)
  }

  /** c is the plain server s with a window from k on; its flag is down, and its memory may be another. */
  predicate Windowed(s: Server, c: Server, k: nat)
    requires s.Shaped()
  {
    s.start <= k <= s.LogCount() && c == FinishSnapshot(s, k).(capacity := c.capacity)
  }

  function NextStart(k: nat, e: Event): nat {
    if e.Shift? then e.newStart else k
  }

  lemma ShiftTwice(s: Server, c: Server, k: nat, newStart: nat)
    requires s.Shaped() && Windowed(s, c, k) && k <= newStart <= s.LogCount()
    ensures Windowed(s, FinishSnapshot(c, newStart), newStart)
  {
    var (a, b) := (k - s.start, newStart - k);
    assert s.log[a..][b..] == s.log[a + b..] && s.replicated[a..][b..] == s.replicated[a + b..];
  }

  lemma MemoryAtVote(c: Server, n: nat, m: VoteRequest)
    ensures HandleVoteRequest(c.(capacity := n), m).0 == HandleVoteRequest(c, m).0.(capacity := n)
    ensures HandleVoteRequest(c.(capacity := n), m).1 == HandleVoteRequest(c, m).1
  {
    VoteLaw(c, m);
    VoteLaw(c.(capacity := n), m);
  }

  lemma MemoryAtAccept(c: Server, n: nat, m: AppendRequest)
    requires c.Shaped() && m.prevIndex < c.LogCount() && Storable(c, m) && Storable(c.(capacity := n), m)
    ensures Accept(c.(capacity := n), m) == Accept(c, m).(capacity := n)
  {
  }

  lemma MemoryAtAppend(c: Server, n: nat, m: AppendRequest)
    requires c.Shaped() && (Consistent(c, m) ==> Storable(c, m) && Storable(c.(capacity := n), m))
    ensures HandleAppendRequest(c.(capacity := n), m).0 == HandleAppendRequest(c, m).0.(capacity := n)
    ensures HandleAppendRequest(c.(capacity := n), m).1 == HandleAppendRequest(c, m).1
  {
    var u := if c.term < m.term then ConvertToFollower(c, m.term) else c;
    assert Consistent(c.(capacity := n), m) <==> Consistent(c, m);
    assert u.(capacity := n) == if c.term < m.term then ConvertToFollower(c.(capacity := n), m.term) else c.(capacity := n);
    if Consistent(c, m) {
      MemoryAtAccept(u, n, m);
    }
  }

  lemma MemoryAtBallot(c: Server, n: nat, r: Reply, stale: Entry)
    requires c.Shaped() && c.term == r.term && c.role.Candidate?
    ensures HandleReply(c.(capacity := n), r, stale) == HandleReply(c, r, stale).(capacity := n)
  {
    var u := c.(lastResponse := c.lastResponse[r.from := r.success]);
    assert CountVote(u.(capacity := n), r.success) == CountVote(u, r.success).(capacity := n);
  }

  lemma MemoryAtAppendReply(c: Server, n: nat, f: Id, success: int)
    requires c.Shaped() && c.start <= c.nextIndex[f]
    ensures HandleAppendReply(c.(capacity := n), f, success) == HandleAppendReply(c, f, success).(capacity := n)
  {
  }

  lemma MemoryAtReply(c: Server, n: nat, r: Reply, stale: Entry)
    requires c.Shaped()
    ensures HandleReply(c.(capacity := n), r, stale) == HandleReply(c, r, stale).(capacity := n)
  {
    if c.term == r.term && c.role.Candidate? {
      MemoryAtBallot(c, n, r, stale);
    } else if c.term == r.term && c.start <= c.nextIndex[r.from] {
      MemoryAtAppendReply(c.(lastResponse := c.lastResponse[r.from := r.success]), n, r.from, r.success);
    }
  }

  /** Room is the only thing that the size of memory decides. */
  lemma MemoryIrrelevant(c: Server, n: nat, e: Event)
    requires c.Shaped() && Possible(c, e) && Possible(c.(capacity := n), e)
    requires e.Client? ==> (c.role.Leader? ==> c.HasRoom() && c.(capacity := n).HasRoom())
    ensures After(c.(capacity := n), e) == After(c, e).(capacity := n)
    ensures Out(c.(capacity := n), e) == Out(c, e)
  {
    match e
    case Vote(m) => MemoryAtVote(c, n, m);
    case Append(m) => MemoryAtAppend(c, n, m);
    case Answer(r, stale) => MemoryAtReply(c, n, r, stale);
    case _ =>
  }

  lemma EventCommutes(s: Server, k: nat, e: Event)
    requires s.Shaped() && s.start <= k <= s.LogCount() && !e.Shift? && Possible(s, e) && Within(s, k, e)
    ensures var c := FinishSnapshot(s, k);
      && Possible(c, e) && After(s, e).start == s.start && k <= After(s, e).LogCount()
      && After(c, e) == FinishSnapshot(After(s, e), k) && Out(c, e) == Out(s, e)
  {
    match e
    case Vote(m) => VoteCommutes(s, k, m);
    case Append(m) => AppendCommutes(s, k, m);
    case Answer(r, stale) => ReplyCommutes(s, k, r, stale);
    case Client(e) =>
      if CanAppend(s) {
        ClientCommutes(s, k, e);
      }
    case Send(f) => RequestSameIff(s, k, f);
    case _ =>
  }

  /** One event at the compacting server and at the plain one. */
  lemma EventAgrees(s: Server, c: Server, k: nat, e: Event)
    requires s.Shaped() && c.Shaped() && Windowed(s, c, k) && Within(s, k, e) && Possible(c, e)
    requires !e.Shift? ==> Possible(s, e)
    requires e.Client? && c.role.Leader? ==> c.HasRoom()
    ensures Windowed(Plain(s, e), After(c, e), NextStart(k, e))
    ensures !e.Shift? ==> Out(c, e) == Out(s, e)
  {
    if e.Shift? {
      ShiftTwice(s, c, k, e.newStart);
    } else {
      EventCommutes(s, k, e);
      MemoryIrrelevant(FinishSnapshot(s, k), c.capacity, e);
    }
  }

  /** Both servers go through the same events, of which the plain one leaves the compactions out. */
  ghost predicate SideBySide(plain: seq<Server>, window: seq<Server>, starts: seq<nat>, events: seq<Event>) {
    && |plain| == |window| == |starts| == |events| + 1
    && (forall n :: 0 <= n < |plain| ==> plain[n].Shaped() && window[n].Shaped())
    && plain[0].start == 0 && starts[0] == 0 && Windowed(plain[0], window[0], 0)
    && (forall n :: 0 <= n < |events| ==> Together(plain, window, starts, events, n))
  }

  ghost predicate Together(plain: seq<Server>, window: seq<Server>, starts: seq<nat>, events: seq<Event>, n: nat)
    requires |plain| == |window| == |starts| == |events| + 1 && n < |events|
  {
    var (s, c, e) := (plain[n], window[n], events[n]);
    && s.Shaped() && c.Shaped() && Within(s, starts[n], e) && Possible(c, e) && (!e.Shift? ==> Possible(s, e))
    && (e.Client? && c.role.Leader? ==> c.HasRoom())
    && plain[n + 1] == Plain(s, e) && window[n + 1] == After(c, e) && starts[n + 1] == NextStart(starts[n], e)
  }

  /**
    Over any history, with compactions at any moments, the compacting server is the
    plain one with a shorter window, and sends the same.
  */
  lemma {:induction false} CompactionUnseen(plain: seq<Server>, window: seq<Server>, starts: seq<nat>, events: seq<Event>, n: nat)
    requires SideBySide(plain, window, starts, events) && n < |plain|
    ensures Windowed(plain[n], window[n], starts[n])
    ensures n < |events| && !events[n].Shift? ==>
      Possible(window[n], events[n]) && Possible(plain[n], events[n])
      && Out(window[n], events[n]) == Out(plain[n], events[n])
  {
    if n > 0 {
      CompactionUnseen(plain, window, starts, events, n - 1);
      assert Together(plain, window, starts, events, n - 1);
      EventAgrees(plain[n - 1], window[n - 1], starts[n - 1], events[n - 1]);
    }
    if n < |events| {
      assert Together(plain, window, starts, events, n);
      EventAgrees(plain[n], window[n], starts[n], events[n]);
    }
  }

  // ---------------------------------------------------------------------------
  // The counters of a leader, for a window with any start

  /** No counter of an entry of the leader's term is larger than the number of followers that have confirmed it, and itself. */
  ghost predicate CountsTrue(s: Server, settled: set<(int, Id)>)
    requires s.Shaped()
  {
    forall p :: s.InWindow(p) && s.EntryAt(p).term == s.term ==> CountAt(s, p) <= 1 + |Confirmed(s, settled, p)|
  }

  /** The end of a compaction keeps that for every server. */
  lemma CompactionKeepsCounts(mode: Delivery, c: Cluster, i: Id, newStart: nat)
    requires c.Shaped() && Enabled(mode, c, EndSnapshot(i, newStart))
    requires forall j: Id :: CountsTrue(c.servers[j], c.h.settled)
    ensures var c' := Step(mode, c, EndSnapshot(i, newStart)); forall j: Id :: CountsTrue(c'.servers[j], c'.h.settled)
  {
    var (s, t) := (c.servers[i], FinishSnapshot(c.servers[i], newStart));
    ShiftLaw(s, newStart);
    forall p | t.InWindow(p) && t.EntryAt(p).term == t.term
      ensures CountAt(t, p) <= 1 + |Confirmed(t, c.h.settled, p)|
    {
      assert Confirmed(t, c.h.settled, p) == Confirmed(s, c.h.settled, p);
    }
  }

  /** So does an answer: a success that is counted confirms its position, and a refusal comes only before the first success. */
  lemma AnswerKeepsCounts(s: Server, settled: set<(int, Id)>, f: Id, success: int)
    requires s.Shaped() && s.start <= s.nextIndex[f] && f != s.id && CountsTrue(s, settled)
    requires success == 0 ==> (s.term, f) !in settled
    ensures var t := HandleAppendReply(s, f, success);
      CountsTrue(t, if success == 0 then settled else settled + {(s.term, f)})
  {
    var (t, now) := (HandleAppendReply(s, f, success), if success == 0 then settled else settled + {(s.term, f)});
    CountLaw(s, f, success);
    PlaceLaw(s, f, success);
    forall p | t.InWindow(p) && t.EntryAt(p).term == t.term
      ensures CountAt(t, p) <= 1 + |Confirmed(t, now, p)|
    {
      assert s.InWindow(p) && s.EntryAt(p) == t.EntryAt(p);
      MoreConfirmed(s, t, settled, now, f, p);
    }
  }

  lemma MoreConfirmed(s: Server, t: Server, settled: set<(int, Id)>, now: set<(int, Id)>, f: Id, p: int)
    requires s.Shaped() && t.Shaped() && t.term == s.term && t.id == s.id && f != s.id && settled <= now
    requires forall g: Id :: g != f ==> t.nextIndex[g] == s.nextIndex[g]
    requires t.nextIndex[f] >= s.nextIndex[f] || (s.term, f) !in settled
    ensures |Confirmed(s, settled, p)| <= |Confirmed(t, now, p)|
    ensures s.nextIndex[f] == p < t.nextIndex[f] && (s.term, f) in now ==>
      |Confirmed(s, settled, p)| + 1 <= |Confirmed(t, now, p)|
  {
    var (a, b) := (Confirmed(s, settled, p), Confirmed(t, now, p));
    SubsetCardinality(a, b);
    if s.nextIndex[f] == p < t.nextIndex[f] && (s.term, f) in now {
      SubsetCardinality(a + {f}, b);
    }
  }
}
