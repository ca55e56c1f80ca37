/**
  Client requests on one leader (server_rpc.c): each client has a slot with the
  number of its current request and the response to it, so that a repeated
  packet is answered and not handled again.
*/
module Requests {
  import opened RaftTypes

  datatype Packet = Packet(client: int, vtime: nat)

  datatype Response = Response(client: int, vtime: int, rc: int, message: string)

  /** What is sent back: E_IN_PROGRESS, or the result of the handler. */
  datatype Answer = Busy(client: int, vtime: int) | Final(response: Response)

  /** client_process_data_t; a new slot has vtime -1. */
  datatype Slot = Slot(vtime: int, processing: bool, last: Response)

  type Table = map<int, Slot>

  const FRESH := Slot(-1, false, Response(0, 0, 0, ""))

  function SlotOf(t: Table, client: int): Slot {
    if client in t then t[client] else FRESH
  }

  /** The first locked section of handle_packet; without an answer, the handler is called. */
  function Begin(t: Table, p: Packet): (Table, Option<Answer>) {
    var slot := SlotOf(t, p.client);
    if slot.vtime == p.vtime then
      (t[p.client := slot], Some(if slot.processing then Busy(p.client, p.vtime) else Final(slot.last)))
    else
      (t[p.client := slot.(vtime := p.vtime, processing := true)], None)
  }

  /** The second locked section, with the result of the handler. */
  function End(t: Table, r: Response): Table {
    t[r.client := SlotOf(t, r.client).(processing := false, last := r)]
  }

  class RequestTable {
    var table: Table

    constructor ()
      ensures table == map[]
    {
      table := map[];
    }

    /** `refusal` is the rc of a server that does not lead: E_FOLLOWER or E_ELECTION. */
    method Receive(p: Packet, refusal: Option<int>) returns (answer: Option<Answer>)
      modifies this
      ensures refusal.None? ==> table == Begin(old(table), p).0 && answer == Begin(old(table), p).1
      ensures refusal.Some? ==> table == old(table)
      ensures refusal.Some? ==> answer.Some? && answer.value.Final?
      ensures refusal.Some? ==> answer.value.response.vtime == p.vtime && answer.value.response.rc == refusal.value
      ensures refusal.Some? ==> answer.value.response.client == p.client
    {
      if refusal.Some? {
        return Some(Final(Response(p.client, p.vtime, refusal.value, "not the leader")));
      }
      if p.client !in table {
        table := table[p.client := FRESH];
      }
      var slot := table[p.client];
      assert slot == SlotOf(old(table), p.client) && table == old(table)[p.client := slot];
      if slot.vtime == p.vtime {
        return Some(if slot.processing then Busy(p.client, p.vtime) else Final(slot.last));
      }
      table := table[p.client := slot.(vtime := p.vtime, processing := true)];
      answer := None;
    }

    method Complete(r: Response)
      requires r.client in table
      modifies this
      ensures table == End(old(table), r)
    {
      table := table[r.client := table[r.client].(processing := false)];
      table := table[r.client := table[r.client].(last := r)];
    }
  }

  // ---------------------------------------------------------------------------
  // Runs

  /**
    The table with its history: `running` the handlers in flight, `arrived` and
    `started` the packets that came in and those whose handler was called,
    `results` what the handlers returned, `sent` the answers.
  */
  datatype State = State(
    table: Table, running: multiset<Packet>, arrived: seq<Packet>, started: seq<Packet>,
    results: map<Packet, Response>, sent: set<Answer>)

  datatype Action = Arrive(p: Packet) | Return(p: Packet, rc: int, message: string)

  predicate Enabled(s: State, a: Action) {
    a.Return? ==> a.p in s.running
  }

  function Step(s: State, a: Action): State {
    match a
    case Arrive(p) =>
      var (table, answer) := Begin(s.table, p);
      if answer.Some? then
        s.(table := table, arrived := s.arrived + [p], sent := s.sent + {answer.value})
      else
        s.(table := table, arrived := s.arrived + [p], started := s.started + [p],
           running := s.running + multiset{p})
    case Return(p, rc, message) =>
      var r := Response(p.client, p.vtime, rc, message);
      s.(table := End(s.table, r), running := s.running - multiset{p}, results := s.results[p := r],
         sent := s.sent + {Final(r)})
  }

  predicate IsRun(states: seq<State>, actions: seq<Action>) {
    && |states| == |actions| + 1
    && states[0] == State(map[], multiset{}, [], [], map[], {})
    && (forall n :: 0 <= n < |actions| ==> Enabled(states[n], actions[n]) && states[n + 1] == Step(states[n], actions[n]))
  }

  // ---------------------------------------------------------------------------
  // Which packets start a handler

  /** The packets of one client, in order. */
  function Of(ps: seq<Packet>, client: int): seq<Packet>
    decreases |ps|
  {
    if ps == [] then []
    else
      var (init, last) := (ps[..|ps| - 1], ps[|ps| - 1]);
      if last.client == client then Of(init, client) + [last] else Of(init, client)
  }

  lemma OfSnoc(ps: seq<Packet>, p: Packet, client: int)
    ensures Of(ps + [p], client) == Of(ps, client) + if p.client == client then [p] else []
  {
    assert (ps + [p])[..|ps|] == ps;
  }

  /** Every packet that differs from its predecessor. */
  function Changes(ps: seq<Packet>): seq<Packet>
    decreases |ps|
  {
    if ps == [] then []
    else
      var (init, last) := (ps[..|ps| - 1], ps[|ps| - 1]);
      if init == [] || init[|init| - 1] != last then Changes(init) + [last] else Changes(init)
  }

  lemma ChangesSnoc(ps: seq<Packet>, p: Packet)
    ensures Changes(ps + [p]) == if ps == [] || ps[|ps| - 1] != p then Changes(ps) + [p] else Changes(ps)
  {
    assert (ps + [p])[..|ps|] == ps;
  }

  /** No packet comes back after another one of the same client has come in between. */
  predicate Grouped(ps: seq<Packet>) {
    forall i, j, k :: 0 <= i <= j <= k < |ps| && ps[i] == ps[k] ==> ps[j] == ps[i]
  }

  predicate Distinct(ps: seq<Packet>) {
    forall i, j :: 0 <= i < j < |ps| ==> ps[i] != ps[j]
  }

  lemma {:induction false} ChangesHasAll(ps: seq<Packet>, p: Packet)
    ensures p in Changes(ps) <==> p in ps
    ensures ps != [] ==> Changes(ps) != [] && Changes(ps)[|Changes(ps)| - 1] == ps[|ps| - 1]
    decreases |ps|
  {
    if ps != [] {
      var (init, last) := (ps[..|ps| - 1], ps[|ps| - 1]);
      ChangesHasAll(init, p);
      assert ps == init + [last];
    }
  }

  lemma GroupedSnoc(ps: seq<Packet>, p: Packet)
    ensures Grouped(ps + [p]) <==> Grouped(ps) && (p in ps ==> ps[|ps| - 1] == p)
  {
    var qs := ps + [p];
    assert forall i :: 0 <= i < |ps| ==> qs[i] == ps[i];
    if Grouped(qs) && p in ps {
      var i :| 0 <= i < |ps| && ps[i] == p;
      assert qs[i] == qs[|ps|] ==> qs[|ps| - 1] == qs[i];
    }
    if Grouped(qs) {
      forall i, j, k | 0 <= i <= j <= k < |ps| && ps[i] == ps[k]
        ensures ps[j] == ps[i]
      {
        assert qs[i] == qs[k];
      }
    }
    if Grouped(ps) && (p in ps ==> ps[|ps| - 1] == p) {
      forall i, j, k | 0 <= i <= j <= k < |qs| && qs[i] == qs[k]
        ensures qs[j] == qs[i]
      {
        if k == |ps| && j < |ps| {
          assert ps[i] == p && ps[i] == ps[|ps| - 1];
        }
      }
    }
  }

  lemma DistinctSnoc(ps: seq<Packet>, p: Packet)
    ensures Distinct(ps + [p]) <==> Distinct(ps) && p !in ps
  {
    var qs := ps + [p];
    assert forall i :: 0 <= i < |ps| ==> qs[i] == ps[i];
    if Distinct(qs) {
      assert forall i, j :: 0 <= i < j < |ps| ==> qs[i] != qs[j];
      assert forall i :: 0 <= i < |ps| ==> qs[i] != qs[|ps|];
    }
  }

  lemma {:induction false} DistinctIffGrouped(ps: seq<Packet>)
    ensures Distinct(Changes(ps)) <==> Grouped(ps)
    decreases |ps|
  {
    if ps != [] {
      var (init, last) := (ps[..|ps| - 1], ps[|ps| - 1]);
      assert ps == init + [last];
      DistinctIffGrouped(init);
      ChangesHasAll(init, last);
      ChangesSnoc(init, last);
      GroupedSnoc(init, last);
      DistinctSnoc(Changes(init), last);
    }
  }

  /** A slot with number vtime, after the packets `mine`, of which `handled` started a handler. */
  predicate Tracks(mine: seq<Packet>, handled: seq<Packet>, vtime: int, client: int) {
    && handled == Changes(mine)
    && vtime == (if mine == [] then -1 else mine[|mine| - 1].vtime)
    && (mine != [] ==> mine[|mine| - 1].client == client)
  }

  /** The slot remembers the last packet, and the handlers started are the changes. */
  predicate Follows(s: State, client: int) {
    Tracks(Of(s.arrived, client), Of(s.started, client), SlotOf(s.table, client).vtime, client)
  }

  lemma TracksNext(mine: seq<Packet>, handled: seq<Packet>, vtime: int, p: Packet)
    requires Tracks(mine, handled, vtime, p.client)
    ensures Tracks(mine + [p], if vtime == p.vtime then handled else handled + [p], p.vtime, p.client)
  {
    ChangesSnoc(mine, p);
  }

  lemma ArrivalFollows(s: State, p: Packet)
    requires Follows(s, p.client)
    ensures Follows(Step(s, Arrive(p)), p.client)
  {
    OfSnoc(s.arrived, p, p.client);
    OfSnoc(s.started, p, p.client);
    TracksNext(Of(s.arrived, p.client), Of(s.started, p.client), SlotOf(s.table, p.client).vtime, p);
  }

  lemma OthersFollow(s: State, p: Packet, client: int)
    requires Follows(s, client) && p.client != client
    ensures Follows(Step(s, Arrive(p)), client)
  {
    OfSnoc(s.arrived, p, client);
    OfSnoc(s.started, p, client);
    assert Of(s.arrived, client) + [] == Of(s.arrived, client);
    assert Of(s.started, client) + [] == Of(s.started, client);
    assert SlotOf(Step(s, Arrive(p)).table, client) == SlotOf(s.table, client);
  }

  lemma StepFollows(s: State, a: Action, client: int)
    requires Enabled(s, a) && Follows(s, client)
    ensures Follows(Step(s, a), client)
  {
    if a.Arrive? {
      if a.p.client == client {
        ArrivalFollows(s, a.p);
      } else {
        OthersFollow(s, a.p, client);
      }
    }
  }

  lemma {:induction false} RunFollows(states: seq<State>, actions: seq<Action>, n: nat, client: int)
    requires IsRun(states, actions) && n < |states|
    ensures Follows(states[n], client)
  {
    if n > 0 {
      RunFollows(states, actions, n - 1, client);
      StepFollows(states[n - 1], actions[n - 1], client);
    }
  }

  /**
    At-most-once handling, for any arrivals: no request of a client is handled
    twice if and only if none of its packets comes back after another one.
  */
  lemma AtMostOnceIffGrouped(states: seq<State>, actions: seq<Action>, n: nat, client: int)
    requires IsRun(states, actions) && n < |states|
    ensures Distinct(Of(states[n].started, client)) <==> Grouped(Of(states[n].arrived, client))
  {
    RunFollows(states, actions, n, client);
    DistinctIffGrouped(Of(states[n].arrived, client));
  }

  lemma ThreeArrivals(a: Packet, b: Packet)
    requires a.client == b.client && a != b
    ensures !Grouped(Of([a, b, a], a.client))
  {
    OfSnoc([], a, a.client);
    OfSnoc([] + [a], b, a.client);
    OfSnoc([] + [a] + [b], a, a.client);
    var ps := [a, b, a];
    assert ps == [] + [a] + [b] + [a] && Of(ps, a.client) == ps;
    assert ps[0] == ps[2] && ps[1] != ps[0];
  }

  /** An old packet that arrives late is handled again. */
  lemma LatePacketHandledTwice() returns (states: seq<State>, actions: seq<Action>)
    ensures IsRun(states, actions) && !Distinct(Of(states[|actions|].started, 7))
  {
    var (a, b) := (Packet(7, 0), Packet(7, 1));
    actions := [Arrive(a), Arrive(b), Arrive(a)];
    var s0 := State(map[], multiset{}, [], [], map[], {});
    var s1 := Step(s0, actions[0]);
    var s2 := Step(s1, actions[1]);
    var s3 := Step(s2, actions[2]);
    states := [s0, s1, s2, s3];
    AtMostOnceIffGrouped(states, actions, 3, 7);
    ThreeArrivals(a, b);
    assert s3.arrived == [a, b, a];
  }

  // ---------------------------------------------------------------------------
  // Synchronous clients

  /**
    The packets of a client come in order, and a new request only when no
    handler runs for an old one: the client has returned from it. The slot holds
    the number of the last packet that came (see Follows).
  */
  ghost predicate Ordered(s: State, a: Action) {
    a.Arrive? ==>
      && a.p.vtime >= SlotOf(s.table, a.p.client).vtime
      && (a.p.vtime > SlotOf(s.table, a.p.client).vtime ==> forall q :: q in s.running ==> q.client != a.p.client)
  }

  ghost predicate IsOrderedRun(states: seq<State>, actions: seq<Action>) {
    IsRun(states, actions) && forall n :: 0 <= n < |actions| ==> Ordered(states[n], actions[n])
  }

  /** A handler in flight is the one of the slot's request. */
  ghost predicate RunningOk(s: State, p: Packet) {
    p in s.running ==> s.running[p] == 1 && SlotOf(s.table, p.client).vtime == p.vtime && SlotOf(s.table, p.client).processing
  }

  /** A result belongs to a past request, or to the slot's, whose handler has then returned. */
  ghost predicate ResultOk(s: State, p: Packet) {
    var slot := SlotOf(s.table, p.client);
    && (p in s.results ==>
          && p.vtime <= slot.vtime
          && (p.vtime == slot.vtime ==> !slot.processing && slot.last == s.results[p])
          && s.results[p].client == p.client && s.results[p].vtime == p.vtime)
    && (p.vtime == slot.vtime && !slot.processing ==> p in s.results)
  }

  ghost predicate AnswerOk(s: State, r: Response) {
    Final(r) in s.sent ==> exists p :: p in s.results && s.results[p] == r
  }

  ghost predicate Serial(s: State) {
    && (forall p: Packet :: RunningOk(s, p) && ResultOk(s, p))
    && (forall r: Response :: AnswerOk(s, r))
  }

  lemma ArrivalKeepsPacket(s: State, p: Packet, q: Packet)
    requires RunningOk(s, q) && ResultOk(s, q) && Ordered(s, Arrive(p))
    ensures RunningOk(Step(s, Arrive(p)), q) && ResultOk(Step(s, Arrive(p)), q)
  {
    assert p.client != q.client ==> SlotOf(Step(s, Arrive(p)).table, q.client) == SlotOf(s.table, q.client);
  }

  lemma ArrivalKeepsAnswer(s: State, p: Packet, r: Response)
    requires ResultOk(s, p) && AnswerOk(s, r)
    ensures AnswerOk(Step(s, Arrive(p)), r)
  {
    var (slot, t) := (SlotOf(s.table, p.client), Step(s, Arrive(p)));
    assert t.results == s.results;
    if Final(r) in t.sent && Final(r) !in s.sent {
      assert r == slot.last && p in t.results && t.results[p] == r;
    }
  }

  lemma ReturnKeepsPacket(s: State, a: Action, q: Packet)
    requires a.Return? && Enabled(s, a) && RunningOk(s, a.p) && RunningOk(s, q) && ResultOk(s, q)
    ensures RunningOk(Step(s, a), q) && ResultOk(Step(s, a), q)
  {
    var t := Step(s, a);
    assert q.client != a.p.client ==> SlotOf(t.table, q.client) == SlotOf(s.table, q.client);
    assert q.client == a.p.client && q in s.running ==> q == a.p;
  }

  lemma ReturnKeepsAnswer(s: State, a: Action, r: Response)
    requires a.Return? && Enabled(s, a) && RunningOk(s, a.p) && ResultOk(s, a.p) && AnswerOk(s, r)
    ensures AnswerOk(Step(s, a), r)
  {
    var t := Step(s, a);
    assert a.p in t.results && a.p !in s.results;
    if Final(r) in s.sent {
      var p :| p in s.results && s.results[p] == r;
      assert p in t.results && t.results[p] == r;
    }
  }

  lemma StepKeepsSerial(s: State, a: Action)
    requires Serial(s) && Enabled(s, a) && Ordered(s, a)
    ensures Serial(Step(s, a))
  {
    assert RunningOk(s, a.p) && ResultOk(s, a.p);
    forall q: Packet
      ensures RunningOk(Step(s, a), q) && ResultOk(Step(s, a), q)
    {
      assert RunningOk(s, q) && ResultOk(s, q);
      if a.Arrive? {
        ArrivalKeepsPacket(s, a.p, q);
      } else {
        ReturnKeepsPacket(s, a, q);
      }
    }
    forall r: Response
      ensures AnswerOk(Step(s, a), r)
    {
      assert AnswerOk(s, r);
      if a.Arrive? {
        ArrivalKeepsAnswer(s, a.p, r);
      } else {
        ReturnKeepsAnswer(s, a, r);
      }
    }
  }

  lemma {:induction false} RunKeepsSerial(states: seq<State>, actions: seq<Action>, n: nat)
    requires IsOrderedRun(states, actions) && n < |states|
    ensures Serial(states[n])
  {
    if n > 0 {
      RunKeepsSerial(states, actions, n - 1);
      StepKeepsSerial(states[n - 1], actions[n - 1]);
    }
  }

  /** A slot that is being processed has its handler in flight. */
  ghost predicate BusyIsRunning(s: State) {
    forall client: int :: SlotOf(s.table, client).processing ==>
      exists p :: p in s.running && p.client == client && p.vtime == SlotOf(s.table, client).vtime
  }

  lemma ArrivalKeepsBusy(s: State, p: Packet, client: int)
    requires BusyIsRunning(s) && Ordered(s, Arrive(p)) && SlotOf(Step(s, Arrive(p)).table, client).processing
    ensures var t := Step(s, Arrive(p));
      exists q :: q in t.running && q.client == client && q.vtime == SlotOf(t.table, client).vtime
  {
    var t := Step(s, Arrive(p));
    if client == p.client && SlotOf(s.table, client).vtime != p.vtime {
      assert p in t.running;
    } else {
      assert SlotOf(t.table, client) == SlotOf(s.table, client);
      var q :| q in s.running && q.client == client && q.vtime == SlotOf(s.table, client).vtime;
      assert q in t.running;
    }
  }

  lemma ReturnKeepsBusy(s: State, a: Action, client: int)
    requires BusyIsRunning(s) && a.Return? && Enabled(s, a) && SlotOf(Step(s, a).table, client).processing
    ensures var t := Step(s, a);
      exists q :: q in t.running && q.client == client && q.vtime == SlotOf(t.table, client).vtime
  {
    var t := Step(s, a);
    assert client != a.p.client && SlotOf(t.table, client) == SlotOf(s.table, client);
    var q :| q in s.running && q.client == client && q.vtime == SlotOf(s.table, client).vtime;
    assert q in t.running;
  }

  lemma {:induction false} RunKeepsBusy(states: seq<State>, actions: seq<Action>, n: nat)
    requires IsOrderedRun(states, actions) && n < |states|
    ensures BusyIsRunning(states[n])
  {
    if n > 0 {
      RunKeepsBusy(states, actions, n - 1);
      var (s, a) := (states[n - 1], actions[n - 1]);
      forall client: int | SlotOf(states[n].table, client).processing
        ensures exists q :: q in states[n].running && q.client == client && q.vtime == SlotOf(states[n].table, client).vtime
      {
        if a.Arrive? {
          ArrivalKeepsBusy(s, a.p, client);
        } else {
          ReturnKeepsBusy(s, a, client);
        }
      }
    }
  }

  /**
    With synchronous clients every packet is answered as it should: with the result,
    if its handler has returned; that it is in progress, if its handler runs; and
    otherwise its handler is started, and nothing is sent yet.
  */
  lemma ArrivalIsAnswered(states: seq<State>, actions: seq<Action>, n: nat)
    requires IsOrderedRun(states, actions) && n < |actions| && actions[n].Arrive?
    ensures var (s, t, p) := (states[n], states[n + 1], actions[n].p);
      if p in s.results then t.sent == s.sent + {Final(s.results[p])} && t.started == s.started && t.running == s.running
      else if p in s.running then
        t.sent == s.sent + {Busy(p.client, p.vtime)} && t.started == s.started && t.running == s.running
      else t.sent == s.sent && t.started == s.started + [p] && t.running == s.running + multiset{p}
  {
    var (s, p) := (states[n], actions[n].p);
    RunKeepsSerial(states, actions, n);
    RunKeepsBusy(states, actions, n);
    assert RunningOk(s, p) && ResultOk(s, p);
    var slot := SlotOf(s.table, p.client);
    if slot.processing && slot.vtime == p.vtime {
      var q :| q in s.running && q.client == p.client && q.vtime == slot.vtime;
      assert q == p;
    }
  }

  /** Handlers of one client never overlap. */
  lemma HandlersNeverOverlap(states: seq<State>, actions: seq<Action>, n: nat, p: Packet, q: Packet)
    requires IsOrderedRun(states, actions) && n < |states|
    requires p in states[n].running && q in states[n].running && p.client == q.client
    ensures p == q && states[n].running[p] == 1
  {
    RunKeepsSerial(states, actions, n);
    assert RunningOk(states[n], p) && RunningOk(states[n], q);
  }

  lemma {:induction false} ResultsStay(states: seq<State>, actions: seq<Action>, m: nat, n: nat, p: Packet)
    requires IsOrderedRun(states, actions) && m <= n < |states| && p in states[m].results
    ensures p in states[n].results && states[n].results[p] == states[m].results[p]
    decreases n
  {
    if m < n {
      ResultsStay(states, actions, m, n - 1, p);
      RunKeepsSerial(states, actions, n - 1);
      StepKeepsResult(states[n - 1], actions[n - 1], p);
    }
  }

  /** A request that has its result is not running, so no return replaces it. */
  lemma StepKeepsResult(s: State, a: Action, p: Packet)
    requires Serial(s) && Enabled(s, a) && p in s.results
    ensures p in Step(s, a).results && Step(s, a).results[p] == s.results[p]
  {
    assert ResultOk(s, p) && RunningOk(s, p);
  }

  /** All final answers to a request, whenever they are sent, carry its one result. */
  lemma FinalAnswersAgree(states: seq<State>, actions: seq<Action>, m: nat, n: nat, r: Response, r': Response)
    requires IsOrderedRun(states, actions) && m <= n < |states|
    requires Final(r) in states[m].sent && Final(r') in states[n].sent
    requires r.client == r'.client && r.vtime == r'.vtime
    ensures r == r'
  {
    RunKeepsSerial(states, actions, m);
    RunKeepsSerial(states, actions, n);
    assert AnswerOk(states[m], r) && AnswerOk(states[n], r');
    var p :| p in states[m].results && states[m].results[p] == r;
    var q :| q in states[n].results && states[n].results[q] == r';
    assert ResultOk(states[m], p) && ResultOk(states[n], q);
    ResultsStay(states, actions, m, n, p);
  }

  predicate InOrder(ps: seq<Packet>, client: int) {
    && (forall i :: 0 <= i < |ps| ==> ps[i].client == client)
    && (forall i, j :: 0 <= i <= j < |ps| ==> ps[i].vtime <= ps[j].vtime)
  }

  lemma InOrderNext(ps: seq<Packet>, p: Packet)
    requires InOrder(ps, p.client) && (ps != [] ==> ps[|ps| - 1].vtime <= p.vtime)
    ensures InOrder(ps + [p], p.client)
  {
  }

  lemma {:induction false} ArrivalsInOrder(states: seq<State>, actions: seq<Action>, n: nat, client: int)
    requires IsOrderedRun(states, actions) && n < |states|
    ensures InOrder(Of(states[n].arrived, client), client)
    decreases n
  {
    if n > 0 {
      ArrivalsInOrder(states, actions, n - 1, client);
      RunFollows(states, actions, n - 1, client);
      if actions[n - 1].Arrive? {
        NextInOrder(states[n - 1], actions[n - 1].p, client);
      }
    }
  }

  lemma NextInOrder(s: State, p: Packet, client: int)
    requires InOrder(Of(s.arrived, client), client) && Follows(s, client) && Ordered(s, Arrive(p))
    ensures InOrder(Of(s.arrived + [p], client), client)
  {
    OfSnoc(s.arrived, p, client);
    if p.client == client {
      InOrderNext(Of(s.arrived, client), p);
    } else {
      assert Of(s.arrived, client) + [] == Of(s.arrived, client);
    }
  }

  lemma InOrderIsGrouped(ps: seq<Packet>, client: int)
    requires InOrder(ps, client)
    ensures Grouped(ps)
  {
    forall i, j, k | 0 <= i <= j <= k < |ps| && ps[i] == ps[k]
      ensures ps[j] == ps[i]
    {
      assert ps[i].vtime <= ps[j].vtime && ps[j].vtime <= ps[k].vtime && ps[j].client == ps[i].client;
    }
  }

  /** With synchronous clients every request is handled at most once. */
  lemma HandledAtMostOnce(states: seq<State>, actions: seq<Action>, n: nat, client: int)
    requires IsOrderedRun(states, actions) && n < |states|
    ensures Distinct(Of(states[n].started, client))
  {
    ArrivalsInOrder(states, actions, n, client);
    InOrderIsGrouped(Of(states[n].arrived, client), client);
    AtMostOnceIffGrouped(states, actions, n, client);
  }

  /**
    A client that takes a final answer numbered at least as its newest request
    takes the one result of that request.
  */
  lemma NewestAnswerIsTheResult(states: seq<State>, actions: seq<Action>, n: nat, client: int, vtime: nat, r: Response)
    requires IsOrderedRun(states, actions) && n < |states|
    requires Final(r) in states[n].sent && r.client == client && r.vtime >= vtime
    requires forall p :: p in Of(states[n].arrived, client) ==> p.vtime <= vtime
    ensures r.vtime == vtime
    ensures Packet(client, vtime) in states[n].results && r == states[n].results[Packet(client, vtime)]
  {
    var (s, mine) := (states[n], Of(states[n].arrived, client));
    RunKeepsSerial(states, actions, n);
    RunFollows(states, actions, n, client);
    assert AnswerOk(s, r);
    var p :| p in s.results && s.results[p] == r;
    assert ResultOk(s, p);
    assert mine[|mine| - 1] in mine;
  }
}
