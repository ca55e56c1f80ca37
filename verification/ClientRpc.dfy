/**
  The client's side of a request (client_rpc.c:8-47): one packet is sent, and
  sent again, until an answer to it comes.
*/
module ClientRpc {
  import opened RaftTypes

  const E_IN_PROGRESS := -2
  const E_FOLLOWER := -7
  const E_ELECTION := -8
  const RPC_RETRY_LIMIT := 10

  /** What one read from the socket gives. */
  datatype Read = TimedOut | Broken | Got(rc: int, vtime: int, message: string)

  /** An answer that is about an older request, or only says that the handler still runs. */
  predicate Ignored(r: Read, vtime: int) {
    r.Got? && (r.rc == E_IN_PROGRESS || r.vtime < vtime)
  }

  /** The server does not lead. */
  predicate Refused(r: Read, vtime: int) {
    r.Got? && !Ignored(r, vtime) && (r.rc == E_FOLLOWER || r.rc == E_ELECTION)
  }

  /** send_packet returns with this read. */
  predicate Ends(r: Read, vtime: int) {
    r.Broken? || (r.Got? && !Ignored(r, vtime) && !Refused(r, vtime))
  }

  /** Which answers end the wait, and which make the client send its packet again. */
  lemma AnswerLaw(r: Read, vtime: int)
    requires r.Got?
    ensures Ends(r, vtime) <==> r.vtime >= vtime && r.rc !in {E_IN_PROGRESS, E_FOLLOWER, E_ELECTION}
    ensures Refused(r, vtime) <==> r.vtime >= vtime && r.rc in {E_FOLLOWER, E_ELECTION}
  {
  }

  /** The server that the client addresses, and how often it has tried it since its last answer. */
  datatype Aim = Aim(leader: Id, attempts: nat)

  /** What a read makes of it: a follower is left at once, a silent server after ten attempts. */
  function Turn(aim: Aim, r: Read, vtime: int): Aim {
    match r
    case TimedOut =>
      if aim.attempts >= RPC_RETRY_LIMIT then Aim((aim.leader + 1) % N_SERVERS, 1) else Aim(aim.leader, aim.attempts + 1)
    case Broken => aim
    case Got(rc, _, _) =>
      Aim(if Refused(r, vtime) && rc == E_FOLLOWER then (aim.leader + 1) % N_SERVERS else aim.leader, 0)
  }

  /** The client's aim after the reads, when it has sent once to `first`. */
  function AimAfter(got: seq<Read>, first: Id, vtime: int): Aim
    decreases |got|
  {
    if got == [] then Aim(first, 1) else Turn(AimAfter(got[..|got| - 1], first, vtime), got[|got| - 1], vtime)
  }

  /** The servers that the packet goes to, in order. */
  function Targets(got: seq<Read>, first: Id, vtime: int): seq<Id>
    decreases |got|
  {
    if got == [] then [first]
    else
      var last := got[|got| - 1];
      Targets(got[..|got| - 1], first, vtime)
        + if last.TimedOut? || Refused(last, vtime) then [AimAfter(got, first, vtime).leader] else []
  }

  lemma TargetsSnoc(got: seq<Read>, r: Read, first: Id, vtime: int)
    ensures AimAfter(got + [r], first, vtime) == Turn(AimAfter(got, first, vtime), r, vtime)
    ensures Targets(got + [r], first, vtime) == Targets(got, first, vtime)
      + if r.TimedOut? || Refused(r, vtime) then [AimAfter(got + [r], first, vtime).leader] else []
  {
    assert (got + [r])[..|got|] == got;
  }

  /** How many timeouts in a row the reads end with. */
  function Timeouts(got: seq<Read>): nat
    decreases |got|
  {
    if got == [] || !got[|got| - 1].TimedOut? then 0 else 1 + Timeouts(got[..|got| - 1])
  }

  /** No answer has come yet at all. */
  predicate NoAnswer(got: seq<Read>) {
    Timeouts(got) == |got|
  }

  /**
    The n-th timeout in a row makes the client leave its server: the tenth and
    every tenth after it, or, if an answer came before the row, the eleventh and
    every tenth after it, because the packet that followed the answer is not
    counted as an attempt.
  */
  predicate Leaves(n: nat, answered: bool) {
    if answered then n > 1 && n % RPC_RETRY_LIMIT == 1 else n > 0 && n % RPC_RETRY_LIMIT == 0
  }

  /** The counter of attempts after n timeouts in a row. */
  function Attempts(n: nat, answered: bool): nat {
    if n == 0 then if answered then 0 else 1
    else if Attempts(n - 1, answered) >= RPC_RETRY_LIMIT then 1
    else Attempts(n - 1, answered) + 1
  }

  /** It wraps around every ten. */
  lemma {:induction false} AttemptsWrap(n: nat, answered: bool)
    ensures Attempts(n, answered)
         == if !answered then n % RPC_RETRY_LIMIT + 1
            else if n == 0 then 0
            else (n - 1) % RPC_RETRY_LIMIT + 1
  {
    if n > 0 {
      AttemptsWrap(n - 1, answered);
      NextRemainder(n - 1);
      if n > 1 {
        NextRemainder(n - 2);
      }
    }
  }

  lemma NextRemainder(n: nat)
    ensures (n + 1) % RPC_RETRY_LIMIT == if n % RPC_RETRY_LIMIT == RPC_RETRY_LIMIT - 1 then 0 else n % RPC_RETRY_LIMIT + 1
  {
  }

  lemma LimitReachedIff(n: nat, answered: bool)
    ensures Attempts(n, answered) >= RPC_RETRY_LIMIT <==> Leaves(n + 1, answered)
  {
    AttemptsWrap(n, answered);
  }

  lemma {:induction false} AttemptsCountTimeouts(got: seq<Read>, first: Id, vtime: int)
    requires forall k :: 0 <= k < |got| ==> !got[k].Broken?
    ensures Timeouts(got) <= |got|
    ensures AimAfter(got, first, vtime).attempts == Attempts(Timeouts(got), !NoAnswer(got))
    decreases |got|
  {
    if got != [] {
      AttemptsCountTimeouts(got[..|got| - 1], first, vtime);
    }
  }

  /** The client leaves a server exactly if it follows, or at such a timeout. */
  lemma LeavesIff(got: seq<Read>, r: Read, first: Id, vtime: int)
    requires forall k :: 0 <= k < |got| ==> !got[k].Broken?
    ensures AimAfter(got + [r], first, vtime).leader != AimAfter(got, first, vtime).leader
       <==> || (Refused(r, vtime) && r.rc == E_FOLLOWER)
            || (r.TimedOut? && Leaves(Timeouts(got) + 1, !NoAnswer(got)))
  {
    TargetsSnoc(got, r, first, vtime);
    AttemptsCountTimeouts(got, first, vtime);
    LimitReachedIff(Timeouts(got), !NoAnswer(got));
  }

  /** The client leaves its server at the read r, which comes after `got`. */
  predicate Leaving(got: seq<Read>, r: Read, vtime: int) {
    (Refused(r, vtime) && r.rc == E_FOLLOWER) || (r.TimedOut? && Leaves(Timeouts(got) + 1, !NoAnswer(got)))
  }

  /** At how many of the reads it leaves. */
  function Leavings(got: seq<Read>, vtime: int): nat
    decreases |got|
  {
    if got == [] then 0
    else
      var init := got[..|got| - 1];
      Leavings(init, vtime) + if Leaving(init, got[|got| - 1], vtime) then 1 else 0
  }

  /** Only the last read may be an error of the socket. */
  predicate Unbroken(got: seq<Read>) {
    forall k :: 0 <= k < |got| - 1 ==> !got[k].Broken?
  }

  lemma NextServer(first: Id, n: nat)
    ensures ((first + n) % N_SERVERS + 1) % N_SERVERS == (first + (n + 1)) % N_SERVERS
  {
  }

  /** The client goes through the servers in turn: its aim is as many servers further as it has left. */
  lemma {:induction false} AimIsInTurn(got: seq<Read>, first: Id, vtime: int)
    requires Unbroken(got)
    ensures AimAfter(got, first, vtime).leader == (first + Leavings(got, vtime)) % N_SERVERS
    decreases |got|
  {
    if got != [] {
      var (init, r) := (got[..|got| - 1], got[|got| - 1]);
      assert init + [r] == got && forall k :: 0 <= k < |init| ==> init[k] == got[k];
      AimIsInTurn(init, first, vtime);
      LeavesIff(init, r, first, vtime);
      NextServer(first, Leavings(init, vtime));
    }
  }

  /**
    The packet goes to the first server, and at every timeout or refusal to the one
    that is as many servers further as the client has left by then.
  */
  lemma {:induction false} TargetsInTurn(got: seq<Read>, first: Id, vtime: int, j: nat)
    requires Unbroken(got) && j < |got| && (got[j].TimedOut? || Refused(got[j], vtime))
    ensures |Targets(got, first, vtime)| == 1 + Resends(got, vtime) && Targets(got, first, vtime)[0] == first
    ensures 0 < Resends(got[..j + 1], vtime) <= Resends(got, vtime)
    ensures Targets(got, first, vtime)[Resends(got[..j + 1], vtime)] == (first + Leavings(got[..j + 1], vtime)) % N_SERVERS
    decreases |got|
  {
    var (init, r) := (got[..|got| - 1], got[|got| - 1]);
    TargetsCount(init, first, vtime);
    FirstTarget(init, first, vtime);
    TargetsCount(got, first, vtime);
    if j < |init| {
      assert init[..j + 1] == got[..j + 1];
      TargetsInTurn(init, first, vtime, j);
    } else {
      assert got[..j + 1] == got;
      AimIsInTurn(got, first, vtime);
    }
  }

  lemma {:induction false} FirstTarget(got: seq<Read>, first: Id, vtime: int)
    ensures |Targets(got, first, vtime)| > 0 && Targets(got, first, vtime)[0] == first
    decreases |got|
  {
    if got != [] {
      FirstTarget(got[..|got| - 1], first, vtime);
    }
  }

  lemma {:induction false} Asked(got: seq<Read>, first: Id, vtime: int, d: nat)
    requires Unbroken(got) && d <= Leavings(got, vtime)
    ensures (first + d) % N_SERVERS in Targets(got, first, vtime)
    decreases |got|
  {
    if got == [] {
      assert first in Targets(got, first, vtime);
    } else {
      var init := got[..|got| - 1];
      if d <= Leavings(init, vtime) {
        Asked(init, first, vtime, d);
      } else {
        AimIsInTurn(got, first, vtime);
      }
    }
  }

  /** A client that has left four servers has asked every one. */
  lemma EveryServerIsAsked(got: seq<Read>, first: Id, vtime: int, server: Id)
    requires Unbroken(got) && Leavings(got, vtime) >= N_SERVERS - 1
    ensures server in Targets(got, first, vtime)
  {
    var d := (server + N_SERVERS - first) % N_SERVERS;
    assert (first + d) % N_SERVERS == server;
    Asked(got, first, vtime, d);
  }

  /** How many of the reads make the client send its packet again. */
  function Resends(got: seq<Read>, vtime: int): (n: nat)
    ensures n <= |got|
    decreases |got|
  {
    if got == [] then 0
    else
      var last := got[|got| - 1];
      Resends(got[..|got| - 1], vtime) + if last.TimedOut? || Refused(last, vtime) then 1 else 0
  }

  /** The packet goes out once, and once more for each timeout or refusal. */
  lemma {:induction false} TargetsCount(got: seq<Read>, first: Id, vtime: int)
    ensures |Targets(got, first, vtime)| == 1 + Resends(got, vtime)
    decreases |got|
  {
    if got != [] {
      TargetsCount(got[..|got| - 1], first, vtime);
    }
  }

  /** A packet on its way to one of the servers. */
  datatype Sent = Sent(server: Id, client: int, vtime: int)

  /** The same packet to each of the servers. */
  function Packets(servers: seq<Id>, client: int, vtime: int): seq<Sent> {
    seq(|servers|, k requires 0 <= k < |servers| => Sent(servers[k], client, vtime))
  }

  lemma PacketsSnoc(servers: seq<Id>, server: Id, client: int, vtime: int)
    ensures Packets(servers + [server], client, vtime) == Packets(servers, client, vtime) + [Sent(server, client, vtime)]
  {
  }

  class Connection {
    const clientId: int
    var vtime: int
    var leader: Id

    constructor (clientId: int)
      ensures this.clientId == clientId && vtime == 0 && leader == 0
    {
      this.clientId, vtime, leader := clientId, 0, 0;
    }

    /**
      send_packet, on the reads that the socket will give. `answer` is None if
      all of them are used up and the client still waits.
    */
    method SendPacket(got: seq<Read>) returns (answer: Option<Read>, used: nat, sent: seq<Sent>)
      modifies this
      ensures vtime == old(vtime) + 1
      ensures used <= |got|
      ensures answer.Some? ==> used > 0 && answer.value == got[used - 1] && Ends(answer.value, old(vtime))
      // no answer can be about a later request, so the one returned is about this one, and final
      ensures answer.Some? && answer.value.Got? && answer.value.vtime <= old(vtime) ==>
        answer.value.vtime == old(vtime) && answer.value.rc !in {E_IN_PROGRESS, E_FOLLOWER, E_ELECTION}
      ensures answer.None? ==> used == |got|
      ensures forall k :: 0 <= k < used - (if answer.Some? then 1 else 0) ==> !Ends(got[k], old(vtime))
      ensures sent == Packets(Targets(got[..used], old(leader), old(vtime)), clientId, old(vtime))
      ensures leader == AimAfter(got[..used], old(leader), old(vtime)).leader
    {
      var mine := vtime;
      vtime := vtime + 1;
      sent := [Sent(leader, clientId, mine)];
      var attempts := 1;
      used := 0;
      while used < |got|
        invariant used <= |got| && vtime == mine + 1 && attempts >= 0
        invariant forall k :: 0 <= k < used ==> !Ends(got[k], mine)
        invariant sent == Packets(Targets(got[..used], old(leader), mine), clientId, mine)
        invariant Aim(leader, attempts) == AimAfter(got[..used], old(leader), mine)
        decreases |got| - used
      {
        var r := got[used];
        assert got[..used + 1] == got[..used] + [r];
        TargetsSnoc(got[..used], r, old(leader), mine);
        ghost var servers := Targets(got[..used], old(leader), mine);
        used := used + 1;
        if r.TimedOut? {
          if attempts >= RPC_RETRY_LIMIT {
            leader := (leader + 1) % N_SERVERS;
            attempts := 0;
          }
          sent := sent + [Sent(leader, clientId, mine)];
          PacketsSnoc(servers, leader, clientId, mine);
          attempts := attempts + 1;
        } else if r.Broken? {
          assert servers + [] == servers;
          return Some(r), used, sent;
        } else {
          attempts := 0;
          if !Ignored(r, mine) {
            if r.rc != E_FOLLOWER && r.rc != E_ELECTION {
              assert servers + [] == servers;
              return Some(r), used, sent;
            }
            if r.rc == E_FOLLOWER {
              leader := (leader + 1) % N_SERVERS;
            }
            sent := sent + [Sent(leader, clientId, mine)];
            PacketsSnoc(servers, leader, clientId, mine);
          } else {
            assert servers + [] == servers;
          }
        }
      }
      answer := None;
    }
  }
}
