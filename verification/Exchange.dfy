/**
  A client and one leader together: what the client takes for the answer to its
  request is the one result of that request (client_rpc.c:8-47, server_rpc.c:39-127).
*/
module Exchange {
  import opened RaftTypes
  import R = Requests
  import C = ClientRpc

  /** The answer arrives as this read. */
  predicate Carries(a: R.Answer, r: C.Read) {
    match a
    case Busy(_, vtime) => r.Got? && r.rc == C.E_IN_PROGRESS && r.vtime == vtime
    case Final(response) => r == C.Got(response.rc, response.vtime, response.message)
  }

  function Addressee(a: R.Answer): int {
    match a
    case Busy(client, _) => client
    case Final(response) => response.client
  }

  /** A server that does not lead has answered. */
  predicate Refusal(r: C.Read) {
    r.Got? && (r.rc == C.E_FOLLOWER || r.rc == C.E_ELECTION)
  }

  /** What a client reads: nothing, a refusal, or something that the leader has sent to it by then. */
  ghost predicate ReadFrom(s: R.State, client: int, r: C.Read) {
    r.Got? && !Refusal(r) ==> exists a :: a in s.sent && Addressee(a) == client && Carries(a, r)
  }

  /** The read is the result of the request. */
  predicate IsResult(s: R.State, client: int, vtime: nat, r: C.Read) {
    var p := R.Packet(client, vtime);
    p in s.results && r == C.Got(s.results[p].rc, vtime, s.results[p].message)
  }

  /** A read that ends the wait for the newest request of the client is its result. */
  lemma EndingReadIsResult(states: seq<R.State>, actions: seq<R.Action>, n: nat, client: int, vtime: nat, r: C.Read)
    requires R.IsOrderedRun(states, actions) && n < |states|
    requires forall p :: p in R.Of(states[n].arrived, client) ==> p.vtime <= vtime
    requires ReadFrom(states[n], client, r) && r.Got? && C.Ends(r, vtime)
    ensures IsResult(states[n], client, vtime, r)
  {
    var a :| a in states[n].sent && Addressee(a) == client && Carries(a, r);
    R.NewestAnswerIsTheResult(states, actions, n, client, vtime, a.response);
  }

  /** The result of the request ends the wait, unless its code is one of those that mean something else. */
  lemma ResultEnds(s: R.State, client: int, vtime: nat, r: C.Read)
    requires IsResult(s, client, vtime, r)
    ensures C.Ends(r, vtime) <==> r.rc !in {C.E_IN_PROGRESS, C.E_FOLLOWER, C.E_ELECTION}
  {
    C.AnswerLaw(r, vtime);
  }

  /**
    A call of the client: `got` are the reads that it will get, by moment n, of
    the run of the leader, `states`, in which its packets are numbered up to the
    one that it sends now.
  */
  method Call(c: C.Connection, got: seq<C.Read>, ghost states: seq<R.State>, ghost actions: seq<R.Action>, ghost n: nat)
    returns (answer: Option<C.Read>)
    requires R.IsOrderedRun(states, actions) && n < |states| && c.vtime >= 0
    requires forall p :: p in R.Of(states[n].arrived, c.clientId) ==> p.vtime <= c.vtime
    requires forall k :: 0 <= k < |got| ==> ReadFrom(states[n], c.clientId, got[k])
    modifies c
    ensures c.vtime == old(c.vtime) + 1
    ensures answer.Some? ==> answer.value.Broken? || IsResult(states[n], c.clientId, old(c.vtime), answer.value)
    ensures answer.None? ==> forall k :: 0 <= k < |got| ==> !C.Ends(got[k], old(c.vtime))
  {
    ghost var mine := c.vtime;
    var used, sent;
    answer, used, sent := c.SendPacket(got);
    if answer.Some? && answer.value.Got? {
      EndingReadIsResult(states, actions, n, c.clientId, mine, answer.value);
    }
  }
}
