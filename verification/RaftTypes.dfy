/**
  Values shared by the whole model: server identities, log entries and the
  datagrams of the Raft module (raft.h, packet_format.h).
*/
module RaftTypes {
  /** The size of the cluster (N_SERVERS in raft.h). */
  const N_SERVERS := 5

  type Id = i: int | 0 <= i < N_SERVERS

  datatype Option<+T> = None | Some(value: T)

  datatype Role = Leader | Candidate | Follower

  /** CLIENT_LOG entries carry a transaction, LEADER_LOG entries open a tenure. */
  datatype Kind = ClientLog | LeaderLog

  /** One slot of a transaction table: text to be appended to a file. */
  datatype FileWrite = FileWrite(name: string, text: string)

  /**
    A log entry without its replication counter. `n_servers_replicated` lives
    beside the log (see `ServerSpec.Server.replicated`), because it is the one
    field on which replicas may differ.
  */
  datatype Entry = Entry(term: int, kind: Kind, id: int, client: int, data: seq<FileWrite>)

  datatype VoteRequest = VoteRequest(term: int, candidate: Id, lastIndex: int, lastTerm: int)

  /** `entry` is None when entries_n is 0, that is, in a heartbeat. */
  datatype AppendRequest = AppendRequest(
    term: int, leader: Id, follower: Id, prevIndex: int, prevTerm: int,
    entry: Option<Entry>, replicated: int, leaderCommit: int, requestId: int)

  /** One piece of a snapshot stream; `done` closes the stream. */
  datatype InstallRequest = InstallRequest(
    term: int, leader: Id, follower: Id, snapshotId: int, index: int, done: bool, requestId: int,
    name: string, text: string)

  /**
    What a reply answers. The packet itself does not say (see
    raft_response_packet_t), so this part is history: the handlers never read it.
  */
  datatype Origin =
    | Ballot
    | Appending(term: int, prevIndex: int, carried: bool)
    | Installing(term: int)

  datatype Reply = Reply(from: Id, to: Id, term: int, success: int, requestId: int, origin: Origin)

  // ---------------------------------------------------------------------------
  // Majorities

  ghost function AllIds(): (ids: set<Id>)
    ensures |ids| == N_SERVERS
    ensures forall i: Id :: i in ids
  {
    {0, 1, 2, 3, 4}
  }

  /** The test used both for votes (`nvoted*2 > N_SERVERS`) and for replication. */
  predicate IsMajority(n: int) {
    n * 2 > N_SERVERS
  }

  lemma SubsetCardinality<T>(a: set<T>, b: set<T>)
    requires a <= b
    ensures |a| <= |b|
    ensures |a| == |b| ==> a == b
  {
    assert b == a + (b - a);
  }

  lemma MajoritiesMeet(a: set<Id>, b: set<Id>) returns (i: Id)
    requires IsMajority(|a|) && IsMajority(|b|)
    ensures i in a && i in b
  {
    SubsetCardinality(a + b, AllIds());
    assert |a + b| + |a * b| == |a| + |b|;
    assert a * b != {};
    i :| i in a * b;
  }
}
