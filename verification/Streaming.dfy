/**
  Snapshots on a leader: one thread that creates them and one thread per follower
  that streams them (raft.c:133-174, raft_leader.c:8-70). The two exclude each
  other through a flag and a counter, so a stream never changes under way.
*/
module Streaming {
  import opened RaftTypes
  import opened Files

  /** A sender waits for a creation to end, or streams the snapshot `id`. */
  datatype Sender = Waiting | Sending(id: nat)

  datatype Creation = Quiet | Writing(newStart: nat)

  /**
    `creating` is snapshot_in_progress, `receivers` is
    n_followers_receiving_snapshots; `outdated` are the snapshots that a creation
    has yet to remove.
  */
  datatype State = State(
    start: nat, commit: int, creating: bool, receivers: int,
    creation: Creation, senders: map<nat, Sender>, snaps: map<nat, Dir>, outdated: set<nat>)

  datatype Action =
    | Commit(n: int)
    | Enter(f: nat)
    | Begin(f: nat)
    | Finish(f: nat)
    | Create(newStart: nat)
    | Write(files: Dir)
    | Complete
    | Remove(id: nat)

  predicate Enabled(s: State, a: Action) {
    match a
    case Commit(n) => n >= s.commit
    case Enter(f) => f !in s.senders && s.start > 0
    case Begin(f) => f in s.senders && s.senders[f].Waiting? && !s.creating
    case Finish(f) => f in s.senders && s.senders[f].Sending?
    case Create(newStart) => true
    case Write(files) => s.creation.Writing?
    case Complete => s.creation.Writing?
    case Remove(id) => id in s.outdated
  }

  /** The test at the start of Raft_create_snapshot, negated. */
  predicate MayCreate(s: State, newStart: nat) {
    !s.creating && s.receivers <= 0 && s.start < newStart <= s.commit + 1
  }

  function Step(s: State, a: Action): State {
    match a
    case Commit(n) => s.(commit := n)
    case Enter(f) => s.(senders := s.senders[f := Waiting])
    case Begin(f) => s.(receivers := s.receivers + 1, senders := s.senders[f := Sending(s.start)])
    case Finish(f) => s.(receivers := s.receivers - 1, senders := s.senders - {f})
    case Create(newStart) => if MayCreate(s, newStart) then s.(creating := true, creation := Writing(newStart)) else s
    case Write(files) =>
      if s.creation.Writing? then s.(snaps := s.snaps[s.creation.newStart := files]) else s
    case Complete =>
      if s.creation.Writing? then
        s.(creating := false, creation := Quiet, start := s.creation.newStart,
           outdated := s.outdated + (if s.start != 0 then {s.start} else {}))
      else s
    case Remove(id) => s.(snaps := s.snaps - {id}, outdated := s.outdated - {id})
  }

  /** The senders that are streaming. */
  function Active(s: State): set<nat> {
    set f | f in s.senders && s.senders[f].Sending?
  }

  /** The counter is right, a stream and a creation exclude each other, and streams are of the current snapshot. */
  ghost predicate Inv(s: State) {
    && s.receivers == |Active(s)|
    && (s.creating <==> s.creation.Writing?)
    && (s.creation.Writing? ==> Active(s) == {} && s.start < s.creation.newStart)
    && (forall f :: f in Active(s) ==> s.senders[f].id == s.start)
    && (forall id :: id in s.outdated ==> id < s.start)
  }

  /** A tenure begins: the counter is set to 0. A creation may be under way. */
  predicate Begins(s: State) {
    && s.receivers == 0
    && (s.creating <==> s.creation.Writing?) && (s.creation.Writing? ==> s.start < s.creation.newStart)
    && (forall id :: id in s.outdated ==> id < s.start)
  }

  /** No sender is left streaming from an earlier tenure; one that still waits does no harm. */
  predicate Opening(s: State) {
    Begins(s) && Active(s) == {}
  }

  lemma StepKeeps(s: State, a: Action)
    requires Inv(s) && Enabled(s, a)
    ensures Inv(Step(s, a))
  {
    var t := Step(s, a);
    match a
    case Enter(f) => assert Active(t) == Active(s);
    case Begin(f) => assert Active(t) == Active(s) + {f};
    case Finish(f) =>
      assert f in Active(s);
      assert Active(t) == Active(s) - {f};
    case _ => assert Active(t) == Active(s);
  }

  predicate IsRun(states: seq<State>, actions: seq<Action>) {
    && |states| == |actions| + 1
    && (forall n :: 0 <= n < |actions| ==> Enabled(states[n], actions[n]) && states[n + 1] == Step(states[n], actions[n]))
  }

  lemma {:induction false} RunKeeps(states: seq<State>, actions: seq<Action>, n: nat)
    requires IsRun(states, actions) && Opening(states[0]) && n < |states|
    ensures Inv(states[n])
  {
    if n == 0 {
      assert Active(states[0]) == {};
    } else {
      RunKeeps(states, actions, n - 1);
      StepKeeps(states[n - 1], actions[n - 1]);
    }
  }

  /** The counter is the number of active senders, and is zero during a creation. */
  lemma StreamingExcludesCompaction(states: seq<State>, actions: seq<Action>, n: nat)
    requires IsRun(states, actions) && Opening(states[0]) && n < |states|
    ensures states[n].receivers == |Active(states[n])|
    ensures states[n].creating ==> states[n].receivers == 0
  {
    RunKeeps(states, actions, n);
  }

  /** From state m to state n, the sender of f is at the same stream. */
  predicate Streams(states: seq<State>, m: nat, n: nat, f: nat)
    requires m <= n < |states|
  {
    forall k :: m <= k <= n ==> f in Active(states[k])
  }

  /** From the first chunk to `done`, the snapshot id and the snapshot directory stay the same. */
  lemma {:induction false} StreamIsOfOneSnapshot(states: seq<State>, actions: seq<Action>, m: nat, n: nat, f: nat)
    requires IsRun(states, actions) && Opening(states[0]) && m <= n < |states| && Streams(states, m, n, f)
    ensures states[n].senders[f].id == states[m].senders[f].id == states[n].start
    ensures var id := states[n].start;
      (id in states[n].snaps <==> id in states[m].snaps)
      && (id in states[n].snaps ==> states[n].snaps[id] == states[m].snaps[id])
    decreases n - m
  {
    RunKeeps(states, actions, m);
    assert f in Active(states[m]);
    if m < n {
      StreamIsOfOneSnapshot(states, actions, m, n - 1, f);
      RunKeeps(states, actions, n - 1);
      assert f in Active(states[n - 1]) && f in Active(states[n]);
    }
  }

  // ---------------------------------------------------------------------------
  // A sender left from an earlier tenure

  /** A stream that began at step m has been under way up to moment n. */
  predicate NewStream(states: seq<State>, actions: seq<Action>, m: nat, n: nat, f: nat) {
    m < n <= |actions| && |actions| < |states| && actions[m] == Begin(f) && Streams(states, m + 1, n, f)
  }

  /** The stream is still of the snapshot that it began with, which is the current one and as it was. */
  predicate Intact(states: seq<State>, m: nat, n: nat, f: nat)
    requires m < n < |states| && f in Active(states[m + 1]) && f in Active(states[n])
  {
    var id := states[m + 1].senders[f].id;
    && states[n].senders[f].id == id == states[n].start
    && (id in states[n].snaps <==> id in states[m + 1].snaps)
    && (id in states[n].snaps ==> states[n].snaps[id] == states[m + 1].snaps[id])
  }

  /** In all runs from s0, every stream that begins stays intact. */
  ghost predicate NewStreamsSafe(s0: State) {
    forall states: seq<State>, actions: seq<Action>, m: nat, n: nat, f: nat ::
      IsRun(states, actions) && states[0] == s0 && NewStream(states, actions, m, n, f) ==>
        f in Active(states[m + 1]) && f in Active(states[n]) && Intact(states, m, n, f)
  }

  lemma Extend(states: seq<State>, actions: seq<Action>, a: Action) returns (more: seq<State>, acts: seq<Action>)
    requires IsRun(states, actions) && Enabled(states[|actions|], a)
    ensures IsRun(more, acts) && more == states + [Step(states[|actions|], a)] && acts == actions + [a]
  {
    more, acts := states + [Step(states[|actions|], a)], actions + [a];
  }

  /** The leftover sender g ends, and the creation under way, if any: the counter is one too low. */
  lemma LeftoverEnds(s0: State, g: nat) returns (states: seq<State>, actions: seq<Action>)
    requires Begins(s0) && s0.start > 0 && g in Active(s0)
    ensures IsRun(states, actions) && states[0] == s0
    ensures var s := states[|actions|]; s.receivers == -1 && !s.creating && s.creation.Quiet? && s.start > 0
    ensures s0.creation.Quiet? ==> states[|actions|].start == s0.start && states[|actions|].snaps == s0.snaps
  {
    states, actions := Extend([s0], [], Finish(g));
    if s0.creation.Writing? {
      states, actions := Extend(states, actions, Complete);
    }
  }

  lemma FreshFollower(followers: set<nat>) returns (f: nat)
    ensures forall g :: g in followers ==> g < f
    decreases followers
  {
    if followers == {} {
      f := 0;
    } else {
      var g :| g in followers;
      var h := FreshFollower(followers - {g});
      f := if g < h then h else g + 1;
      assert forall x :: x in followers ==> x == g || x in followers - {g};
    }
  }

  /** A stream of the snapshot begins, and a creation replaces and removes the snapshot under it. */
  lemma StreamReplaced(s: State, f: nat) returns (states: seq<State>, actions: seq<Action>)
    requires s.receivers == -1 && !s.creating && s.creation.Quiet? && s.start > 0 && f !in s.senders
    ensures IsRun(states, actions) && states[0] == s && |actions| == 6 && actions[1] == Begin(f)
    ensures forall k :: 2 <= k <= 6 ==> f in Active(states[k]) && states[k].senders[f].id == s.start
    ensures states[2].snaps == s.snaps && states[6].start != s.start && s.start !in states[6].snaps
  {
    var newStart := s.start + 1;
    var n := if s.commit < s.start then s.start else s.commit;
    states, actions := Extend([s], [], Enter(f));
    states, actions := Extend(states, actions, Begin(f));
    states, actions := Extend(states, actions, Commit(n));
    states, actions := Extend(states, actions, Create(newStart));
    states, actions := Extend(states, actions, Complete);
    states, actions := Extend(states, actions, Remove(s.start));
  }

  lemma Joined(states: seq<State>, actions: seq<Action>, more: seq<State>, acts: seq<Action>)
    requires IsRun(states, actions) && IsRun(more, acts) && more[0] == states[|actions|]
    ensures IsRun(states + more[1..], actions + acts)
    ensures forall k :: 0 <= k < |more| ==> (states + more[1..])[|actions| + k] == more[k]
  {
    var (all, steps) := (states + more[1..], actions + acts);
    forall k | 0 <= k < |more|
      ensures all[|actions| + k] == more[k]
    {
    }
    forall n | 0 <= n < |steps|
      ensures Enabled(all[n], steps[n]) && all[n + 1] == Step(all[n], steps[n])
    {
      if n >= |actions| {
        assert all[|actions| + (n - |actions|)] == more[n - |actions|];
        assert all[|actions| + (n - |actions| + 1)] == more[n - |actions| + 1];
      }
    }
  }

  /**
    With a sender left from an earlier tenure the counter is too low: from every
    such state there is a run in which a stream begins, and its snapshot is
    replaced and removed under it.
  */
  lemma LeftoverSenderSpoils(s0: State, g: nat)
    returns (states: seq<State>, actions: seq<Action>, m: nat, f: nat)
    requires Begins(s0) && s0.start > 0 && g in Active(s0)
    ensures IsRun(states, actions) && states[0] == s0 && NewStream(states, actions, m, |actions|, f)
    ensures var (first, last) := (states[m + 1], states[|actions|]);
      first.senders[f].id == last.senders[f].id != last.start && last.senders[f].id !in last.snaps
  {
    var before, b := LeftoverEnds(s0, g);
    var s := before[|b|];
    f := FreshFollower(s.senders.Keys);
    var after, a := StreamReplaced(s, f);
    Joined(before, b, after, a);
    states, actions, m := before + after[1..], b + a, |b| + 1;
    forall k | m + 1 <= k <= |actions|
      ensures f in Active(states[k]) && states[k].senders[f].id == s.start
    {
      assert states[|b| + (k - |b|)] == after[k - |b|];
    }
    assert states[|b| + 6] == after[6];
  }

  /** New streams are safe in all runs of a tenure if and only if no sender is left streaming when it begins. */
  lemma StreamsSafeIff(s0: State)
    requires Begins(s0) && s0.start > 0
    ensures NewStreamsSafe(s0) <==> Active(s0) == {}
  {
    if Active(s0) != {} {
      var g :| g in Active(s0);
      var states, actions, m, f := LeftoverSenderSpoils(s0, g);
      assert !(f in Active(states[m + 1]) && f in Active(states[|actions|]) && Intact(states, m, |actions|, f));
    } else {
      forall states: seq<State>, actions: seq<Action>, m: nat, n: nat, f: nat |
        IsRun(states, actions) && states[0] == s0 && NewStream(states, actions, m, n, f)
        ensures f in Active(states[m + 1]) && f in Active(states[n]) && Intact(states, m, n, f)
      {
        StreamIsOfOneSnapshot(states, actions, m + 1, n, f);
      }
    }
  }
}
